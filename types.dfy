/**
 * The records of the reporting tool (types.ts). A report's `date`, an ISO
 * timestamp string in the source, is a point in time here: an integer number
 * of milliseconds. Counters are natural numbers.
 */
module Types {

  datatype Role = Telecaller | Manager

  /** A directory entry: the email is the lookup key, the name is shown and stamped on reports. */
  datatype User = User(email: string, name: string, role: Role)

  datatype SiteVisit = SiteVisit(id: string, clientName: string, cpFirm: string, clientContact: string)

  datatype VisitStatus = Selected | NotInterested | FollowUp

  /** A site visit that took place, with its outcome. */
  datatype CompletedSiteVisit =
    CompletedSiteVisit(id: string, clientName: string, cpFirm: string, clientContact: string, status: VisitStatus)

  datatype Lead = Lead(id: string, clientName: string, contactInfo: string, notes: string)

  /** One telecaller's end-of-day report. */
  datatype DailyReport = DailyReport(
    date: int,
    telecallerName: string,
    cpFirmDialingFor: string,
    callsDialed: nat,
    callsConnected: nat,
    projectsExplained: nat,
    scheduledVisits: seq<SiteVisit>,
    completedVisits: seq<CompletedSiteVisit>,
    leads: seq<Lead>)

  /** What the form submits: a report without `date` and `telecallerName`. */
  datatype ReportData = ReportData(
    cpFirmDialingFor: string,
    callsDialed: nat,
    callsConnected: nat,
    projectsExplained: nat,
    scheduledVisits: seq<SiteVisit>,
    completedVisits: seq<CompletedSiteVisit>,
    leads: seq<Lead>)

  /** The form data a report was built from: everything but its date and its author. */
  function DataOf(r: DailyReport): ReportData
  {
    ReportData(r.cpFirmDialingFor, r.callsDialed, r.callsConnected, r.projectsExplained,
               r.scheduledVisits, r.completedVisits, r.leads)
  }

  /**
   * The report `handleReportSubmit` builds: the form data spread out, then
   * `date` and `telecallerName` set. Stripping them again gives back the data,
   * and stamping a report's own data with its own date and name rebuilds it.
   */
  function Stamp(data: ReportData, date: int, name: string): (r: DailyReport)
    ensures r.date == date && r.telecallerName == name
    ensures DataOf(r) == data
  {
    DailyReport(date, name, data.cpFirmDialingFor, data.callsDialed, data.callsConnected,
                data.projectsExplained, data.scheduledVisits, data.completedVisits, data.leads)
  }

  lemma StampDataOf(r: DailyReport)
    ensures Stamp(DataOf(r), r.date, r.telecallerName) == r
  {
  }
}
