// The application shell: the session and report state, the handlers that
// change it, what is restored from browser storage on start-up, and which
// reports the dashboard is given. Browser storage is modelled as two fields
// of the class; the persist effect that writes the reports back whenever
// they change is folded into every method that changes them.

module App {
  import opened Wrappers
  import opened Types
  import opened Seqs
  import opened UserService

  datatype View = FormView | SummaryView | DashboardView

  /** What `JSON.parse` made of the stored reports. */
  datatype Stored = Parsed(reports: seq<DailyReport>) | Malformed

  /** What the shell shows below its header (after the splash screen). */
  datatype Screen =
    | LoginScreen
    | Blank
    | SummaryScreen(report: DailyReport)
    | DashboardScreen(shown: seq<DailyReport>, role: Role)
    | ReportFormScreen
    | ManagerNotice

  /** The reports of the telecaller called `name`. */
  function OwnedBy(name: string): DailyReport -> bool
  {
    (r: DailyReport) => r.telecallerName == name
  }

  /** `reportsForDashboard`: a manager sees every report, a telecaller only their own. */
  function ReportsForDashboard(user: User, reports: seq<DailyReport>): (shown: seq<DailyReport>)
    ensures |shown| <= |reports|
    ensures user.role == Telecaller ==> forall i :: 0 <= i < |shown| ==> shown[i].telecallerName == user.name
  {
    if user.role == Manager then reports else Filter(reports, OwnedBy(user.name))
  }

  /** A manager is given the whole store, in store order. */
  lemma ManagerSeesAll(user: User, reports: seq<DailyReport>)
    requires user.role == Manager
    ensures ReportsForDashboard(user, reports) == reports
  {
  }

  /**
   * A telecaller is given exactly the stored reports carrying their name,
   * each as often as it is stored, in store order.
   */
  lemma TelecallerSeesOwn(user: User, reports: seq<DailyReport>)
    requires user.role == Telecaller
    ensures forall r :: r in ReportsForDashboard(user, reports) <==> r in reports && r.telecallerName == user.name
    ensures forall r :: multiset(ReportsForDashboard(user, reports))[r] ==
              if r.telecallerName == user.name then multiset(reports)[r] else 0
    ensures IsSubsequence(ReportsForDashboard(user, reports), reports)
  {
    FilterMembers(reports, OwnedBy(user.name));
    FilterMultiset(reports, OwnedBy(user.name));
    FilterIsSubsequence(reports, OwnedBy(user.name));
  }

  /** A report a telecaller submits shows up at the end of their dashboard list. */
  lemma SubmittedReportShown(user: User, reports: seq<DailyReport>, r: DailyReport)
    requires r.telecallerName == user.name
    ensures ReportsForDashboard(user, reports + [r]) == ReportsForDashboard(user, reports) + [r]
  {
    FilterAppend(reports, [r], OwnedBy(user.name));
    assert Filter([r], OwnedBy(user.name)) == [r] by {
      assert [r][1..] == [];
    }
  }

  /** `renderContent`, with the log-in screen shown while nobody is logged in. */
  function Content(view: View, user: Option<User>, current: Option<DailyReport>,
                   reports: seq<DailyReport>): (screen: Screen)
    ensures screen == LoginScreen <==> user.None?
    ensures screen == Blank <==> user.Some? && view == SummaryView && current.None?
    ensures screen == ManagerNotice <==> user.Some? && user.value.role == Manager && view == FormView
  {
    if user.None? then LoginScreen
    else match view
      case SummaryView => if current.Some? then SummaryScreen(current.value) else Blank
      case DashboardView => DashboardScreen(ReportsForDashboard(user.value, reports), user.value.role)
      case FormView =>
        match user.value.role
        case Telecaller => ReportFormScreen
        case Manager => ManagerNotice
  }

  /** Only a logged-in telecaller on the form view is offered the report form. */
  lemma FormOnlyForTelecallers(view: View, user: Option<User>, current: Option<DailyReport>,
                               reports: seq<DailyReport>)
    ensures Content(view, user, current, reports) == ReportFormScreen <==>
              user.Some? && user.value.role == Telecaller && view == FormView
  {
  }

  /** The dashboard is always handed the viewer's visible reports and the viewer's role. */
  lemma DashboardGetsVisibleReports(view: View, user: Option<User>, current: Option<DailyReport>,
                                    reports: seq<DailyReport>)
    requires Content(view, user, current, reports).DashboardScreen?
    ensures user.Some? && view == DashboardView
    ensures Content(view, user, current, reports) ==
              DashboardScreen(ReportsForDashboard(user.value, reports), user.value.role)
  {
  }

  class EodApp {
    var view: View
    var reports: seq<DailyReport>
    var currentReport: Option<DailyReport>
    var currentUser: Option<User>
    /** The `loggedInUserEmail` storage entry. */
    var storedEmail: Option<string>
    /** The `eodReports` storage entry. */
    var storedReports: Option<Stored>

    /**
     * Storage holds the reports; a current report is the one submitted last;
     * the summary view always has a report to show.
     */
    ghost predicate Valid()
      reads this
    {
      && storedReports == Some(Parsed(reports))
      && (currentReport.Some? ==> |reports| > 0 && currentReport.value == reports[|reports| - 1])
      && (view == SummaryView ==> currentReport.Some?)
    }

    function Shown(): Screen
      reads this
    {
      Content(view, currentUser, currentReport, reports)
    }

    /**
     * Mounting: the initial state, then the start-up load. The user whose
     * email is stored is restored first; then the stored reports are read,
     * and when they cannot be parsed all storage is cleared (the restored
     * user stays logged in). Finally the reports are written back.
     */
    constructor Mount(savedEmail: Option<string>, saved: Option<Stored>)
      ensures Valid()
      ensures currentUser == (if savedEmail.Some? then FindUserByEmail(savedEmail.value) else None)
      ensures reports == (if saved.Some? && saved.value.Parsed? then saved.value.reports else [])
      ensures view == (if |reports| > 0 then DashboardView else FormView)
      ensures currentReport == None
      ensures storedEmail == (if saved == Some(Malformed) then None else savedEmail)
    {
      view := FormView;
      reports := [];
      currentReport := None;
      currentUser := None;
      storedEmail := savedEmail;
      storedReports := saved;
      if savedEmail.Some? && savedEmail.value != "" {
        var user := FindUserByEmail(savedEmail.value);
        if user.Some? {
          currentUser := user;
        }
      }
      if saved.Some? {
        match saved.value
        case Malformed =>
          storedEmail := None;
          storedReports := None;
        case Parsed(loaded) =>
          reports := loaded;
          if |loaded| > 0 {
            view := DashboardView;
          }
      }
      storedReports := Some(Parsed(reports));
    }

    /** `handleLogin`: the user is logged in, remembered, and taken to their home view. */
    method Login(user: User)
      requires Valid()
      modifies this
      ensures Valid()
      ensures currentUser == Some(user) && storedEmail == Some(user.email)
      ensures view == (if user.role == Manager then DashboardView else FormView)
      ensures reports == old(reports) && currentReport == old(currentReport)
      ensures storedReports == old(storedReports)
    {
      currentUser := Some(user);
      storedEmail := Some(user.email);
      if user.role == Manager {
        view := DashboardView;
      } else {
        view := FormView;
      }
    }

    /** `handleLogout`: the user and the remembered email are dropped; nothing else changes. */
    method Logout()
      requires Valid()
      modifies this
      ensures Valid()
      ensures currentUser == None && storedEmail == None
      ensures view == old(view) && reports == old(reports) && currentReport == old(currentReport)
      ensures storedReports == old(storedReports)
      ensures Shown() == LoginScreen
    {
      currentUser := None;
      storedEmail := None;
    }

    /**
     * `handleReportSubmit`: refused unless a telecaller is logged in;
     * otherwise the form data is stamped with `now` and the telecaller's
     * name, appended to the store, and shown on the summary view.
     */
    method SubmitReport(data: ReportData, now: int) returns (accepted: bool)
      requires Valid()
      modifies this
      ensures Valid()
      ensures accepted <==> old(currentUser).Some? && old(currentUser).value.role == Telecaller
      ensures accepted ==>
        var r := Stamp(data, now, old(currentUser).value.name);
        && reports == old(reports) + [r]
        && currentReport == Some(r)
        && view == SummaryView
      ensures !accepted ==>
        reports == old(reports) && currentReport == old(currentReport) && view == old(view)
      ensures currentUser == old(currentUser) && storedEmail == old(storedEmail)
    {
      if currentUser.None? || currentUser.value.role != Telecaller {
        return false;
      }
      var r := Stamp(data, now, currentUser.value.name);
      reports := reports + [r];
      storedReports := Some(Parsed(reports));
      currentReport := Some(r);
      view := SummaryView;
      return true;
    }

    /** `handleShowForm`: back to the form, with no current report. */
    method ShowForm()
      requires Valid()
      modifies this
      ensures Valid()
      ensures view == FormView && currentReport == None
      ensures reports == old(reports) && currentUser == old(currentUser)
      ensures storedEmail == old(storedEmail) && storedReports == old(storedReports)
    {
      currentReport := None;
      view := FormView;
    }

    /** `handleShowDashboard`: on to the dashboard, with no current report. */
    method ShowDashboard()
      requires Valid()
      modifies this
      ensures Valid()
      ensures view == DashboardView && currentReport == None
      ensures reports == old(reports) && currentUser == old(currentUser)
      ensures storedEmail == old(storedEmail) && storedReports == old(storedReports)
    {
      currentReport := None;
      view := DashboardView;
    }

    /** In a valid state the summary view is never blank: it always has a report to show. */
    lemma NeverBlank()
      requires Valid()
      ensures Shown() != Blank
      ensures view == SummaryView && currentUser.Some? ==> Shown() == SummaryScreen(reports[|reports| - 1])
    {
    }
  }
}
