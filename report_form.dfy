/**
 * The end-of-day report form (components/StoryPromptForm.tsx): seven state
 * fields, three dynamic lists of id-keyed entries edited through generic
 * add / remove-by-id / update-field-by-id helpers, and the payload it submits.
 * Ids are taken as given (the source draws them with `crypto.randomUUID`).
 */
module ReportForm {
  import opened Wrappers
  import opened Types
  import opened Seqs

  // ---- Generic list helpers -------------------------------------------------

  /** `addItem`: the new entry goes last. */
  function AddItem<T>(items: seq<T>, newItem: T): (r: seq<T>)
    ensures |r| == |items| + 1 && r[..|items|] == items && r[|items|] == newItem
  {
    items + [newItem]
  }

  /** `removeItem`: every entry with the given id goes, the others stay in order. */
  function RemoveItem<T(!new)>(items: seq<T>, idOf: T -> string, id: string): (r: seq<T>)
    ensures forall i :: 0 <= i < |r| ==> idOf(r[i]) != id
    ensures forall x :: multiset(r)[x] == if idOf(x) != id then multiset(items)[x] else 0
  {
    FilterMultiset(items, x => idOf(x) != id);
    Filter(items, x => idOf(x) != id)
  }

  /** `updateItem`: every entry with the given id is patched, the others are left as they are. */
  function UpdateItem<T>(items: seq<T>, idOf: T -> string, id: string, patch: T -> T): (r: seq<T>)
    ensures |r| == |items|
    ensures forall i :: 0 <= i < |items| ==>
              r[i] == if idOf(items[i]) == id then patch(items[i]) else items[i]
  {
    if items == [] then []
    else [if idOf(items[0]) == id then patch(items[0]) else items[0]]
         + UpdateItem(items[1..], idOf, id, patch)
  }

  /** The entries a removal keeps are in the order the list had them. */
  lemma RemoveItemKeepsOrder<T(!new)>(items: seq<T>, idOf: T -> string, id: string)
    ensures IsSubsequence(RemoveItem(items, idOf, id), items)
  {
    FilterIsSubsequence(items, x => idOf(x) != id);
  }

  /** Removing an id that no entry carries leaves the list as it was. */
  lemma RemoveAbsentId<T(!new)>(items: seq<T>, idOf: T -> string, id: string)
    requires forall i :: 0 <= i < |items| ==> idOf(items[i]) != id
    ensures RemoveItem(items, idOf, id) == items
  {
    FilterKeepsAll(items, x => idOf(x) != id);
  }

  /** Removing the entry just added, under a fresh id, undoes the addition. */
  lemma RemoveUndoesAdd<T(!new)>(items: seq<T>, idOf: T -> string, newItem: T)
    requires forall i :: 0 <= i < |items| ==> idOf(items[i]) != idOf(newItem)
    ensures RemoveItem(AddItem(items, newItem), idOf, idOf(newItem)) == items
  {
    var p := x => idOf(x) != idOf(newItem);
    FilterAppend(items, [newItem], p);
    FilterKeepsAll(items, p);
    assert Filter([newItem], p) == [] by {
      assert [newItem][1..] == [];
    }
  }

  /** Updating an id that no entry carries leaves the list as it was. */
  lemma UpdateAbsentId<T>(items: seq<T>, idOf: T -> string, id: string, patch: T -> T)
    requires forall i :: 0 <= i < |items| ==> idOf(items[i]) != id
    ensures UpdateItem(items, idOf, id, patch) == items
  {
  }

  /** A patch that keeps ids keeps the ids of the whole list, position by position. */
  lemma UpdateKeepsIds<T>(items: seq<T>, idOf: T -> string, id: string, patch: T -> T)
    requires forall x :: idOf(patch(x)) == idOf(x)
    ensures forall i :: 0 <= i < |items| ==> idOf(UpdateItem(items, idOf, id, patch)[i]) == idOf(items[i])
  {
  }

  /** Setting the same field to the same value twice is the same as setting it once. */
  lemma {:induction false} UpdateIdempotent<T>(items: seq<T>, idOf: T -> string, id: string, patch: T -> T)
    requires forall x :: idOf(patch(x)) == idOf(x) && patch(patch(x)) == patch(x)
    ensures UpdateItem(UpdateItem(items, idOf, id, patch), idOf, id, patch)
         == UpdateItem(items, idOf, id, patch)
  {
    var once := UpdateItem(items, idOf, id, patch);
    var twice := UpdateItem(once, idOf, id, patch);
    assert forall i :: 0 <= i < |items| ==> twice[i] == once[i];
  }

  /** Editing an entry and then deleting it is the same as just deleting it. */
  lemma {:induction false} RemoveAfterUpdate<T(!new)>(items: seq<T>, idOf: T -> string, id: string, patch: T -> T)
    requires forall x :: idOf(patch(x)) == idOf(x)
    ensures RemoveItem(UpdateItem(items, idOf, id, patch), idOf, id) == RemoveItem(items, idOf, id)
  {
    if items != [] {
      RemoveAfterUpdate(items[1..], idOf, id, patch);
      var u := UpdateItem(items, idOf, id, patch);
      assert u[1..] == UpdateItem(items[1..], idOf, id, patch);
    }
  }

  // ---- Entries and their fields --------------------------------------------

  /** The text fields of a site visit that the form edits (`'clientName' | 'cpFirm' | 'clientContact'`). */
  datatype VisitField = ClientName | CpFirm | ClientContact

  /** The text fields of a lead that the form edits (`'clientName' | 'contactInfo' | 'notes'`). */
  datatype LeadField = LeadClientName | ContactInfo | Notes

  function SiteVisitId(v: SiteVisit): string { v.id }
  function CompletedVisitId(v: CompletedSiteVisit): string { v.id }
  function LeadId(l: Lead): string { l.id }

  function VisitFieldOf(v: SiteVisit, f: VisitField): string
  {
    match f
    case ClientName => v.clientName
    case CpFirm => v.cpFirm
    case ClientContact => v.clientContact
  }

  /** `{ ...item, [field]: value }` on a scheduled visit: only `field` changes. */
  function SetVisitField(v: SiteVisit, f: VisitField, value: string): (r: SiteVisit)
    ensures r.id == v.id
    ensures VisitFieldOf(r, f) == value
    ensures forall g :: g != f ==> VisitFieldOf(r, g) == VisitFieldOf(v, g)
  {
    match f
    case ClientName => v.(clientName := value)
    case CpFirm => v.(cpFirm := value)
    case ClientContact => v.(clientContact := value)
  }

  function CompletedFieldOf(v: CompletedSiteVisit, f: VisitField): string
  {
    match f
    case ClientName => v.clientName
    case CpFirm => v.cpFirm
    case ClientContact => v.clientContact
  }

  /** `{ ...item, [field]: value }` on a completed visit's text field: only `field` changes. */
  function SetCompletedField(v: CompletedSiteVisit, f: VisitField, value: string): (r: CompletedSiteVisit)
    ensures r.id == v.id && r.status == v.status
    ensures CompletedFieldOf(r, f) == value
    ensures forall g :: g != f ==> CompletedFieldOf(r, g) == CompletedFieldOf(v, g)
  {
    match f
    case ClientName => v.(clientName := value)
    case CpFirm => v.(cpFirm := value)
    case ClientContact => v.(clientContact := value)
  }

  /** The status drop-down's `{ ...item, status: value }`: id and text fields stay. */
  function SetCompletedStatus(v: CompletedSiteVisit, status: VisitStatus): (r: CompletedSiteVisit)
    ensures r.id == v.id && r.status == status
    ensures forall g :: CompletedFieldOf(r, g) == CompletedFieldOf(v, g)
  {
    v.(status := status)
  }

  function LeadFieldOf(l: Lead, f: LeadField): string
  {
    match f
    case LeadClientName => l.clientName
    case ContactInfo => l.contactInfo
    case Notes => l.notes
  }

  /** `{ ...item, [field]: value }` on a lead: only `field` changes. */
  function SetLeadField(l: Lead, f: LeadField, value: string): (r: Lead)
    ensures r.id == l.id
    ensures LeadFieldOf(r, f) == value
    ensures forall g :: g != f ==> LeadFieldOf(r, g) == LeadFieldOf(l, g)
  {
    match f
    case LeadClientName => l.(clientName := value)
    case ContactInfo => l.(contactInfo := value)
    case Notes => l.(notes := value)
  }

  /** The blank entries the "+" buttons append. */
  function NewSiteVisit(id: string): (v: SiteVisit)
    ensures v.id == id && forall f :: VisitFieldOf(v, f) == ""
  {
    SiteVisit(id, "", "", "")
  }

  function NewCompletedVisit(id: string): (v: CompletedSiteVisit)
    ensures v.id == id && v.status == FollowUp && forall f :: CompletedFieldOf(v, f) == ""
  {
    CompletedSiteVisit(id, "", "", "", FollowUp)
  }

  function NewLead(id: string): (l: Lead)
    ensures l.id == id && forall f :: LeadFieldOf(l, f) == ""
  {
    Lead(id, "", "", "")
  }

  // ---- The form's state ------------------------------------------------------

  /** The seven pieces of component state the form keeps, replaced by their setters. */
  class EodReportForm {
    var cpFirmDialingFor: string
    var callsDialed: nat
    var callsConnected: nat
    var projectsExplained: nat
    var scheduledVisits: seq<SiteVisit>
    var completedVisits: seq<CompletedSiteVisit>
    var leads: seq<Lead>

    /** The current value of every field, as the form would submit it. */
    function Fields(): ReportData
      reads this
    {
      ReportData(cpFirmDialingFor, callsDialed, callsConnected, projectsExplained,
                 scheduledVisits, completedVisits, leads)
    }

    /** A fresh form: empty firm, zero counters, no entries. */
    constructor ()
      ensures Fields() == ReportData("", 0, 0, 0, [], [], [])
    {
      cpFirmDialingFor := "";
      callsDialed := 0;
      callsConnected := 0;
      projectsExplained := 0;
      scheduledVisits := [];
      completedVisits := [];
      leads := [];
    }

    method SetCpFirmDialingFor(value: string)
      modifies this
      ensures Fields() == old(Fields()).(cpFirmDialingFor := value)
    {
      cpFirmDialingFor := value;
    }

    method SetCallsDialed(value: nat)
      modifies this
      ensures Fields() == old(Fields()).(callsDialed := value)
    {
      callsDialed := value;
    }

    method SetCallsConnected(value: nat)
      modifies this
      ensures Fields() == old(Fields()).(callsConnected := value)
    {
      callsConnected := value;
    }

    method SetProjectsExplained(value: nat)
      modifies this
      ensures Fields() == old(Fields()).(projectsExplained := value)
    {
      projectsExplained := value;
    }

    method AddScheduledVisit(id: string)
      modifies this
      ensures Fields() == old(Fields()).(scheduledVisits := AddItem(old(scheduledVisits), NewSiteVisit(id)))
    {
      scheduledVisits := AddItem(scheduledVisits, NewSiteVisit(id));
    }

    method RemoveScheduledVisit(id: string)
      modifies this
      ensures Fields() == old(Fields()).(scheduledVisits := RemoveItem(old(scheduledVisits), SiteVisitId, id))
    {
      scheduledVisits := RemoveItem(scheduledVisits, SiteVisitId, id);
    }

    method UpdateScheduledVisit(id: string, field: VisitField, value: string)
      modifies this
      ensures Fields() == old(Fields()).(scheduledVisits :=
        UpdateItem(old(scheduledVisits), SiteVisitId, id, v => SetVisitField(v, field, value)))
    {
      scheduledVisits := UpdateItem(scheduledVisits, SiteVisitId, id, v => SetVisitField(v, field, value));
    }

    method AddCompletedVisit(id: string)
      modifies this
      ensures Fields() == old(Fields()).(completedVisits := AddItem(old(completedVisits), NewCompletedVisit(id)))
    {
      completedVisits := AddItem(completedVisits, NewCompletedVisit(id));
    }

    method RemoveCompletedVisit(id: string)
      modifies this
      ensures Fields() == old(Fields()).(completedVisits := RemoveItem(old(completedVisits), CompletedVisitId, id))
    {
      completedVisits := RemoveItem(completedVisits, CompletedVisitId, id);
    }

    method UpdateCompletedVisit(id: string, field: VisitField, value: string)
      modifies this
      ensures Fields() == old(Fields()).(completedVisits :=
        UpdateItem(old(completedVisits), CompletedVisitId, id, v => SetCompletedField(v, field, value)))
    {
      completedVisits := UpdateItem(completedVisits, CompletedVisitId, id, v => SetCompletedField(v, field, value));
    }

    /** The status drop-down of a completed visit. */
    method UpdateCompletedVisitStatus(id: string, status: VisitStatus)
      modifies this
      ensures Fields() == old(Fields()).(completedVisits :=
        UpdateItem(old(completedVisits), CompletedVisitId, id, v => SetCompletedStatus(v, status)))
    {
      completedVisits := UpdateItem(completedVisits, CompletedVisitId, id, v => SetCompletedStatus(v, status));
    }

    method AddLead(id: string)
      modifies this
      ensures Fields() == old(Fields()).(leads := AddItem(old(leads), NewLead(id)))
    {
      leads := AddItem(leads, NewLead(id));
    }

    method RemoveLead(id: string)
      modifies this
      ensures Fields() == old(Fields()).(leads := RemoveItem(old(leads), LeadId, id))
    {
      leads := RemoveItem(leads, LeadId, id);
    }

    method UpdateLead(id: string, field: LeadField, value: string)
      modifies this
      ensures Fields() == old(Fields()).(leads := UpdateItem(old(leads), LeadId, id, l => SetLeadField(l, field, value)))
    {
      leads := UpdateItem(leads, LeadId, id, l => SetLeadField(l, field, value));
    }

    /**
     * Submitting the form. The firm input is `required`, so the browser's
     * constraint validation refuses to submit while it is empty and
     * `handleSubmit` never runs (`None`). Otherwise `handleSubmit` hands over
     * the seven fields as they stand; no date, no author.
     */
    method HandleSubmit() returns (data: Option<ReportData>)
      ensures data.None? <==> cpFirmDialingFor == ""
      ensures data.Some? ==> data.value.cpFirmDialingFor == cpFirmDialingFor
      ensures data.Some? ==> data.value.callsDialed == callsDialed && data.value.callsConnected == callsConnected
      ensures data.Some? ==> data.value.projectsExplained == projectsExplained
      ensures data.Some? ==> data.value.scheduledVisits == scheduledVisits && data.value.completedVisits == completedVisits
      ensures data.Some? ==> data.value.leads == leads
    {
      if cpFirmDialingFor == "" {
        return None;
      }
      data := Some(ReportData(cpFirmDialingFor, callsDialed, callsConnected, projectsExplained,
                              scheduledVisits, completedVisits, leads));
    }
  }
}
