/**
 * The lead store of App.tsx: the persisted state (an ordered lead list and
 * one profile), the view and modal state around it, and the handlers that
 * replace them. The pure computations inside the handlers (the prepend, the
 * field merge by id, the status map, the routing switch, the import guard)
 * are functions; the handlers are methods of `Store`.
 */
module App {
  import opened Wrappers
  import opened Types
  import opened Leads
  import opened Strings

  /** The views `currentView` switches between. */
  datatype View = Dashboard | Outreach | Compliance | ComplianceRules | Settings

  /** `initialData`: no leads and an empty profile name. */
  const InitialData := AppState([], UserProfile(""))

  /**
   * What `localStorage.getItem` returns and what `JSON.parse` makes of it:
   * no entry, an empty entry, or an entry that parses to a state (`Some`) or
   * makes `JSON.parse` throw (`None`).
   */
  datatype SavedEntry = NoEntry | EmptyEntry | Entry(parsed: Option<AppState>)

  /**
   * The lazy initialiser of `data`. An unparseable entry is not caught, so
   * the app does not start: `None`.
   */
  function Restore(saved: SavedEntry): Option<AppState> {
    match saved
    case NoEntry => Some(InitialData)
    case EmptyEntry => Some(InitialData)
    case Entry(parsed) => parsed
  }

  /** Without a usable entry the app starts from `initialData`; a stored state is taken as it is. */
  lemma RestoreCases(saved: SavedEntry)
    ensures !saved.Entry? ==> Restore(saved) == Some(InitialData)
    ensures !saved.Entry? ==> Restore(saved).value.leads == [] && Restore(saved).value.userProfile.name == ""
    ensures saved.Entry? && saved.parsed.Some? ==> Restore(saved) == saved.parsed
    ensures Restore(saved).None? <==> saved == Entry(None)
  {
  }

  /** The lead `handleSaveLead` creates: the submitted fields, the given id and time, status `NEW`. */
  function NewLead(f: LeadFields, id: string, now: string): (l: Lead)
    ensures l.id == id && l.dateAdded == now && l.status == New
    ensures FormOf(l) == f && l.problemDescription == Some(f.problemDescription)
  {
    Lead(id, f.companyName, f.email, f.problemType, Some(f.problemDescription), now, New, f.gdprConfirmed)
  }

  /** `{ ...l, ...leadData }`: the form's five fields over the lead's own. */
  function Merge(l: Lead, f: LeadFields): Lead {
    l.(companyName := f.companyName, email := f.email, problemType := f.problemType,
       problemDescription := Some(f.problemDescription), gdprConfirmed := f.gdprConfirmed)
  }

  /**
   * `leads.map(l => l.id === id ? { ...l, ...leadData } : l)`: leads with
   * that id take the form's fields and keep their id, date and status; all
   * other leads, and the order and length, stay as they were.
   */
  function EditLeads(leads: seq<Lead>, id: string, f: LeadFields): (r: seq<Lead>)
    ensures |r| == |leads|
    ensures forall i :: 0 <= i < |r| ==>
      r[i].id == leads[i].id && r[i].dateAdded == leads[i].dateAdded && r[i].status == leads[i].status
    ensures forall i :: 0 <= i < |r| && leads[i].id != id ==> r[i] == leads[i]
    ensures forall i :: 0 <= i < |r| && leads[i].id == id ==>
      FormOf(r[i]) == f && r[i].problemDescription == Some(f.problemDescription)
    decreases |leads|
  {
    if leads == [] then []
    else
      var head := if leads[0].id == id then Merge(leads[0], f) else leads[0];
      var rest := EditLeads(leads[1..], id, f);
      assert forall i :: 0 < i <= |rest| ==> ([head] + rest)[i] == rest[i - 1] && leads[i] == leads[1..][i - 1];
      [head] + rest
  }

  /**
   * `leads.map(l => l.id === id ? { ...l, status } : l)`: leads with that id
   * take the new status, nothing else about any lead changes.
   */
  function WithStatus(leads: seq<Lead>, id: string, s: LeadStatus): (r: seq<Lead>)
    ensures |r| == |leads|
    ensures forall i :: 0 <= i < |r| ==> r[i].(status := leads[i].status) == leads[i]
    ensures forall i :: 0 <= i < |r| && leads[i].id == id ==> r[i].status == s
    ensures forall i :: 0 <= i < |r| && leads[i].id != id ==> r[i] == leads[i]
    decreases |leads|
  {
    if leads == [] then []
    else
      var head := if leads[0].id == id then leads[0].(status := s) else leads[0];
      var rest := WithStatus(leads[1..], id, s);
      assert forall i :: 0 < i <= |rest| ==> ([head] + rest)[i] == rest[i - 1] && leads[i] == leads[1..][i - 1];
      [head] + rest
  }

  /** A fresh id keeps the ids unique when the new lead is prepended. */
  lemma CreateKeepsIdsUnique(leads: seq<Lead>, f: LeadFields, id: string, now: string)
    requires UniqueIds(leads)
    requires forall i :: 0 <= i < |leads| ==> leads[i].id != id
    ensures UniqueIds([NewLead(f, id, now)] + leads)
    ensures |[NewLead(f, id, now)] + leads| == |leads| + 1
  {
    var r := [NewLead(f, id, now)] + leads;
    forall i, j | 0 <= i < j < |r| ensures r[i].id != r[j].id {
      assert r[j] == leads[j - 1];
      if i > 0 {
        assert r[i] == leads[i - 1];
      }
    }
  }

  /** Editing twice with the same form is editing once. */
  lemma EditIdempotent(leads: seq<Lead>, id: string, f: LeadFields)
    ensures EditLeads(EditLeads(leads, id, f), id, f) == EditLeads(leads, id, f)
  {
  }

  /** Editing an id no lead has changes nothing. */
  lemma EditUnknownId(leads: seq<Lead>, id: string, f: LeadFields)
    requires forall i :: 0 <= i < |leads| ==> leads[i].id != id
    ensures EditLeads(leads, id, f) == leads
  {
  }

  /** Editing never touches ids, so unique ids stay unique. */
  lemma EditKeepsIdsUnique(leads: seq<Lead>, id: string, f: LeadFields)
    requires UniqueIds(leads)
    ensures UniqueIds(EditLeads(leads, id, f))
  {
  }

  /**
   * Saving the form the lead modal fills in from a lead gives that lead back;
   * only a missing description comes back as the empty one.
   */
  lemma EditWithOwnForm(leads: seq<Lead>, k: int)
    requires UniqueIds(leads) && 0 <= k < |leads|
    ensures var r := EditLeads(leads, leads[k].id, FormOf(leads[k]));
      r == leads[k := leads[k].(problemDescription := Some(leads[k].problemDescription.GetOr("")))]
  {
    var r := EditLeads(leads, leads[k].id, FormOf(leads[k]));
    var e := leads[k := leads[k].(problemDescription := Some(leads[k].problemDescription.GetOr("")))];
    forall i | 0 <= i < |r| ensures r[i] == e[i] {
      if i == k {
        assert r[i].id == leads[i].id;
      }
    }
  }

  /** A status update for an id no lead has changes nothing. */
  lemma StatusUnknownId(leads: seq<Lead>, id: string, s: LeadStatus)
    requires forall i :: 0 <= i < |leads| ==> leads[i].id != id
    ensures WithStatus(leads, id, s) == leads
  {
  }

  /** Setting the same status twice is setting it once. */
  lemma StatusIdempotent(leads: seq<Lead>, id: string, s: LeadStatus)
    ensures WithStatus(WithStatus(leads, id, s), id, s) == WithStatus(leads, id, s)
  {
  }

  /**
   * With unique ids, moving lead `k` to status `s` moves exactly one lead
   * between the status groups: its old group shrinks by one and `s` grows by one.
   */
  lemma {:induction false} StatusCounts(leads: seq<Lead>, k: int, s: LeadStatus, t: LeadStatus)
    requires UniqueIds(leads) && 0 <= k < |leads|
    ensures |ByStatus(WithStatus(leads, leads[k].id, s), t)| ==
      |ByStatus(leads, t)| - (if leads[k].status == t then 1 else 0) + (if s == t then 1 else 0)
    decreases |leads|, 1
  {
    if k == 0 {
      StatusCountsFirst(leads, s, t);
    } else {
      StatusCountsLater(leads, k, s, t);
    }
  }

  /** The updated lead is the first: it alone changes. */
  lemma StatusCountsFirst(leads: seq<Lead>, s: LeadStatus, t: LeadStatus)
    requires UniqueIds(leads) && 0 < |leads|
    ensures |ByStatus(WithStatus(leads, leads[0].id, s), t)| ==
      |ByStatus(leads, t)| - (if leads[0].status == t then 1 else 0) + (if s == t then 1 else 0)
  {
    var x, rest := leads[0], leads[1..];
    assert leads == [x] + rest;
    WithStatusCons(x, rest, x.id, s);
    TailAvoidsFirstId(leads);
    StatusUnknownId(rest, x.id, s);
    ByStatusCons(x.(status := s), rest, t);
    ByStatusCons(x, rest, t);
  }

  /** The updated lead comes later: the first lead is kept and the rest is counted recursively. */
  lemma {:induction false} StatusCountsLater(leads: seq<Lead>, k: int, s: LeadStatus, t: LeadStatus)
    requires UniqueIds(leads) && 0 < k < |leads|
    ensures |ByStatus(WithStatus(leads, leads[k].id, s), t)| ==
      |ByStatus(leads, t)| - (if leads[k].status == t then 1 else 0) + (if s == t then 1 else 0)
    decreases |leads|, 0
  {
    var x, rest := leads[0], leads[1..];
    var id := leads[k].id;
    assert leads == [x] + rest;
    assert x.id != id;
    assert rest[k - 1] == leads[k];
    WithStatusCons(x, rest, id, s);
    TailUniqueIds(leads);
    StatusCounts(rest, k - 1, s, t);
    ByStatusCons(x, WithStatus(rest, id, s), t);
    ByStatusCons(x, rest, t);
  }

  lemma WithStatusCons(x: Lead, rest: seq<Lead>, id: string, s: LeadStatus)
    ensures WithStatus([x] + rest, id, s) == [if x.id == id then x.(status := s) else x] + WithStatus(rest, id, s)
  {
    assert ([x] + rest)[0] == x && ([x] + rest)[1..] == rest;
  }

  lemma ByStatusCons(x: Lead, rest: seq<Lead>, t: LeadStatus)
    ensures |ByStatus([x] + rest, t)| == (if x.status == t then 1 else 0) + |ByStatus(rest, t)|
  {
    assert ([x] + rest)[0] == x && ([x] + rest)[1..] == rest;
  }

  lemma TailUniqueIds(leads: seq<Lead>)
    requires UniqueIds(leads) && leads != []
    ensures UniqueIds(leads[1..])
  {
    forall i, j | 0 <= i < j < |leads[1..]| ensures leads[1..][i].id != leads[1..][j].id {
      assert leads[1..][i] == leads[i + 1] && leads[1..][j] == leads[j + 1];
    }
  }

  lemma TailAvoidsFirstId(leads: seq<Lead>)
    requires UniqueIds(leads) && leads != []
    ensures forall i :: 0 <= i < |leads[1..]| ==> leads[1..][i].id != leads[0].id
  {
    forall i | 0 <= i < |leads[1..]| ensures leads[1..][i].id != leads[0].id {
      assert leads[1..][i] == leads[i + 1];
    }
  }

  /** `currentView` after `handleLeadAction`: `NEW` to outreach, `CONTACTED` to compliance, `WON` stays. */
  function ActionView(s: LeadStatus, current: View): View {
    match s
    case New => Outreach
    case Contacted => Compliance
    case Won => current
  }

  /**
   * The import file as `JSON.parse` and the `json.leads` test see it: a parse
   * error (or any other exception in the handler), a value whose `leads`
   * member is missing or falsy, or a value with a truthy `leads` member,
   * which an array always is, even an empty one.
   */
  datatype ImportFile = Unparseable | WithoutLeads | WithLeads(value: AppState)

  /** The alert `handleImport` shows, if any. */
  datatype ImportAlert = ImportSucceeded | ImportFailed | NoAlert

  /** The date part of an ISO timestamp: `s.split('T')[0]`. */
  function DatePart(s: string): (r: string)
    ensures |r| <= |s| && r == s[..|r|]
    ensures Lacks(r, 'T')
    ensures |r| < |s| ==> s[|r|] == 'T'
    decreases |s|
  {
    if s == [] || s[0] == 'T' then [] else [s[0]] + DatePart(s[1..])
  }

  /** The download name `handleExport` gives the backup file. */
  function BackupFileName(isoNow: string): string {
    "phoenix_backup_" + DatePart(isoNow) + ".json"
  }

  lemma DatePartExample()
    ensures DatePart("2024-05-01T10:00Z") == "2024-05-01"
  {
    var s := "2024-05-01T10:00Z";
    assert s[10] == 'T' && Lacks(s[..10], 'T');
    DatePartUpTo(s, 10);
  }

  /** The date part ends right before the first `T`. */
  lemma {:induction false} DatePartUpTo(s: string, n: int)
    requires 0 <= n < |s| && s[n] == 'T' && Lacks(s[..n], 'T')
    ensures DatePart(s) == s[..n]
    decreases n
  {
    if n > 0 {
      assert s[0] == s[..n][0];
      assert s[1..][n - 1] == s[n];
      assert s[1..][..n - 1] == s[..n][1..];
      DatePartUpTo(s[1..], n - 1);
      assert s[..n] == [s[0]] + s[..n][1..];
    }
  }

  /**
   * The state and handlers of `App`. Effects that only talk to the browser
   * (persisting to storage, the confetti timer) are not part of it; the timer's
   * callback is `HideConfetti`.
   */
  class Store {
    var leads: seq<Lead>
    var userProfile: UserProfile
    var currentView: View
    var isLeadModalOpen: bool
    var editingLead: Option<Lead>
    var selectedLeadForChecklist: Option<Lead>
    var selectedLeadForDetails: Option<Lead>
    var showConfetti: bool

    /** `data`, the persisted part of the state. */
    function Data(): AppState
      reads this`leads, this`userProfile
    {
      AppState(leads, userProfile)
    }

    /**
     * No handler ever sets `selectedLeadForChecklist` to a lead, so the
     * checklist modal and `handleWinDeal` are unreachable.
     */
    predicate Valid()
      reads this`selectedLeadForChecklist
    {
      selectedLeadForChecklist.None?
    }

    /** The first render, with `data` as the lazy initialiser produced it. */
    constructor(initial: AppState)
      ensures Data() == initial && currentView == Dashboard
      ensures !isLeadModalOpen && editingLead.None? && selectedLeadForDetails.None? && !showConfetti
      ensures Valid()
    {
      leads := initial.leads;
      userProfile := initial.userProfile;
      currentView := Dashboard;
      isLeadModalOpen := false;
      editingLead := None;
      selectedLeadForChecklist := None;
      selectedLeadForDetails := None;
      showConfetti := false;
    }

    /** `handleSaveLead`: edit the lead being edited, or prepend a new one; then close the modal. */
    method SaveLead(f: LeadFields, freshId: string, now: string)
      modifies this`leads, this`editingLead, this`isLeadModalOpen
      ensures old(editingLead).Some? ==> leads == EditLeads(old(leads), old(editingLead).value.id, f)
      ensures old(editingLead).None? ==> leads == [NewLead(f, freshId, now)] + old(leads)
      ensures editingLead.None? && !isLeadModalOpen
    {
      if editingLead.Some? {
        leads := EditLeads(leads, editingLead.value.id, f);
        editingLead := None;
      } else {
        leads := [NewLead(f, freshId, now)] + leads;
      }
      isLeadModalOpen := false;
    }

    /** `handleEditLead`: close the details and open the form on the lead. */
    method EditLeadClick(lead: Lead)
      modifies this`selectedLeadForDetails, this`editingLead, this`isLeadModalOpen
      ensures selectedLeadForDetails.None? && editingLead == Some(lead) && isLeadModalOpen
    {
      selectedLeadForDetails := None;
      editingLead := Some(lead);
      isLeadModalOpen := true;
    }

    /** `handleAddLeadClick`: open the form on no lead. */
    method AddLeadClick()
      modifies this`editingLead, this`isLeadModalOpen
      ensures editingLead.None? && isLeadModalOpen
    {
      editingLead := None;
      isLeadModalOpen := true;
    }

    /** The lead modal's `onClose`; `editingLead` is left as it is. */
    method CloseLeadModal()
      modifies this`isLeadModalOpen
      ensures !isLeadModalOpen
    {
      isLeadModalOpen := false;
    }

    /** `updateLeadStatus`. */
    method UpdateLeadStatus(id: string, s: LeadStatus)
      modifies this`leads
      ensures leads == WithStatus(old(leads), id, s)
    {
      leads := WithStatus(leads, id, s);
    }

    /** `handleLeadClick`: show the lead's details. */
    method LeadClick(lead: Lead)
      modifies this`selectedLeadForDetails
      ensures selectedLeadForDetails == Some(lead)
    {
      selectedLeadForDetails := Some(lead);
    }

    /** The details modal's `onClose`. */
    method CloseDetails()
      modifies this`selectedLeadForDetails
      ensures selectedLeadForDetails.None?
    {
      selectedLeadForDetails := None;
    }

    /** `handleLeadAction`: close the details and route by the lead's status. */
    method LeadAction(lead: Lead)
      modifies this`selectedLeadForDetails, this`currentView
      ensures selectedLeadForDetails.None?
      ensures currentView == ActionView(lead.status, old(currentView))
      ensures lead.status == New ==> currentView == Outreach
      ensures lead.status == Contacted ==> currentView == Compliance
      ensures lead.status == Won ==> currentView == old(currentView)
    {
      selectedLeadForDetails := None;
      if lead.status == New {
        currentView := Outreach;
      } else if lead.status == Contacted {
        currentView := Compliance;
      }
    }

    /**
     * `handleWinDeal`, the checklist modal's `onConfirm`. In every reachable
     * state there is no lead selected for the checklist, and it does nothing.
     */
    method WinDeal()
      modifies this`leads, this`selectedLeadForChecklist, this`showConfetti
      ensures old(selectedLeadForChecklist).Some? ==>
        leads == WithStatus(old(leads), old(selectedLeadForChecklist).value.id, Won) &&
        selectedLeadForChecklist.None? && showConfetti
      ensures old(Valid()) ==> leads == old(leads) && Valid() && showConfetti == old(showConfetti)
      ensures Valid()
    {
      if selectedLeadForChecklist.Some? {
        leads := WithStatus(leads, selectedLeadForChecklist.value.id, Won);
        selectedLeadForChecklist := None;
        showConfetti := true;
      }
    }

    /** The checklist modal's `onClose`. */
    method CloseChecklist()
      modifies this`selectedLeadForChecklist
      ensures selectedLeadForChecklist.None? && Valid()
    {
      selectedLeadForChecklist := None;
    }

    /** `handleWinDealFromManager`: set the status and celebrate a won deal. */
    method WinDealFromManager(id: string, s: LeadStatus)
      modifies this`leads, this`showConfetti
      ensures leads == WithStatus(old(leads), id, s)
      ensures showConfetti == (s == Won || old(showConfetti))
    {
      leads := WithStatus(leads, id, s);
      if s == Won {
        showConfetti := true;
      }
    }

    /** The callback of the celebration timer. */
    method HideConfetti()
      modifies this`showConfetti
      ensures !showConfetti
    {
      showConfetti := false;
    }

    /**
     * `handleImport` once the file is read: the whole state is replaced
     * exactly when the parsed value has a truthy `leads` member.
     */
    method Import(file: ImportFile) returns (alert: ImportAlert)
      modifies this`leads, this`userProfile
      ensures file.WithLeads? ==> Data() == file.value && alert == ImportSucceeded
      ensures !file.WithLeads? ==> Data() == old(Data())
      ensures file.Unparseable? ==> alert == ImportFailed
      ensures file.WithoutLeads? ==> alert == NoAlert
    {
      match file
      case WithLeads(value) =>
        leads := value.leads;
        userProfile := value.userProfile;
        alert := ImportSucceeded;
      case WithoutLeads =>
        alert := NoAlert;
      case Unparseable =>
        alert := ImportFailed;
    }

    /** Settings' `onUpdateProfile`: the profile is replaced, the leads stay. */
    method UpdateProfile(p: UserProfile)
      modifies this`userProfile
      ensures userProfile == p && Data() == AppState(old(leads), p)
    {
      userProfile := p;
    }

    /** Settings' `onClearData`: back to `initialData`. */
    method ClearData()
      modifies this`leads, this`userProfile
      ensures Data() == InitialData
      ensures Some(Data()) == Restore(NoEntry)
    {
      leads := InitialData.leads;
      userProfile := InitialData.userProfile;
    }

    /** The sidebar's `onChangeView`. */
    method ChangeView(v: View)
      modifies this`currentView
      ensures currentView == v
    {
      currentView := v;
    }
  }
}
