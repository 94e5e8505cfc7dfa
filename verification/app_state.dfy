/**
 * The application shell: the report list, the selection, the active view and
 * tab, the menu and the print mode, written as transitions from one state to
 * the next. The report list is mirrored into the storage cell whenever it
 * changes.
 */
module App {
  import opened Wrappers
  import opened Types
  import opened Storage
  import Hub = Dashboard
  import Viewing = AuditResults

  /** Which reports the print layout covers. */
  datatype PrintContext = Single | All

  /** The tab a report opens on unless another one is asked for. */
  const DefaultTab := "overview"

  datatype State = State(
    view: AppView,
    audits: seq<AuditResult>,
    selectedId: Option<string>,
    menuOpen: bool,
    activeTab: string,
    printing: bool,
    printContext: PrintContext)

  /** The state before anything has been loaded. */
  const Initial := State(AppView.Dashboard, [], None, false, DefaultTab, false, Single)

  /** The shell together with the storage cell it mirrors its list into. */
  datatype System = System(state: State, stored: Blob)

  /** The storage cell holds exactly the shell's current list. */
  predicate Synced(sys: System) {
    sys.stored == Written(sys.state.audits)
  }

  /**
   * Start-up: a stored list that parses is loaded; a missing or unparseable
   * one leaves the list empty without failing. Either way the list is then
   * written back, so an unparseable blob is replaced by the empty list.
   */
  function Mount(stored: Blob): (sys: System)
    ensures Synced(sys)
    ensures stored.Written? ==> sys.state.audits == stored.list
    ensures !stored.Written? ==> sys.state.audits == [] && sys.stored == Written([])
    ensures sys.state.(audits := []) == Initial
  {
    var audits := if stored.Written? then stored.list else [];
    System(Initial.(audits := audits), Written(audits))
  }

  /** A finished audit goes to the front of the list and is opened on its summary tab. */
  function CompleteAudit(st: State, result: AuditResult): (st': State)
    ensures st'.audits == [result] + st.audits
    ensures st'.selectedId == Some(result.id)
    ensures st'.activeTab == DefaultTab && st'.view == AuditDetail
    ensures st'.menuOpen == st.menuOpen && st'.printing == st.printing && st'.printContext == st.printContext
  {
    st.(audits := [result] + st.audits, selectedId := Some(result.id), activeTab := DefaultTab, view := AuditDetail)
  }

  /** The list without any report carrying the given id (JavaScript's `filter`). */
  function RemoveId(audits: seq<AuditResult>, id: string): (r: seq<AuditResult>)
    ensures |r| <= |audits|
    ensures forall i :: 0 <= i < |r| ==> r[i].id != id
    ensures forall a :: a in r <==> a in audits && a.id != id
  {
    if |audits| == 0 then []
    else if audits[0].id == id then RemoveId(audits[1..], id)
    else [audits[0]] + RemoveId(audits[1..], id)
  }

  /** Filtering distributes over concatenation, so survivors keep their relative order. */
  lemma {:induction false} RemoveIdAppend(xs: seq<AuditResult>, ys: seq<AuditResult>, id: string)
    ensures RemoveId(xs + ys, id) == RemoveId(xs, id) + RemoveId(ys, id)
  {
    if |xs| == 0 {
      assert xs + ys == ys;
    } else {
      assert (xs + ys)[1..] == xs[1..] + ys;
      RemoveIdAppend(xs[1..], ys, id);
    }
  }

  /** Removing an id nobody carries changes nothing. */
  lemma {:induction false} RemoveIdAbsent(audits: seq<AuditResult>, id: string)
    requires forall i :: 0 <= i < |audits| ==> audits[i].id != id
    ensures RemoveId(audits, id) == audits
  {
    if |audits| > 0 {
      RemoveIdAbsent(audits[1..], id);
    }
  }

  /** Removing the same id twice is the same as removing it once. */
  lemma RemoveIdIdempotent(audits: seq<AuditResult>, id: string)
    ensures RemoveId(RemoveId(audits, id), id) == RemoveId(audits, id)
  {
    RemoveIdAbsent(RemoveId(audits, id), id);
  }

  /** Removing an id leaves the first report of any other id where lookups find it. */
  lemma {:induction false} FindAfterRemove(audits: seq<AuditResult>, id: string, other: string)
    requires id != other
    ensures FindById(RemoveId(audits, id), other) == FindById(audits, other)
  {
    if |audits| > 0 {
      var head, tail := audits[0], audits[1..];
      assert audits == [head] + tail;
      FindAfterRemove(tail, id, other);
      if head.id == id {
        FindPastHead(head, tail, other);
      } else if head.id == other {
        FindAtHead(head, tail, other);
        FindAtHead(head, RemoveId(tail, id), other);
      } else {
        FindPastHead(head, tail, other);
        FindPastHead(head, RemoveId(tail, id), other);
      }
    }
  }

  lemma FindAtHead(head: AuditResult, tail: seq<AuditResult>, id: string)
    requires head.id == id
    ensures FindById([head] + tail, id) == Some(head)
  {
  }

  lemma FindPastHead(head: AuditResult, tail: seq<AuditResult>, id: string)
    requires head.id != id
    ensures FindById([head] + tail, id) == FindById(tail, id)
  {
    assert ([head] + tail)[1..] == tail;
  }

  /**
   * Deleting removes every report with the id. When that id was selected the
   * selection is cleared and the dashboard is shown; otherwise the selection
   * and the view stay as they were.
   */
  function DeleteAudit(st: State, id: string): (st': State)
    ensures st'.audits == RemoveId(st.audits, id)
    ensures st.selectedId == Some(id) ==> st'.selectedId.None? && st'.view == AppView.Dashboard
    ensures st.selectedId != Some(id) ==> st'.selectedId == st.selectedId && st'.view == st.view
    ensures st'.activeTab == st.activeTab && st'.menuOpen == st.menuOpen && st'.printing == st.printing
  {
    var st1 := st.(audits := RemoveId(st.audits, id));
    if st.selectedId == Some(id) then st1.(selectedId := None, view := AppView.Dashboard) else st1
  }

  /** Opening a report: its id, the requested tab (the summary tab by default), the detail view, menu closed. */
  function SelectAudit(st: State, id: string, tab: Option<string>): (st': State)
    ensures st'.selectedId == Some(id) && st'.view == AuditDetail && !st'.menuOpen
    ensures tab.None? ==> st'.activeTab == DefaultTab
    ensures tab.Some? ==> st'.activeTab == tab.value
    ensures st'.audits == st.audits
  {
    st.(selectedId := Some(id), activeTab := tab.GetOr(DefaultTab), view := AuditDetail, menuOpen := false)
  }

  /** The report the selection refers to: the first with that id, if any. */
  function SelectedAudit(st: State): (r: Option<AuditResult>)
    ensures r.None? <==> st.selectedId.None? || forall i :: 0 <= i < |st.audits| ==> st.audits[i].id != st.selectedId.value
    ensures r.Some? ==> r.value in st.audits && Some(r.value.id) == st.selectedId
    ensures r.Some? ==> r.value == st.audits[IndexOfId(st.audits, st.selectedId.value)]
  {
    if st.selectedId.None? then None else FindById(st.audits, st.selectedId.value)
  }

  /**
   * Opening a report shows the first report in the list with its id, and
   * opening an id no report carries leads to "No audit selected".
   */
  lemma SelectShowsFirstMatch(st: State, id: string, tab: Option<string>)
    requires !st.printing
    ensures var k := IndexOfId(st.audits, id);
      && (k >= 0 ==> Render(SelectAudit(st, id, tab)) == ReportPage(st.audits[k], tab.GetOr(DefaultTab)))
      && (k == -1 ==> Render(SelectAudit(st, id, tab)) == NoAuditSelected)
  {
  }

  /** The reports the print layout lists. */
  function PrintSet(st: State): (reports: seq<AuditResult>)
    ensures st.printContext == All ==> reports == st.audits
    ensures st.printContext == Single ==> |reports| <= 1
    ensures st.printContext == Single && SelectedAudit(st).Some? ==> reports == [SelectedAudit(st).value]
    ensures st.printContext == Single && SelectedAudit(st).None? ==> reports == []
  {
    if st.printContext == All then st.audits
    else if SelectedAudit(st).Some? then [SelectedAudit(st).value]
    else []
  }

  /** What the shell shows. */
  datatype Page =
    | PrintPage(reports: seq<AuditResult>)
    | HubPage(hub: Hub.Screen)
    | FormPage
    | ReportPage(audit: AuditResult, tab: string)
    | NoAuditSelected

  function Render(st: State): (p: Page)
    ensures st.printing ==> p == PrintPage(PrintSet(st))
    ensures !st.printing && st.view == AuditDetail ==>
      (p == NoAuditSelected <==> SelectedAudit(st).None?)
    ensures p.ReportPage? ==> Some(p.audit) == SelectedAudit(st) && p.tab == st.activeTab
  {
    if st.printing then PrintPage(PrintSet(st))
    else match st.view
      case Dashboard => HubPage(Hub.Render(st.audits))
      case NewAudit => FormPage
      case AuditDetail =>
        if SelectedAudit(st).Some? then ReportPage(SelectedAudit(st).value, st.activeTab)
        else NoAuditSelected
  }

  /**
   * The user and timer events the shell reacts to. The sidebar and the navbar
   * close the mobile menu when they switch views (`Navigate`); the in-page
   * buttons (the dashboard's new-audit button, the form's cancel and the
   * link back from a missing report) switch the view only (`SetView`).
   * `ChangeTab` is the tab bar's and the sidebar's tab switch, and
   * `CloseMenu` the overlay's backdrop and close button.
   */
  datatype Action =
    | Complete(result: AuditResult)
    | Delete(id: string)
    | Select(id: string, tab: Option<string>)
    | Navigate(target: AppView)
    | SetView(target: AppView)
    | ChangeTab(tabId: string)
    | ToggleMenu
    | CloseMenu
    | StartPrint(context: PrintContext)
    | FinishPrint

  /**
   * The state after one event. Only completing and deleting touch the list,
   * only completing, deleting and selecting touch the selection, and each
   * other field is changed only by the events that set it.
   */
  function Step(st: State, a: Action): (st': State)
    ensures !(a.Complete? || a.Delete?) ==> st'.audits == st.audits
    ensures !(a.Complete? || a.Delete? || a.Select?) ==> st'.selectedId == st.selectedId
    ensures a.Navigate? || a.SetView? ==> st'.view == a.target
    ensures !(a.Complete? || a.Delete? || a.Select? || a.Navigate? || a.SetView?) ==> st'.view == st.view
    ensures a.ChangeTab? ==> st'.activeTab == a.tabId
    ensures !(a.Complete? || a.Select? || a.ChangeTab?) ==> st'.activeTab == st.activeTab
    ensures a.Select? || a.Navigate? || a.CloseMenu? ==> !st'.menuOpen
    ensures a.ToggleMenu? ==> st'.menuOpen == !st.menuOpen
    ensures !(a.Select? || a.Navigate? || a.CloseMenu? || a.ToggleMenu?) ==> st'.menuOpen == st.menuOpen
    ensures a.StartPrint? ==> st'.printing && st'.printContext == a.context
    ensures a.FinishPrint? ==> !st'.printing && st'.printContext == st.printContext
    ensures !(a.StartPrint? || a.FinishPrint?) ==> st'.printing == st.printing && st'.printContext == st.printContext
  {
    match a
    case Complete(result) => CompleteAudit(st, result)
    case Delete(id) => DeleteAudit(st, id)
    case Select(id, tab) => SelectAudit(st, id, tab)
    case Navigate(target) => st.(view := target, menuOpen := false)
    case SetView(target) => st.(view := target)
    case ChangeTab(tabId) => st.(activeTab := tabId)
    case ToggleMenu => st.(menuOpen := !st.menuOpen)
    case CloseMenu => st.(menuOpen := false)
    case StartPrint(context) => st.(printContext := context, printing := true)
    case FinishPrint => st.(printing := false)
  }

  /** The two ways of switching views differ only in what happens to the menu. */
  lemma NavigationsDifferOnlyInMenu(st: State, target: AppView)
    ensures Step(st, SetView(target)) == Step(st, Navigate(target)).(menuOpen := st.menuOpen)
    ensures st.menuOpen ==> Step(st, SetView(target)) != Step(st, Navigate(target))
  {
  }

  /** Switching tabs on an open report shows the same report on the new tab. */
  lemma ChangeTabShowsTab(st: State, tabId: string)
    requires !st.printing && st.view == AuditDetail && SelectedAudit(st).Some?
    ensures Render(Step(st, ChangeTab(tabId))) == ReportPage(SelectedAudit(st).value, tabId)
  {
  }

  /** The link back from a missing report leads to the dashboard of the current list. */
  lemma BackFromMissingReport(st: State)
    requires Render(st) == NoAuditSelected
    ensures Render(Step(st, SetView(AppView.Dashboard))) == HubPage(Hub.Render(st.audits))
  {
  }

  /**
   * One event, followed by the persist effect: completing and deleting build a
   * new list, and a new list is written to storage whole.
   */
  function Dispatch(sys: System, a: Action): (sys': System)
    ensures sys'.state == Step(sys.state, a)
    ensures sys'.state.audits != sys.state.audits ==> sys'.stored == Written(sys'.state.audits)
    ensures !(a.Complete? || a.Delete?) ==> sys'.state.audits == sys.state.audits && sys'.stored == sys.stored
  {
    var st' := Step(sys.state, a);
    if a.Complete? || a.Delete? then System(st', Written(st'.audits)) else System(st', sys.stored)
  }

  /** Every event keeps the storage cell in step with the list. */
  lemma DispatchKeepsSynced(sys: System, a: Action)
    requires Synced(sys)
    ensures Synced(Dispatch(sys, a))
  {
  }

  /** Start-up followed by a run of the shell's own actions. */
  function Run(stored: Blob, actions: seq<Action>): System {
    if |actions| == 0 then Mount(stored)
    else Dispatch(Run(stored, actions[..|actions| - 1]), actions[|actions| - 1])
  }

  /** After start-up and any run of the shell's own actions the storage cell holds the list. */
  lemma {:induction false} RunSynced(stored: Blob, actions: seq<Action>)
    ensures Synced(Run(stored, actions))
  {
    if |actions| > 0 {
      RunSynced(stored, actions[..|actions| - 1]);
      DispatchKeepsSynced(Run(stored, actions[..|actions| - 1]), actions[|actions| - 1]);
    }
  }

  /** A completed audit is the one the detail view then shows, on the summary tab. */
  lemma CompleteShowsResult(st: State, result: AuditResult)
    requires !st.printing
    ensures Render(CompleteAudit(st, result)) == ReportPage(result, DefaultTab)
  {
    var st' := CompleteAudit(st, result);
    assert st'.audits[0] == result;
    assert FindById(st'.audits, result.id) == Some(result);
  }

  /** Deleting the open report returns to the dashboard instead of an empty detail view. */
  lemma DeleteOpenReport(st: State)
    requires !st.printing && st.selectedId.Some?
    ensures Render(DeleteAudit(st, st.selectedId.value)) == HubPage(Hub.Render(RemoveId(st.audits, st.selectedId.value)))
  {
  }

  /** Deleting another report leaves the open report open. */
  lemma DeleteOtherKeepsSelection(st: State, id: string)
    requires st.selectedId != Some(id)
    ensures SelectedAudit(DeleteAudit(st, id)) == SelectedAudit(st)
  {
    if st.selectedId.Some? {
      FindAfterRemove(st.audits, id, st.selectedId.value);
    }
  }

  /** The dashboard's delete button changes nothing unless the confirmation is accepted. */
  function ConfirmedDelete(sys: System, confirmed: bool, id: string): (sys': System)
    ensures !confirmed ==> sys' == sys
    ensures confirmed ==> sys' == Dispatch(sys, Delete(id))
  {
    match Hub.DeleteRequest(confirmed, id)
    case None => sys
    case Some(target) => Dispatch(sys, Delete(target))
  }

  /**
   * Everything that writes the shell's list or the storage cell: the shell's
   * own actions, and the report viewer's video hand-off, which rewrites the
   * storage cell itself. `current` is the viewer's copy of the report and
   * `id` the id of the report the viewer shows.
   */
  datatype Event = Shell(action: Action) | VideoHandOff(current: AuditResult, id: string, url: string)

  /** As the code does it: the hand-off rewrites the storage cell and leaves the shell's list alone. */
  function Deliver(sys: System, e: Event): (sys': System)
    ensures e.Shell? ==> sys' == Dispatch(sys, e.action)
    ensures e.VideoHandOff? ==> sys'.state == sys.state
    ensures e.VideoHandOff? && sys.stored.Written? && IndexOfId(sys.stored.list, e.id) >= 0 ==>
      sys'.stored == Written(Viewing.ReplaceFirst(sys.stored.list, e.id, e.current.(videoUrl := Some(e.url))))
  {
    match e
    case Shell(a) => Dispatch(sys, a)
    case VideoHandOff(current, id, url) => System(sys.state, Viewing.VideoGenerated(current, id, sys.stored, url).stored)
  }

  /**
   * The stored video URL is lost at the shell's next write: after the
   * hand-off for `a` the cell no longer mirrors the list, and deleting the
   * other report then writes the shell's list, which never saw the URL.
   */
  lemma VideoUrlLostOnNextPersist(a: AuditResult, b: AuditResult, url: string)
    requires a.id != b.id && a.videoUrl != Some(url)
    ensures var handed := Deliver(Mount(Written([a, b])), VideoHandOff(a, a.id, url));
      && handed.stored == Written([a.(videoUrl := Some(url)), b])
      && !Synced(handed)
      && Deliver(handed, Shell(Delete(b.id))).stored == Written([a])
  {
    var list := [a, b];
    assert IndexOfId(list, a.id) == 0;
    assert Viewing.ReplaceFirst(list, a.id, a.(videoUrl := Some(url))) == [a.(videoUrl := Some(url)), b];
    assert RemoveId(list, b.id) == [a] by {
      assert list[1..] == [b];
      assert RemoveId([b], b.id) == [];
    }
  }

  /**
   * The hand-off as intended: the updated report replaces the shell's own
   * entry, and the shell's persist effect writes the new list.
   */
  function DeliverFixed(sys: System, e: Event): (sys': System)
    ensures e.Shell? ==> sys' == Dispatch(sys, e.action)
    ensures Synced(sys) ==> Synced(sys')
    ensures e.VideoHandOff? ==> var k := IndexOfId(sys.state.audits, e.id);
      && sys'.state.(audits := sys.state.audits) == sys.state
      && |sys'.state.audits| == |sys.state.audits|
      && (k >= 0 ==> sys'.state.audits[k] == e.current.(videoUrl := Some(e.url)))
      && (forall i :: 0 <= i < |sys.state.audits| && i != k ==> sys'.state.audits[i] == sys.state.audits[i])
  {
    match e
    case Shell(a) => Dispatch(sys, a)
    case VideoHandOff(current, id, url) =>
      if IndexOfId(sys.state.audits, id) == -1 then sys
      else
        var audits := Viewing.ReplaceFirst(sys.state.audits, id, current.(videoUrl := Some(url)));
        System(sys.state.(audits := audits), Written(audits))
  }

  /** With the intended hand-off, the example above keeps the video URL in storage. */
  lemma FixedHandOffKeepsVideo(a: AuditResult, b: AuditResult, url: string)
    requires a.id != b.id
    ensures var handed := DeliverFixed(Mount(Written([a, b])), VideoHandOff(a, a.id, url));
      && Synced(handed)
      && DeliverFixed(handed, Shell(Delete(b.id))).stored == Written([a.(videoUrl := Some(url))])
  {
    var a' := a.(videoUrl := Some(url));
    assert IndexOfId([a, b], a.id) == 0;
    var handed := DeliverFixed(Mount(Written([a, b])), VideoHandOff(a, a.id, url));
    assert handed.state.audits == [a', b];
    assert RemoveId([a', b], b.id) == [a'] by {
      assert [a', b][1..] == [b];
      assert RemoveId([b], b.id) == [];
    }
  }

  /**
   * With the intended hand-off, the video URL outlives the deletion of any
   * other report: the stored list still finds the updated report by its id.
   */
  lemma FixedVideoSurvivesDelete(sys: System, current: AuditResult, url: string, other: string)
    requires Synced(sys) && IndexOfId(sys.state.audits, current.id) >= 0 && other != current.id
    ensures var after := DeliverFixed(DeliverFixed(sys, VideoHandOff(current, current.id, url)), Shell(Delete(other)));
      && Synced(after)
      && FindById(after.stored.list, current.id) == Some(current.(videoUrl := Some(url)))
  {
    var updated := current.(videoUrl := Some(url));
    var audits := Viewing.ReplaceFirst(sys.state.audits, current.id, updated);
    var handed := DeliverFixed(sys, VideoHandOff(current, current.id, url));
    assert handed.state.audits == audits;
    assert DeliverFixed(handed, Shell(Delete(other))).stored == Written(RemoveId(audits, other));
    FindReplaced(sys.state.audits, updated);
    FindAfterRemove(audits, other, current.id);
  }

  /** After replacing the first report with an id, lookups of that id find the replacement. */
  lemma FindReplaced(list: seq<AuditResult>, updated: AuditResult)
    requires IndexOfId(list, updated.id) >= 0
    ensures FindById(Viewing.ReplaceFirst(list, updated.id, updated), updated.id) == Some(updated)
  {
    var r := Viewing.ReplaceFirst(list, updated.id, updated);
    assert IndexOfId(r, updated.id) == IndexOfId(list, updated.id);
  }

  /** Start-up followed by any run of events, with the intended hand-off. */
  function RunFixed(stored: Blob, events: seq<Event>): System {
    if |events| == 0 then Mount(stored)
    else DeliverFixed(RunFixed(stored, events[..|events| - 1]), events[|events| - 1])
  }

  /** With the intended hand-off the storage cell mirrors the list after any run of events. */
  lemma {:induction false} RunFixedSynced(stored: Blob, events: seq<Event>)
    ensures Synced(RunFixed(stored, events))
  {
    if |events| > 0 {
      RunFixedSynced(stored, events[..|events| - 1]);
    }
  }
}
