/**
 * The pull-request table: a selected row and column over an optional list,
 * the signed-in user's name, and the details overlay it can toggle.
 *
 * Background requests the component spawns are recorded as `Task`s; what
 * they later send back arrives as ordinary actions
 * (`GetCurrentUserResult`, `GetReposResult`, `Error`, `Refresh`).
 */
module PullRequestLists {
  import opened Wrappers
  import opened Saturating
  import opened Actions
  import opened PullRequests
  import opened Sorting
  import opened Navigation
  import opened InfoOverlays
  import opened Channels

  /** The background work `tokio::spawn` is given. */
  datatype Task =
    | FetchCurrentUser              // `get_current_user`'s request
    | FetchPullRequests(username: string)  // `fetch_repos`'s request (it asks for the user first when the name is empty)
    | RefreshAfterDelay             // `refresh`'s one-second timer that sends `Refresh`

  datatype OverlayState = OverlayState(pullRequest: Option<PullRequest>, scrollOffset: U16)

  datatype ListState = ListState(
    selectedRow: USize,
    pullRequests: Option<seq<PullRequest>>,
    username: string,
    showInfoOverlay: bool,
    selectedColumn: USize,
    overlay: OverlayState)

  /** `PullRequestList::new()`: everything at its default. */
  const INITIAL: ListState := ListState(0, None, "", false, 0, OverlayState(None, 0))

  /** What one `update` does: the new state, its answer, what it sends and what it spawns. */
  datatype Step = Step(state: ListState, outcome: Outcome, actions: seq<Action>, tasks: seq<Task>)

  const GETTING_USER: string := "Getting current user..."
  const FETCHING: string := "Fetching pull requests..."

  /** `sort_pull_requests`: a stable sort by the selected column; no list stays no list. */
  function SortedList(l: Option<seq<PullRequest>>, column: nat): (r: Option<seq<PullRequest>>)
    ensures l.None? <==> r.None?
    ensures r.Some? ==> multiset(r.value) == multiset(l.value) && SortedBy(r.value, column)
  {
    match l
    case None => None
    case Some(s) =>
      SortByColumnCorrect(s, column);
      Some(SortByColumn(s, column))
  }

  /** `get_current_user` (its sender unwrapped). */
  function GetCurrentUserStep(s: ListState): (r: Step)
    ensures r.state == s && r.outcome == Done(None)
    ensures r.actions == [Notify(Notification.Info(GETTING_USER))] && r.tasks == [FetchCurrentUser]
  {
    Step(s, Done(None), [Notify(Notification.Info(GETTING_USER))], [FetchCurrentUser])
  }

  /** `refresh`: ask who the user is and retry in a second, or fetch that user's pull requests. */
  function RefreshStep(s: ListState, hasSender: bool): (r: Step)
    ensures !hasSender <==> r.outcome == Panic(UNWRAP_NONE)
    ensures r.state == s
    ensures hasSender && s.username == "" ==> r.tasks == [FetchCurrentUser, RefreshAfterDelay]
    ensures hasSender && s.username != "" ==>
      r.actions == [Notify(Notification.Info(FETCHING))] && r.tasks == [FetchPullRequests(s.username)]
  {
    if !hasSender then Step(s, Panic(UNWRAP_NONE), [], [])
    else if s.username == "" then
      var user := GetCurrentUserStep(s);
      user.(tasks := user.tasks + [RefreshAfterDelay])
    else Step(s, Done(None), [Notify(Notification.Info(FETCHING))], [FetchPullRequests(s.username)])
  }

  function Unchanged(s: ListState): (r: Step) {
    Step(s, Done(None), [], [])
  }

  /** The first `match` of `update`, taken while the overlay is hidden. */
  function NavigateStep(s: ListState, a: Action, hasSender: bool): (r: Step)
    ensures r.state.showInfoOverlay == s.showInfoOverlay && r.state.overlay == s.overlay
    ensures !a.Up? && !a.Down? ==> r.outcome == Done(None) || r.outcome.Panic?
  {
    if a.Up? || a.Down? then MoveStep(s, a)
    else if a.Left? || a.Right? then ColumnStep(s, a)
    else if a.Refresh? || a.GetCurrentUser? then RequestStep(s, a, hasSender)
    else StoreStep(s, a)
  }

  /** The Up and Down arms. */
  function MoveStep(s: ListState, a: Action): (r: Step)
    requires a.Up? || a.Down?
    ensures r.actions == [] && r.tasks == [] && r.state == s.(selectedRow := r.state.selectedRow)
    ensures a.Up? || s.pullRequests.Some? ==> r.outcome == Done(Some(Render))
    ensures a.Down? && s.pullRequests.None? ==> r.state == s && r.outcome == Done(None)
  {
    if a.Up? then Step(s.(selectedRow := SaturatingSub(s.selectedRow, 1)), Done(Some(Render)), [], [])
    else if s.pullRequests.Some? then
      Step(s.(selectedRow := ClampedDown(s.selectedRow, |s.pullRequests.value|)), Done(Some(Render)), [], [])
    else Unchanged(s)
  }

  /** The Left and Right arms: move the column, then sort by it. */
  function ColumnStep(s: ListState, a: Action): (r: Step)
    requires a.Left? || a.Right?
    ensures r.outcome == Done(None) && r.actions == [] && r.tasks == []
    ensures r.state == s.(selectedColumn := r.state.selectedColumn, pullRequests := SortedList(s.pullRequests, r.state.selectedColumn))
    ensures a.Left? ==> r.state.selectedColumn <= s.selectedColumn
    ensures a.Right? ==> r.state.selectedColumn >= s.selectedColumn
  {
    var column := if a.Left? then SaturatingSub(s.selectedColumn, 1) else SaturatingAdd(s.selectedColumn, 1, USIZE_MAX);
    Unchanged(s.(selectedColumn := column, pullRequests := SortedList(s.pullRequests, column)))
  }

  /** The Refresh and GetCurrentUser arms, which unwrap the sender. */
  function RequestStep(s: ListState, a: Action, hasSender: bool): (r: Step)
    requires a.Refresh? || a.GetCurrentUser?
    ensures r.state == s
    ensures r.outcome.Panic? <==> !hasSender
  {
    if a.Refresh? then RefreshStep(s, hasSender)
    else if hasSender then GetCurrentUserStep(s)
    else Step(s, Panic(UNWRAP_NONE), [], [])
  }

  /** The remaining arms: store a result, reach `todo!()`, or do nothing (Tick, Open and the rest). */
  function StoreStep(s: ListState, a: Action): (r: Step)
    ensures r.actions == [] && r.tasks == []
    ensures r.outcome.Panic? <==> a.Sort?
    ensures !a.GetReposResult? && !a.GetCurrentUserResult? ==> r.state == s
    ensures r.state.selectedRow == s.selectedRow && r.state.selectedColumn == s.selectedColumn
  {
    match a
    case GetReposResult(v) => Unchanged(s.(pullRequests := Some(v)))
    case GetCurrentUserResult(u) => Unchanged(s.(username := u))
    case Sort(_) => Step(s, Panic(NOT_IMPLEMENTED), [], [])
    case _ => Unchanged(s)
  }

  /** The pull request under the cursor, `pull_requests.get(selected_row)`. */
  function Selected(s: ListState): (r: Option<PullRequest>)
    ensures r.Some? <==> s.pullRequests.Some? && s.selectedRow < |s.pullRequests.value|
    ensures r.Some? ==> r.value == s.pullRequests.value[s.selectedRow]
  {
    if s.pullRequests.Some? && s.selectedRow < |s.pullRequests.value| then Some(s.pullRequests.value[s.selectedRow])
    else None
  }

  /** The second `match` of `update`: Info/Enter toggle a fresh overlay on the selected pull request; Escape/Back close it. */
  function ToggleOverlay(s: ListState, a: Action): (r: ListState)
    ensures r.selectedRow == s.selectedRow && r.pullRequests == s.pullRequests
    ensures r.username == s.username && r.selectedColumn == s.selectedColumn
  {
    match a
    case Info => ShowSelectedState(s)
    case Enter => ShowSelectedState(s)
    case Escape => s.(showInfoOverlay := false)
    case Back => s.(showInfoOverlay := false)
    case _ => s
  }

  function ShowSelectedState(s: ListState): (r: ListState)
    ensures Selected(s).None? ==> r == s
    ensures Selected(s).Some? ==> r == s.(overlay := OverlayState(Selected(s), 0), showInfoOverlay := !s.showInfoOverlay)
  {
    match Selected(s)
    case None => s
    case Some(pr) => s.(overlay := OverlayState(Some(pr), 0), showInfoOverlay := !s.showInfoOverlay)
  }

  /** `PullRequestList::update`; `hasSender` says whether an action sender was registered. */
  function UpdateStep(s: ListState, a: Action, hasSender: bool): (r: Step)
    ensures s.showInfoOverlay ==> r.outcome == Done(None) && r.actions == [] && r.tasks == []
    ensures !s.showInfoOverlay ==> r.outcome == NavigateStep(s, a, hasSender).outcome
    ensures !s.showInfoOverlay ==> r.actions == NavigateStep(s, a, hasSender).actions && r.tasks == NavigateStep(s, a, hasSender).tasks
  {
    if s.showInfoOverlay then OverlayStep(s, a) else ListStep(s, a, hasSender)
  }

  /** While the overlay is shown, the action scrolls it and then reaches the second `match`. */
  function OverlayStep(s: ListState, a: Action): (r: Step)
    ensures r.outcome == Done(None) && r.actions == [] && r.tasks == []
    ensures r.state.selectedRow == s.selectedRow && r.state.pullRequests == s.pullRequests
  {
    var scrolled := s.(overlay := s.overlay.(scrollOffset := Scroll(s.overlay.scrollOffset, a)));
    Unchanged(ToggleOverlay(scrolled, a))
  }

  /** While the overlay is hidden, the first `match` and then the second. */
  function ListStep(s: ListState, a: Action, hasSender: bool): (r: Step)
    ensures r.outcome == NavigateStep(s, a, hasSender).outcome
    ensures r.actions == NavigateStep(s, a, hasSender).actions && r.tasks == NavigateStep(s, a, hasSender).tasks
  {
    var n := NavigateStep(s, a, hasSender);
    // Up and Down return before the second match (which ignores them anyway); a panic ends the call
    if n.outcome.Panic? || a.Up? || a.Down? then n
    else n.(state := ToggleOverlay(n.state, a))
  }

  // ---------------------------------------------------------------------
  // Properties of the list
  // ---------------------------------------------------------------------

  /** The selection is on a row of the list (or the list is absent or empty and row 0 is selected). */
  predicate SelectionInRange(s: ListState) {
    s.pullRequests.Some? ==> s.selectedRow < |s.pullRequests.value| || (s.pullRequests.value == [] && s.selectedRow == 0)
  }

  /** Up moves one row towards the top, stopping there, and asks for a redraw; nothing else changes. */
  lemma UpMovesTowardsTop(s: ListState, hasSender: bool)
    requires !s.showInfoOverlay
    ensures UpdateStep(s, Up, hasSender) == Step(s.(selectedRow := SaturatingSub(s.selectedRow, 1)), Done(Some(Render)), [], [])
  {
  }

  /** Down moves one row towards the bottom, stopping at the last row; with no list it does nothing at all. */
  lemma DownMovesTowardsBottom(s: ListState, hasSender: bool)
    requires !s.showInfoOverlay
    ensures var r := UpdateStep(s, Down, hasSender);
      && (s.pullRequests.None? ==> r == Unchanged(s))
      && (s.pullRequests.Some? ==>
            r.outcome == Done(Some(Render)) && r.actions == [] && r.tasks == []
            && r.state == s.(selectedRow := r.state.selectedRow)
            && (|s.pullRequests.value| > 0 ==> r.state.selectedRow < |s.pullRequests.value|)
            && (s.selectedRow + 1 < |s.pullRequests.value| && s.selectedRow < USIZE_MAX ==> r.state.selectedRow == s.selectedRow + 1))
  {
  }

  /**
   * Down against the expression as written: wherever `min(selected_row + 1, len - 1)`
   * does not panic, the model selects the row it computes; where it panics (an
   * empty list, or a row at `usize::MAX`) the model takes the corrected step and
   * answers Render with row 0 on the empty list.
   */
  lemma DownAgainstSource(s: ListState, hasSender: bool)
    requires !s.showInfoOverlay && s.pullRequests.Some?
    ensures var r := UpdateStep(s, Down, hasSender);
      var asWritten := ClampedDownAsWritten(s.selectedRow, |s.pullRequests.value|);
      && r.outcome == Done(Some(Render))
      && (asWritten.Some? ==> r.state.selectedRow == asWritten.value)
      && (asWritten.None? <==> s.pullRequests.value == [] || s.selectedRow == USIZE_MAX)
      && (s.pullRequests.value == [] ==> r.state.selectedRow == 0)
  {
    var len := |s.pullRequests.value|;
    assert UpdateStep(s, Down, hasSender) == MoveStep(s, Down);
    if len > 0 && s.selectedRow < USIZE_MAX {
      ClampedDownAgrees(s.selectedRow, len);
    }
  }

  /** Up and Down keep the selection on a row of the list. */
  lemma NavigationKeepsSelectionInRange(s: ListState, a: Action, hasSender: bool)
    requires SelectionInRange(s) && (a.Up? || a.Down?)
    ensures SelectionInRange(UpdateStep(s, a, hasSender).state)
  {
  }

  /** Left and Right move the sort column (saturating) and leave the list a stable, sorted permutation of itself. */
  lemma ColumnChangeSorts(s: ListState, a: Action, hasSender: bool)
    requires !s.showInfoOverlay && (a.Left? || a.Right?)
    ensures var r := UpdateStep(s, a, hasSender);
      var column := r.state.selectedColumn;
      && r.outcome == Done(None) && r.actions == [] && r.tasks == []
      && column == (if a.Left? then SaturatingSub(s.selectedColumn, 1) else SaturatingAdd(s.selectedColumn, 1, USIZE_MAX))
      && r.state == s.(selectedColumn := column, pullRequests := r.state.pullRequests)
      && (s.pullRequests.None? <==> r.state.pullRequests.None?)
      && (s.pullRequests.Some? ==>
            multiset(r.state.pullRequests.value) == multiset(s.pullRequests.value)
            && SortedBy(r.state.pullRequests.value, column)
            && SameOrderAmongEquals(r.state.pullRequests.value, s.pullRequests.value, column))
  {
    if s.pullRequests.Some? {
      var column := UpdateStep(s, a, hasSender).state.selectedColumn;
      SortByColumnCorrect(s.pullRequests.value, column);
    }
  }

  /** While the overlay is shown the list's own state is frozen: only the overlay scrolls or closes. */
  lemma OverlayShownFreezesList(s: ListState, a: Action, hasSender: bool)
    requires s.showInfoOverlay
    ensures var r := UpdateStep(s, a, hasSender);
      && r.outcome == Done(None) && r.actions == [] && r.tasks == []
      && r.state.selectedRow == s.selectedRow && r.state.pullRequests == s.pullRequests
      && r.state.username == s.username && r.state.selectedColumn == s.selectedColumn
      && (!a.Info? && !a.Enter? ==> r.state.overlay.pullRequest == s.overlay.pullRequest)
  {
  }

  /** Info (or Enter) twice on the same selection opens the overlay and closes it again. */
  lemma InfoTwiceRestoresVisibility(s: ListState, hasSender: bool)
    requires !s.showInfoOverlay && Selected(s).Some?
    ensures var shown := UpdateStep(s, Action.Info, hasSender).state;
      && shown.showInfoOverlay && shown.overlay == OverlayState(Selected(s), 0)
      && !UpdateStep(shown, Action.Info, hasSender).state.showInfoOverlay
  {
    var shown := UpdateStep(s, Action.Info, hasSender).state;
    assert Selected(shown) == Selected(s);
  }

  /** Info opens nothing when no pull request is selected. */
  lemma InfoWithoutSelectionDoesNothing(s: ListState, hasSender: bool)
    requires Selected(s).None? && !s.showInfoOverlay
    ensures UpdateStep(s, Action.Info, hasSender) == Unchanged(s)
  {
  }

  /** Escape and Back always close the overlay. */
  lemma EscapeCloses(s: ListState, a: Action, hasSender: bool)
    requires a.Escape? || a.Back?
    ensures !UpdateStep(s, a, hasSender).state.showInfoOverlay
  {
  }

  /** Results replace the list or the user name; nothing else changes. */
  lemma ResultsReplace(s: ListState, v: seq<PullRequest>, u: string, hasSender: bool)
    requires !s.showInfoOverlay
    ensures UpdateStep(s, GetReposResult(v), hasSender) == Unchanged(s.(pullRequests := Some(v)))
    ensures UpdateStep(s, GetCurrentUserResult(u), hasSender) == Unchanged(s.(username := u))
  {
  }

  /**
   * Refresh without a known user asks for it and schedules another refresh;
   * with a user it fetches that user's pull requests; without a sender it
   * panics. The state itself never changes.
   */
  lemma RefreshRequests(s: ListState, hasSender: bool)
    requires !s.showInfoOverlay
    ensures var r := UpdateStep(s, Refresh, hasSender);
      && r.state == s
      && (!hasSender ==> r.outcome == Panic(UNWRAP_NONE))
      && (hasSender && s.username == "" ==>
            r.actions == [Notify(Notification.Info(GETTING_USER))] && r.tasks == [FetchCurrentUser, RefreshAfterDelay])
      && (hasSender && s.username != "" ==>
            r.actions == [Notify(Notification.Info(FETCHING))] && r.tasks == [FetchPullRequests(s.username)])
  {
  }

  /** `Sort(_)` reaches `todo!()`. */
  lemma SortIsUnimplemented(s: ListState, column: nat, hasSender: bool)
    requires !s.showInfoOverlay
    ensures UpdateStep(s, Sort(column), hasSender).outcome == Panic(NOT_IMPLEMENTED)
  {
  }

  /** `update` never answers with anything but `Render` (for Up and Down) or nothing. */
  lemma AnswerIsRenderOrNothing(s: ListState, a: Action, hasSender: bool)
    ensures var o := UpdateStep(s, a, hasSender).outcome;
      o.Done? ==> (o.next == None || (o.next == Some(Render) && (a.Up? || a.Down?) && !s.showInfoOverlay))
  {
    if !s.showInfoOverlay {
      var n := NavigateStep(s, a, hasSender);
      if a.Up? || a.Down? {
        assert n == MoveStep(s, a);
      } else if a.Left? || a.Right? {
        assert n.outcome == Done(None);
      } else if a.Refresh? || a.GetCurrentUser? {
        assert n == RequestStep(s, a, hasSender);
      } else {
        assert n == StoreStep(s, a);
      }
    }
  }

  // ---------------------------------------------------------------------
  // The component
  // ---------------------------------------------------------------------

  class PullRequestList {
    var commandTx: ActionChannel?
    var selectedRow: USize
    var pullRequests: Option<seq<PullRequest>>
    var username: string
    var showInfoOverlay: bool
    var infoOverlay: PullRequestInfoOverlay
    var selectedColumn: USize
    /** Everything spawned so far, oldest first. */
    var tasks: seq<Task>

    function State(): (r: ListState)
      reads this, infoOverlay
    {
      ListState(selectedRow, pullRequests, username, showInfoOverlay, selectedColumn,
                OverlayState(infoOverlay.pullRequest, infoOverlay.scrollOffset))
    }

    constructor ()
      ensures State() == INITIAL && commandTx == null && tasks == [] && fresh(infoOverlay)
    {
      commandTx := null;
      selectedRow := 0;
      pullRequests := None;
      username := "";
      showInfoOverlay := false;
      infoOverlay := new PullRequestInfoOverlay();
      selectedColumn := 0;
      tasks := [];
    }

    /** `with_action_handler` / `register_action_handler`. */
    method RegisterActionHandler(tx: ActionChannel)
      modifies this
      ensures commandTx == tx && infoOverlay == old(infoOverlay) && tasks == old(tasks)
      ensures State() == old(State())
    {
      commandTx := tx;
    }

    method SortPullRequests()
      modifies this
      ensures pullRequests == SortedList(old(pullRequests), selectedColumn)
      ensures selectedRow == old(selectedRow) && username == old(username) && showInfoOverlay == old(showInfoOverlay)
      ensures selectedColumn == old(selectedColumn) && infoOverlay == old(infoOverlay)
      ensures commandTx == old(commandTx) && tasks == old(tasks)
    {
      if pullRequests.Some? {
        pullRequests := Some(SortByColumn(pullRequests.value, selectedColumn));
      }
    }

    method GetCurrentUser()
      requires commandTx != null
      modifies this, commandTx
      ensures commandTx == old(commandTx) && commandTx.queue == old(commandTx.queue) + GetCurrentUserStep(old(State())).actions
      ensures tasks == old(tasks) + GetCurrentUserStep(old(State())).tasks
      ensures State() == old(State()) && infoOverlay == old(infoOverlay)
    {
      var tx := commandTx;
      tx.Send(Notify(Notification.Info(GETTING_USER)));
      tasks := tasks + [FetchCurrentUser];
    }

    method FetchRepos()
      requires commandTx != null
      modifies this, commandTx
      ensures commandTx == old(commandTx)
      ensures commandTx.queue == old(commandTx.queue) + [Notify(Notification.Info(FETCHING))]
      ensures tasks == old(tasks) + [FetchPullRequests(username)]
      ensures State() == old(State()) && infoOverlay == old(infoOverlay)
    {
      var tx := commandTx;
      tx.Send(Notify(Notification.Info(FETCHING)));
      tasks := tasks + [FetchPullRequests(username)];
    }

    method Refresh() returns (outcome: Outcome)
      modifies this, commandTx
      ensures var step := RefreshStep(old(State()), old(commandTx) != null);
        && outcome == step.outcome
        && State() == old(State()) && infoOverlay == old(infoOverlay) && commandTx == old(commandTx)
        && (outcome.Done? ==> commandTx.queue == old(commandTx.queue) + step.actions && tasks == old(tasks) + step.tasks)
    {
      if commandTx == null {
        return Panic(UNWRAP_NONE);
      }
      if username == "" {
        GetCurrentUser();
        tasks := tasks + [RefreshAfterDelay];
      } else {
        FetchRepos();
      }
      outcome := Done(None);
    }

    method ShowSelected()
      modifies this
      ensures State() == ShowSelectedState(old(State()))
      ensures commandTx == old(commandTx) && tasks == old(tasks)
      ensures infoOverlay == old(infoOverlay) || fresh(infoOverlay)
    {
      if pullRequests.Some? && selectedRow < |pullRequests.value| {
        infoOverlay := new PullRequestInfoOverlay.WithPullRequest(pullRequests.value[selectedRow]);
        showInfoOverlay := !showInfoOverlay;
      }
    }

    /** The first `match` of `update`, with the overlay hidden. */
    method Navigate(a: Action) returns (outcome: Outcome)
      requires !showInfoOverlay
      modifies this, commandTx
      ensures var step := NavigateStep(old(State()), a, old(commandTx) != null);
        && outcome == step.outcome && commandTx == old(commandTx) && infoOverlay == old(infoOverlay)
        && (outcome.Done? ==>
              State() == step.state && tasks == old(tasks) + step.tasks
              && (commandTx != null ==> commandTx.queue == old(commandTx.queue) + step.actions)
              && (commandTx == null ==> step.actions == []))
    {
      if a.Up? || a.Down? {
        outcome := MoveSelection(a);
      } else if a.Left? || a.Right? {
        outcome := ChangeColumn(a);
      } else if a.Refresh? || a.GetCurrentUser? {
        outcome := Request(a);
      } else {
        outcome := Store(a);
      }
    }

    /** The Up and Down arms. */
    method MoveSelection(a: Action) returns (outcome: Outcome)
      requires a.Up? || a.Down?
      modifies this
      ensures var step := MoveStep(old(State()), a);
        && outcome == step.outcome && commandTx == old(commandTx) && infoOverlay == old(infoOverlay)
        && (outcome.Done? ==>
              State() == step.state && tasks == old(tasks) + step.tasks
              && (commandTx != null ==> commandTx.queue == old(commandTx.queue) + step.actions)
              && (commandTx == null ==> step.actions == []))
    {
      outcome := Done(None);
      if a.Up? {
        selectedRow := SaturatingSub(selectedRow, 1);
        outcome := Done(Some(Render));
      } else if pullRequests.Some? {
        selectedRow := ClampedDown(selectedRow, |pullRequests.value|);
        outcome := Done(Some(Render));
      }
    }

    /** The Left and Right arms: move the column, then sort by it. */
    method ChangeColumn(a: Action) returns (outcome: Outcome)
      requires a.Left? || a.Right?
      modifies this
      ensures var step := ColumnStep(old(State()), a);
        && outcome == step.outcome && commandTx == old(commandTx) && infoOverlay == old(infoOverlay)
        && (outcome.Done? ==>
              State() == step.state && tasks == old(tasks) + step.tasks
              && (commandTx != null ==> commandTx.queue == old(commandTx.queue) + step.actions)
              && (commandTx == null ==> step.actions == []))
    {
      if a.Left? {
        selectedColumn := SaturatingSub(selectedColumn, 1);
      } else {
        selectedColumn := SaturatingAdd(selectedColumn, 1, USIZE_MAX);
      }
      SortPullRequests();
      outcome := Done(None);
    }

    /** The Refresh and GetCurrentUser arms, which unwrap the sender. */
    method Request(a: Action) returns (outcome: Outcome)
      requires a.Refresh? || a.GetCurrentUser?
      modifies this, commandTx
      ensures var step := RequestStep(old(State()), a, old(commandTx) != null);
        && outcome == step.outcome && commandTx == old(commandTx) && infoOverlay == old(infoOverlay)
        && (outcome.Done? ==>
              State() == step.state && tasks == old(tasks) + step.tasks
              && (commandTx != null ==> commandTx.queue == old(commandTx.queue) + step.actions)
              && (commandTx == null ==> step.actions == []))
    {
      if a.Refresh? {
        outcome := Refresh();
      } else if commandTx == null {
        outcome := Panic(UNWRAP_NONE);
      } else {
        GetCurrentUser();
        outcome := Done(None);
      }
    }

    /** The remaining arms: store a result, reach `todo!()`, or do nothing. */
    method Store(a: Action) returns (outcome: Outcome)
      modifies this
      ensures var step := StoreStep(old(State()), a);
        && outcome == step.outcome && commandTx == old(commandTx) && infoOverlay == old(infoOverlay)
        && (outcome.Done? ==>
              State() == step.state && tasks == old(tasks) + step.tasks
              && (commandTx != null ==> commandTx.queue == old(commandTx.queue) + step.actions)
              && (commandTx == null ==> step.actions == []))
    {
      outcome := Done(None);
      match a {
        case GetReposResult(v) =>
          pullRequests := Some(v);
        case GetCurrentUserResult(u) =>
          username := u;
        case Sort(_) =>
          outcome := Panic(NOT_IMPLEMENTED);
        case _ =>
      }
    }

    /** The second `match` of `update`. */
    method Toggle(a: Action)
      modifies this
      ensures State() == ToggleOverlay(old(State()), a)
      ensures commandTx == old(commandTx) && tasks == old(tasks)
      ensures infoOverlay == old(infoOverlay) || fresh(infoOverlay)
    {
      match a {
        case Info => ShowSelected();
        case Enter => ShowSelected();
        case Escape => showInfoOverlay := false;
        case Back => showInfoOverlay := false;
        case _ =>
      }
    }

    /** `update`. */
    method Update(a: Action) returns (outcome: Outcome)
      modifies this, infoOverlay, commandTx
      ensures var step := UpdateStep(old(State()), a, old(commandTx) != null);
        && outcome == step.outcome && commandTx == old(commandTx)
        && (outcome.Done? ==>
              State() == step.state && tasks == old(tasks) + step.tasks
              && (commandTx != null ==> commandTx.queue == old(commandTx.queue) + step.actions)
              && (commandTx == null ==> step.actions == []))
    {
      if showInfoOverlay {
        UpdateOverlay(a);
        outcome := Done(None);
      } else {
        outcome := UpdateList(a);
      }
    }

    /** The overlay branch of `update`. */
    method UpdateOverlay(a: Action)
      requires showInfoOverlay
      modifies this, infoOverlay
      ensures State() == OverlayStep(old(State()), a).state
      ensures commandTx == old(commandTx) && tasks == old(tasks)
    {
      ghost var before := State();
      var ignored := infoOverlay.Update(a);
      assert State() == before.(overlay := before.overlay.(scrollOffset := Scroll(before.overlay.scrollOffset, a)));
      Toggle(a);
    }

    /** The list branch of `update`. */
    method UpdateList(a: Action) returns (outcome: Outcome)
      requires !showInfoOverlay
      modifies this, commandTx
      ensures var step := ListStep(old(State()), a, old(commandTx) != null);
        && outcome == step.outcome && commandTx == old(commandTx)
        && (outcome.Done? ==>
              State() == step.state && tasks == old(tasks) + step.tasks
              && (commandTx != null ==> commandTx.queue == old(commandTx.queue) + step.actions)
              && (commandTx == null ==> step.actions == []))
    {
      ghost var n := NavigateStep(State(), a, commandTx != null);
      outcome := Navigate(a);
      if outcome.Panic? || a.Up? || a.Down? {
        return;
      }
      assert State() == n.state;
      Toggle(a);
      outcome := Done(None);
    }
  }
}
