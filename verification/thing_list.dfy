/**
 * The generic list of things: a selected row and column over an optional
 * list. Sorting is `todo!()`, so changing the column panics.
 */
module ThingLists {
  import opened Wrappers
  import opened Saturating
  import opened Actions
  import opened Navigation
  import opened Things
  import opened Channels

  datatype ThingListState = ThingListState(
    selectedRow: USize,
    things: Option<seq<Thing>>,
    username: string,
    showInfoOverlay: bool,
    selectedColumn: USize)

  /** `ThingList::new()`: sorted by repository (column 1) by default. */
  const INITIAL: ThingListState := ThingListState(0, None, "", false, 1)

  datatype ThingStep = ThingStep(state: ThingListState, outcome: Outcome)

  /** `ThingList::update`. */
  function UpdateStep(s: ThingListState, a: Action): (r: ThingStep)
    ensures r.state.things == s.things && r.state.username == s.username && r.state.showInfoOverlay == s.showInfoOverlay
  {
    match a
    case Up => ThingStep(s.(selectedRow := SaturatingSub(s.selectedRow, 1)), Done(Some(Render)))
    case Down =>
      var row := if s.things.Some? then ClampedDown(s.selectedRow, |s.things.value|) else s.selectedRow;
      ThingStep(s.(selectedRow := row), Done(Some(Render)))
    case Left => ThingStep(s.(selectedColumn := SaturatingSub(s.selectedColumn, 1)), Panic(NOT_IMPLEMENTED))
    case Right => ThingStep(s.(selectedColumn := SaturatingAdd(s.selectedColumn, 1, USIZE_MAX)), Panic(NOT_IMPLEMENTED))
    case _ => ThingStep(s, Done(None))
  }

  /** The selected row is a row of the list, or row 0 of an empty one. */
  predicate SelectionInRange(s: ThingListState) {
    s.things.Some? ==> s.selectedRow < |s.things.value| || (s.things.value == [] && s.selectedRow == 0)
  }

  /** Up and Down always ask for a redraw, move by at most one row and keep the selection in range. */
  lemma NavigationRendersAndStaysInRange(s: ThingListState, a: Action)
    requires a == Up || a == Down
    ensures var r := UpdateStep(s, a);
      && r.outcome == Done(Some(Render))
      && r.state == s.(selectedRow := r.state.selectedRow)
      && (SelectionInRange(s) ==> SelectionInRange(r.state))
      && (a == Up ==> r.state.selectedRow == SaturatingSub(s.selectedRow, 1))
      && (a == Down && s.things.None? ==> r.state.selectedRow == s.selectedRow)
  {
  }

  /**
   * Down against the expression as written: wherever `min(selected_row + 1, len - 1)`
   * does not panic, the model selects the row it computes; where it panics (an
   * empty list, or a row at `usize::MAX`) the model takes the corrected step and
   * answers Render with row 0 on the empty list.
   */
  lemma DownAgainstSource(s: ThingListState)
    requires s.things.Some?
    ensures var r := UpdateStep(s, Down);
      var asWritten := ClampedDownAsWritten(s.selectedRow, |s.things.value|);
      && r.outcome == Done(Some(Render))
      && (asWritten.Some? ==> r.state.selectedRow == asWritten.value)
      && (asWritten.None? <==> s.things.value == [] || s.selectedRow == USIZE_MAX)
      && (s.things.value == [] ==> r.state.selectedRow == 0)
  {
    var len := |s.things.value|;
    if len > 0 && s.selectedRow < USIZE_MAX {
      ClampedDownAgrees(s.selectedRow, len);
    }
  }

  /** Down then Up on a list with a row below the selection comes back to it. */
  lemma DownThenUpRestores(s: ThingListState)
    requires s.things.Some? && s.selectedRow + 1 < |s.things.value| && s.selectedRow < USIZE_MAX
    ensures UpdateStep(UpdateStep(s, Down).state, Up).state == s
  {
    DownThenUpReturns(s.selectedRow, |s.things.value|);
  }

  /** Left and Right move the column and then reach the unimplemented sort. */
  lemma ColumnChangePanics(s: ThingListState, a: Action)
    requires a == Left || a == Right
    ensures UpdateStep(s, a).outcome == Panic(NOT_IMPLEMENTED)
    ensures UpdateStep(s, a).state.selectedRow == s.selectedRow
  {
  }

  /** Every other action changes nothing and answers nothing. */
  lemma OtherActionsAreIgnored(s: ThingListState, a: Action)
    requires a !in {Up, Down, Left, Right}
    ensures UpdateStep(s, a) == ThingStep(s, Done(None))
  {
  }

  class ThingList {
    var commandTx: ActionChannel?
    var selectedRow: USize
    var things: Option<seq<Thing>>
    var username: string
    var showInfoOverlay: bool
    var selectedColumn: USize

    function State(): (r: ThingListState)
      reads this
    {
      ThingListState(selectedRow, things, username, showInfoOverlay, selectedColumn)
    }

    constructor ()
      ensures State() == INITIAL && commandTx == null
    {
      commandTx := null;
      selectedRow := 0;
      things := None;
      username := "";
      showInfoOverlay := false;
      selectedColumn := 1;
    }

    method RegisterActionHandler(tx: ActionChannel)
      modifies this
      ensures commandTx == tx && State() == old(State())
    {
      commandTx := tx;
    }

    /** `set_things`. */
    method SetThings(v: seq<Thing>)
      modifies this
      ensures State() == old(State()).(things := Some(v)) && commandTx == old(commandTx)
    {
      things := Some(v);
    }

    method Update(a: Action) returns (outcome: Outcome)
      modifies this
      ensures State() == UpdateStep(old(State()), a).state && outcome == UpdateStep(old(State()), a).outcome
      ensures commandTx == old(commandTx)
    {
      match a {
        case Up =>
          selectedRow := SaturatingSub(selectedRow, 1);
          return Done(Some(Render));
        case Down =>
          if things.Some? {
            selectedRow := ClampedDown(selectedRow, |things.value|);
          }
          return Done(Some(Render));
        case Left =>
          selectedColumn := SaturatingSub(selectedColumn, 1);
          return Panic(NOT_IMPLEMENTED);
        case Right =>
          selectedColumn := SaturatingAdd(selectedColumn, 1, USIZE_MAX);
          return Panic(NOT_IMPLEMENTED);
        case _ =>
      }
      outcome := Done(None);
    }
  }
}
