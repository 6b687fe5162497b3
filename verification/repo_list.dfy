/** The placeholder repository list: a selected row that Up and Down move without bound checks. */
module RepoLists {
  import opened Wrappers
  import opened Saturating
  import opened Actions
  import opened Channels

  /** `RepoList::update` on the selected row. */
  function UpdateRow(row: USize, a: Action): (r: (USize, Option<Action>))
    ensures a == Up ==> r == (SaturatingSub(row, 1), Some(Render))
    ensures a == Down ==> r.1 == Some(Render) && (row < USIZE_MAX ==> r.0 == row + 1) && (row == USIZE_MAX ==> r.0 == row)
    ensures a != Up && a != Down ==> r == (row, None)
  {
    match a
    case Up => (SaturatingSub(row, 1), Some(Render))
    case Down => (SaturatingAdd(row, 1, USIZE_MAX), Some(Render))
    case _ => (row, None)
  }

  /** Up undoes Down everywhere below the top of the range, and Down undoes Up above row 0. */
  lemma UpDownInverse(row: USize)
    ensures row < USIZE_MAX ==> UpdateRow(UpdateRow(row, Down).0, Up).0 == row
    ensures row > 0 ==> UpdateRow(UpdateRow(row, Up).0, Down).0 == row
  {
  }

  class RepoList {
    var commandTx: ActionChannel?
    var selectedRow: USize

    constructor ()
      ensures selectedRow == 0 && commandTx == null
    {
      commandTx := null;
      selectedRow := 0;
    }

    method RegisterActionHandler(tx: ActionChannel)
      modifies this
      ensures commandTx == tx && selectedRow == old(selectedRow)
    {
      commandTx := tx;
    }

    method Update(a: Action) returns (next: Option<Action>)
      modifies this
      ensures (selectedRow, next) == UpdateRow(old(selectedRow), a) && commandTx == old(commandTx)
    {
      match a {
        case Up =>
          selectedRow := SaturatingSub(selectedRow, 1);
          return Some(Render);
        case Down =>
          selectedRow := SaturatingAdd(selectedRow, 1, USIZE_MAX);
          return Some(Render);
        case _ =>
      }
      next := None;
    }
  }
}
