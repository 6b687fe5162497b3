/**
 * Moving a selection down a list of `len` rows:
 * `min(selected_row + 1, len - 1)` on `usize`.
 */
module Navigation {
  import opened Wrappers
  import opened Saturating

  /**
   * The expression as written, with debug-build overflow checks: None
   * (a panic) when `len - 1` underflows on an empty list, or when
   * `selected_row + 1` overflows.
   */
  function ClampedDownAsWritten(row: USize, len: nat): (r: Option<USize>)
    ensures r.None? <==> len == 0 || row == USIZE_MAX
    ensures r.Some? ==> r.value < len && (r.value == row + 1 || r.value == len - 1)
  {
    if len == 0 || row == USIZE_MAX then None
    else if row + 1 < len - 1 then Some(row + 1)
    else Some(len - 1)
  }

  /** Down on a list that is present but empty panics whatever the selected row. */
  lemma DownOnEmptyListPanics(row: USize)
    ensures ClampedDownAsWritten(row, 0) == None
  {
  }

  /**
   * The evidently intended step, `min(row.saturating_add(1), len.saturating_sub(1))`:
   * one row further, but never past the last row, and row 0 on an empty list.
   */
  function ClampedDown(row: USize, len: nat): (r: USize)
    ensures len == 0 ==> r == 0
    ensures len > 0 ==> r < len
    ensures row + 1 < len && row < USIZE_MAX ==> r == row + 1
    ensures 0 < len <= row + 1 ==> r == len - 1
  {
    var next := SaturatingAdd(row, 1, USIZE_MAX);
    var last := SaturatingSub(len, 1);
    if next < last then next else last
  }

  /** Wherever the original does not panic, the corrected step agrees with it. */
  lemma ClampedDownAgrees(row: USize, len: nat)
    requires len > 0 && row < USIZE_MAX
    ensures ClampedDownAsWritten(row, len) == Some(ClampedDown(row, len))
  {
  }

  /** Moving down and back up returns to the row one started from, unless the last row was already selected. */
  lemma DownThenUpReturns(row: USize, len: nat)
    requires row + 1 < len && row < USIZE_MAX
    ensures SaturatingSub(ClampedDown(row, len), 1) == row
  {
  }

  /** A selection inside the list stays inside the list when it moves down. */
  lemma DownKeepsSelectionInList(row: USize, len: nat)
    requires row < len
    ensures ClampedDown(row, len) < len
    ensures row <= ClampedDown(row, len) <= row + 1
  {
  }
}
