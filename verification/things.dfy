/**
 * The things a list can show: pull requests and the random provider's
 * placeholder rows, each with a table header, a row and a details action.
 */
module Things {
  import opened Wrappers
  import opened Orderings
  import opened Actions
  import PullRequests

  datatype Thing =
    | PullRequestThing(pr: PullRequests.PullRequest)
    | RandomThing

  const RANDOM_HEADER: seq<string> := ["Header 1", "Header 2", "Header 3"]
  const RANDOM_ROW: seq<string> := ["herp", "derp", "flerp"]
  const MISMATCH: string := "Cannot compare PullRequest with different Thing type"

  function Header(t: Thing): (r: seq<string>)
    ensures t.PullRequestThing? ==> |r| == PullRequests.COLUMN_COUNT_SORTABLE + 1
    ensures t.RandomThing? ==> |r| == |RANDOM_ROW|
  {
    match t
    case PullRequestThing(_) => PullRequests.Header()
    case RandomThing => RANDOM_HEADER
  }

  function Row(t: Thing): (r: seq<PullRequests.Cell>)
    ensures |r| == |Header(t)|
  {
    match t
    case PullRequestThing(pr) => PullRequests.Row(pr)
    case RandomThing => [PullRequests.TextCell(RANDOM_ROW[0]), PullRequests.TextCell(RANDOM_ROW[1]), PullRequests.TextCell(RANDOM_ROW[2])]
  }

  /** Every thing's header has one title per cell of its row. */
  lemma HeaderFitsRow(t: Thing)
    ensures |Header(t)| == |Row(t)|
    ensures t.RandomThing? ==> forall k :: 0 <= k < |Row(t)| ==> Row(t)[k] == PullRequests.TextCell(RANDOM_ROW[k])
  {
    if t.PullRequestThing? {
      PullRequests.RowMatchesHeader(t.pr);
    }
  }

  /** `details`: a pull request's is `todo!()`; a random thing has none. */
  function Details(t: Thing): (r: Outcome)
    ensures r.Panic? <==> t.PullRequestThing?
    ensures r.Done? ==> r.next == None
  {
    match t
    case PullRequestThing(_) => Panic(NOT_IMPLEMENTED)
    case RandomThing => Done(None)
  }

  /** A pull request's `cmp_by_column_index`; `None` is the panic on a thing of another kind. */
  function CmpByColumnIndex(self: PullRequests.PullRequest, other: Thing, index: nat): (r: Option<Ordering>)
    ensures r.None? <==> !other.PullRequestThing?
  {
    match other
    case PullRequestThing(pr) => Some(PullRequests.CmpByColumn(self, pr, index))
    case RandomThing => None
  }

  /** Between two pull requests the comparison is antisymmetric and reflexive on every column. */
  lemma CmpByColumnIndexAntisymmetric(a: PullRequests.PullRequest, b: PullRequests.PullRequest, index: nat)
    ensures CmpByColumnIndex(b, PullRequestThing(a), index).Some?
    ensures CmpByColumnIndex(b, PullRequestThing(a), index).value == CmpByColumnIndex(a, PullRequestThing(b), index).value.Reverse()
    ensures CmpByColumnIndex(a, PullRequestThing(a), index) == Some(Equal)
  {
    PullRequests.CmpByColumnReverse(a, b, index);
    PullRequests.CmpByColumnReflexive(a, index);
  }
}
