/** The details overlay of one pull request: it only scrolls. */
module InfoOverlays {
  import opened Wrappers
  import opened Saturating
  import opened Actions
  import opened PullRequests
  import opened Channels

  /** Rows moved by `PageUp` / `PageDn`. */
  const PAGE: nat := 10

  /** The scroll offset after `update(a)`. */
  function Scroll(offset: U16, a: Action): (r: U16)
    ensures a == Up ==> r == SaturatingSub(offset, 1)
    ensures a == PageUp ==> r == SaturatingSub(offset, PAGE)
    ensures a == Down ==> r == SaturatingAdd(offset, 1, U16_MAX)
    ensures a == PageDn ==> r == SaturatingAdd(offset, PAGE, U16_MAX)
    ensures a != Up && a != PageUp && a != Down && a != PageDn ==> r == offset
  {
    match a
    case Up => SaturatingSub(offset, 1)
    case Down => SaturatingAdd(offset, 1, U16_MAX)
    case PageUp => SaturatingSub(offset, PAGE)
    case PageDn => SaturatingAdd(offset, PAGE, U16_MAX)
    case _ => offset
  }

  /** Scrolling up never passes the top and scrolling down never passes 65535. */
  lemma ScrollStaysInRange(offset: U16, a: Action)
    ensures 0 <= Scroll(offset, a) <= U16_MAX
    ensures (a == Up || a == PageUp) ==> Scroll(offset, a) <= offset
    ensures (a == Down || a == PageDn) ==> offset <= Scroll(offset, a)
    ensures offset == 0 && (a == Up || a == PageUp) ==> Scroll(offset, a) == 0
    ensures offset == U16_MAX && (a == Down || a == PageDn) ==> Scroll(offset, a) == U16_MAX
  {
  }

  /** A page down followed by a page up returns to the same place unless the bottom was hit. */
  lemma PageDownThenUpReturns(offset: U16)
    requires offset + PAGE <= U16_MAX
    ensures Scroll(Scroll(offset, PageDn), PageUp) == offset
  {
  }

  /** A line down followed by a line up returns to the same place unless the bottom was hit. */
  lemma DownThenUpReturns(offset: U16)
    requires offset < U16_MAX
    ensures Scroll(Scroll(offset, Down), Up) == offset
  {
  }

  class PullRequestInfoOverlay {
    var commandTx: ActionChannel?
    var pullRequest: Option<PullRequest>
    var scrollOffset: U16

    /** `PullRequestInfoOverlay::new()` (the derived default). */
    constructor ()
      ensures commandTx == null && pullRequest == None && scrollOffset == 0
    {
      commandTx := null;
      pullRequest := None;
      scrollOffset := 0;
    }

    /** `PullRequestInfoOverlay::new().with_pull_request(pr)`. */
    constructor WithPullRequest(pr: PullRequest)
      ensures commandTx == null && pullRequest == Some(pr) && scrollOffset == 0
    {
      commandTx := null;
      pullRequest := Some(pr);
      scrollOffset := 0;
    }

    method RegisterActionHandler(tx: ActionChannel)
      modifies this
      ensures commandTx == tx && pullRequest == old(pullRequest) && scrollOffset == old(scrollOffset)
    {
      commandTx := tx;
    }

    /** `update`: only the scroll offset moves, and the answer is always `None`. */
    method Update(a: Action) returns (r: Option<Action>)
      modifies this
      ensures r == None
      ensures scrollOffset == Scroll(old(scrollOffset), a)
      ensures pullRequest == old(pullRequest) && commandTx == old(commandTx)
    {
      match a {
        case Up => scrollOffset := SaturatingSub(scrollOffset, 1);
        case Down => scrollOffset := SaturatingAdd(scrollOffset, 1, U16_MAX);
        case PageUp => scrollOffset := SaturatingSub(scrollOffset, PAGE);
        case PageDn => scrollOffset := SaturatingAdd(scrollOffset, PAGE, U16_MAX);
        case _ =>
      }
      r := None;
    }
  }
}
