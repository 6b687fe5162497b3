/**
 * The pull-request entity (src/things/pull_request.rs and the identical
 * struct in src/components/pull_request.rs): its fields, the conversions from
 * the GraphQL response types, identity on (repository, number), the total
 * order on that key, the per-column comparison used for sorting, the table
 * row and header, and the substring filter.
 */
module PullRequests {
  import opened Wrappers
  import opened Orderings
  import opened Text

  // ---------------------------------------------------------------------------
  // Enumerations and their conversions from the GraphQL enums
  // ---------------------------------------------------------------------------

  /** Declared in this order, so the derived `Ord` is Open < Closed < Merged. */
  datatype PullRequestState = Open | Closed | Merged

  datatype PullRequestReviewState = Approved | ChangesRequested | Commented | Dismissed | Pending

  /** `#[default]` variants (src/components/pull_request.rs). */
  const DEFAULT_STATE: PullRequestState := Open
  const DEFAULT_REVIEW_STATE: PullRequestReviewState := Pending

  /**
   * The GraphQL enums as the query code generator emits them: the named
   * values and a catch-all for any other value the server sends. The query
   * and the summary query generate structurally identical enums; one type
   * stands for both.
   */
  datatype QueryState = OPEN | CLOSED | MERGED | OtherState(name: string)

  datatype QueryReviewState =
    | APPROVED | CHANGES_REQUESTED | COMMENTED | DISMISSED | PENDING
    | OtherReviewState(name: string)

  /** `From<PrQueryState> for PullRequestState`: unknown values become Open. */
  function StateFromQuery(q: QueryState): (r: PullRequestState)
    ensures r == Open <==> q == OPEN || q.OtherState?
    ensures r == Closed <==> q == CLOSED
    ensures r == Merged <==> q == MERGED
  {
    match q
    case OPEN => Open
    case CLOSED => Closed
    case MERGED => Merged
    case OtherState(_) => Open
  }

  /** `From<PrQueryReviewState> for PullRequestReviewState`: unknown values become Commented. */
  function ReviewStateFromQuery(q: QueryReviewState): (r: PullRequestReviewState)
    ensures r == Approved <==> q == APPROVED
    ensures r == ChangesRequested <==> q == CHANGES_REQUESTED
    ensures r == Commented <==> q == COMMENTED || q.OtherReviewState?
    ensures r == Dismissed <==> q == DISMISSED
    ensures r == Pending <==> q == PENDING
  {
    match q
    case APPROVED => Approved
    case CHANGES_REQUESTED => ChangesRequested
    case COMMENTED => Commented
    case DISMISSED => Dismissed
    case PENDING => Pending
    case OtherReviewState(_) => Commented
  }

  /** The named GraphQL value of each state: the reference the conversion is checked against. */
  function StateToQuery(s: PullRequestState): (r: QueryState) {
    match s
    case Open => OPEN
    case Closed => CLOSED
    case Merged => MERGED
  }

  function ReviewStateToQuery(s: PullRequestReviewState): (r: QueryReviewState) {
    match s
    case Approved => APPROVED
    case ChangesRequested => CHANGES_REQUESTED
    case Commented => COMMENTED
    case Dismissed => DISMISSED
    case Pending => PENDING
  }

  /**
   * The state conversion is one-to-one on the named values and sends every
   * unknown value to Open: it undoes StateToQuery, and StateToQuery undoes it
   * exactly on the named values.
   */
  lemma StateConversion(s: PullRequestState, q: QueryState)
    ensures StateFromQuery(StateToQuery(s)) == s
    ensures StateToQuery(StateFromQuery(q)) == q <==> !q.OtherState?
    ensures q.OtherState? ==> StateFromQuery(q) == Open
  {
  }

  /** The same for review states, whose fallback is Commented. */
  lemma ReviewStateConversion(s: PullRequestReviewState, q: QueryReviewState)
    ensures ReviewStateFromQuery(ReviewStateToQuery(s)) == s
    ensures ReviewStateToQuery(ReviewStateFromQuery(q)) == q <==> !q.OtherReviewState?
    ensures q.OtherReviewState? ==> ReviewStateFromQuery(q) == Commented
  {
  }

  /**
   * The defaults and the fallbacks are different things: the default state is
   * also the fallback for an unknown state, but the default review state
   * (Pending) is not what an unknown review state becomes (Commented).
   */
  lemma DefaultsAgainstFallbacks(name: string)
    ensures StateFromQuery(OtherState(name)) == DEFAULT_STATE
    ensures ReviewStateFromQuery(OtherReviewState(name)) != DEFAULT_REVIEW_STATE
  {
  }

  /** Derived `Ord` on the state enum: declaration order. */
  function StateRank(s: PullRequestState): (r: nat) {
    match s
    case Open => 0
    case Closed => 1
    case Merged => 2
  }

  function CmpState(a: PullRequestState, b: PullRequestState): (r: Ordering) {
    CmpInt(StateRank(a), StateRank(b))
  }

  // ---------------------------------------------------------------------------
  // The entity
  // ---------------------------------------------------------------------------

  datatype PullRequestReview = PullRequestReview(author: string, state: PullRequestReviewState)

  /** Timestamps are instants as integers (chrono's `DateTime<Utc>` orders the same way). */
  datatype PullRequestComment = PullRequestComment(author: string, body: string, createdAt: int)

  datatype PullRequest = PullRequest(
    number: nat,
    title: string,
    repository: string,
    createdAt: int,
    updatedAt: int,
    url: string,
    changedFiles: nat,
    additions: nat,
    deletions: nat,
    state: PullRequestState,
    isDraft: bool,
    reviews: seq<PullRequestReview>,
    author: string,
    baseBranch: string,
    body: string,
    comments: seq<PullRequestComment>)

  /** `PartialEq for PullRequest`: equal iff number and repository are. */
  predicate Eq(a: PullRequest, b: PullRequest)
    ensures Eq(a, b) <==> Cmp(a, b) == Equal
  {
    CmpStringEqualIff(a.repository, b.repository);
    a.number == b.number && a.repository == b.repository
  }

  /** `Ord for PullRequest`: by repository, then by number. */
  function Cmp(a: PullRequest, b: PullRequest): (r: Ordering)
    ensures a.repository != b.repository ==> r == CmpString(a.repository, b.repository) && r != Equal
    ensures a.repository == b.repository ==> r == CmpInt(a.number, b.number)
  {
    CmpStringEqualIff(a.repository, b.repository);
    CmpString(a.repository, b.repository).Then(CmpInt(a.number, b.number))
  }

  /** `PartialOrd for PullRequest`: always defined. */
  function PartialCmp(a: PullRequest, b: PullRequest): (r: Option<Ordering>)
    ensures r.Some? && r.value == Cmp(a, b)
    ensures r == Some(Equal) <==> Eq(a, b)
  {
    Some(Cmp(a, b))
  }

  /** Equality ignores every field but the key. */
  lemma EqIgnoresOtherFields(a: PullRequest, b: PullRequest)
    requires a.number == b.number && a.repository == b.repository
    ensures Eq(a, b)
    ensures Cmp(a, b) == Equal
  {
    CmpStringEqualIff(a.repository, b.repository);
  }

  /** Antisymmetry: comparing the other way round reverses the result. */
  lemma CmpReverse(a: PullRequest, b: PullRequest)
    ensures Cmp(b, a) == Cmp(a, b).Reverse()
  {
    CmpStringReverse(a.repository, b.repository);
  }

  /** Transitivity of the key order, so `Cmp` is a total order on keys. */
  lemma CmpTransitive(a: PullRequest, b: PullRequest, c: PullRequest)
    requires AtMost(Cmp(a, b)) && AtMost(Cmp(b, c))
    ensures AtMost(Cmp(a, c))
    ensures Cmp(a, b) == Less || Cmp(b, c) == Less ==> Cmp(a, c) == Less
  {
    var ab := CmpString(a.repository, b.repository);
    var bc := CmpString(b.repository, c.repository);
    CmpStringEqualIff(a.repository, b.repository);
    CmpStringEqualIff(b.repository, c.repository);
    CmpStringEqualIff(a.repository, c.repository);
    CmpStringTransitive(a.repository, b.repository, c.repository);
  }

  // ---------------------------------------------------------------------------
  // Comparison by table column
  // ---------------------------------------------------------------------------

  /** Columns 0..7 are #, Repository, Title, Author, Created, Updated, Changes, State. */
  const COLUMN_COUNT_SORTABLE: nat := 8

  /** `cmp_by_column_index` (and the same match in `sort_pull_requests`); 8 and up mean title. */
  function CmpByColumn(a: PullRequest, b: PullRequest, column: nat): (r: Ordering)
    ensures column >= COLUMN_COUNT_SORTABLE ==> r == CmpString(a.title, b.title)
    ensures column == 6 ==> (r == Equal <==> a.additions + a.deletions == b.additions + b.deletions)
  {
    match column
    case 0 => CmpInt(a.number, b.number)
    case 1 => CmpString(a.repository, b.repository)
    case 2 => CmpString(a.title, b.title)
    case 3 => CmpString(a.author, b.author)
    case 4 => CmpInt(a.createdAt, b.createdAt)
    case 5 => CmpInt(a.updatedAt, b.updatedAt)
    case 6 => CmpInt(a.additions + a.deletions, b.additions + b.deletions)
    case 7 => CmpState(a.state, b.state)
    case _ => CmpString(a.title, b.title)
  }


  lemma CmpByColumnReverse(a: PullRequest, b: PullRequest, column: nat)
    ensures CmpByColumn(b, a, column) == CmpByColumn(a, b, column).Reverse()
  {
    if column in {1, 2, 3} || column >= COLUMN_COUNT_SORTABLE {
      CmpStringReverse(a.repository, b.repository);
      CmpStringReverse(a.title, b.title);
      CmpStringReverse(a.author, b.author);
    }
  }

  /** Each column's comparison is a total preorder: transitive, strictly so if one step is strict. */
  lemma CmpByColumnTransitive(a: PullRequest, b: PullRequest, c: PullRequest, column: nat)
    requires AtMost(CmpByColumn(a, b, column)) && AtMost(CmpByColumn(b, c, column))
    ensures AtMost(CmpByColumn(a, c, column))
    ensures CmpByColumn(a, b, column) == Less || CmpByColumn(b, c, column) == Less
      ==> CmpByColumn(a, c, column) == Less
  {
    match column
    case 1 => CmpStringTransitive(a.repository, b.repository, c.repository);
    case 2 => CmpStringTransitive(a.title, b.title, c.title);
    case 3 => CmpStringTransitive(a.author, b.author, c.author);
    case 0 =>
    case 4 =>
    case 5 =>
    case 6 =>
    case 7 =>
    case _ => CmpStringTransitive(a.title, b.title, c.title);
  }

  lemma CmpByColumnReflexive(a: PullRequest, column: nat)
    ensures CmpByColumn(a, a, column) == Equal
  {
    CmpStringEqualIff(a.repository, a.repository);
    CmpStringEqualIff(a.title, a.title);
    CmpStringEqualIff(a.author, a.author);
  }

  /** Two pull requests that compare Equal on a column compare the same way against any third. */
  lemma CmpByColumnEqualSubstitutes(a: PullRequest, b: PullRequest, c: PullRequest, column: nat)
    requires CmpByColumn(a, b, column) == Equal
    ensures CmpByColumn(a, c, column) == CmpByColumn(b, c, column)
  {
    CmpByColumnReverse(a, b, column);
    CmpByColumnReverse(a, c, column);
    CmpByColumnReverse(b, c, column);
    if AtMost(CmpByColumn(b, c, column)) {
      CmpByColumnTransitive(a, b, c, column);
    } else {
      CmpByColumnTransitive(c, b, a, column);
    }
    if AtMost(CmpByColumn(a, c, column)) {
      CmpByColumnTransitive(b, a, c, column);
    } else {
      CmpByColumnTransitive(c, a, b, column);
    }
  }

  // ---------------------------------------------------------------------------
  // Table row and header (`Thing for PullRequest`)
  // ---------------------------------------------------------------------------

  /** The state column's label. */
  function StateLabel(pr: PullRequest): (text: string)
    ensures text == "DRAFT" <==> pr.state == Open && pr.isDraft
    ensures text == "OPEN" <==> pr.state == Open && !pr.isDraft
    ensures text == "CLOSED" <==> pr.state == Closed
    ensures text == "MERGED" <==> pr.state == Merged
  {
    match pr.state
    case Open => if pr.isDraft then "DRAFT" else "OPEN"
    case Closed => "CLOSED"
    case Merged => "MERGED"
  }

  /**
   * One table cell, before styling. Dates are shown by chrono's formatter and
   * the change count as `+additions` and the negated deletions; both are kept
   * here as the values they show.
   */
  datatype Cell =
    | TextCell(text: string)
    | NumberCell(n: int)
    | DateCell(instant: int)
    | ChangesCell(added: int, removed: int)
    | ReviewsCell(reviews: seq<PullRequestReview>)

  /** The table header: one title per cell, the sortable columns first and the reviews last. */
  function Header(): (r: seq<string>)
    ensures |r| == COLUMN_COUNT_SORTABLE + 1 && r[COLUMN_COUNT_SORTABLE] == "Reviews"
  {
    ["#", "Repository", "Title", "Author", "Created", "Updated", "Changes", "State", "Reviews"]
  }

  /** One table row: the cells under the header's titles, in the same order. */
  function Row(pr: PullRequest): (r: seq<Cell>)
    ensures |r| == |Header()|
    ensures r[COLUMN_COUNT_SORTABLE] == ReviewsCell(pr.reviews)
  {
    [ NumberCell(pr.number), TextCell(pr.repository), TextCell(pr.title), TextCell(pr.author),
      DateCell(pr.createdAt), DateCell(pr.updatedAt), ChangesCell(pr.additions, 0 - pr.deletions),
      TextCell(StateLabel(pr)), ReviewsCell(pr.reviews) ]
  }

  /** The header names the row's cells one for one, and its first columns are the sortable ones. */
  lemma RowMatchesHeader(pr: PullRequest)
    ensures |Header()| == |Row(pr)| == COLUMN_COUNT_SORTABLE + 1
    ensures Row(pr)[1] == TextCell(pr.repository) && Header()[1] == "Repository"
    ensures Row(pr)[7] == TextCell(StateLabel(pr)) && Header()[7] == "State"
  {
  }

  // ---------------------------------------------------------------------------
  // Conversion from the GraphQL response nodes
  // ---------------------------------------------------------------------------

  datatype ReviewNode = ReviewNode(author: Option<string>, state: QueryReviewState)
  datatype ReviewEdge = ReviewEdge(node: Option<ReviewNode>)
  datatype ReviewConnection = ReviewConnection(edges: Option<seq<Option<ReviewEdge>>>)

  /** A pull-request node of the full query; GraphQL `Int`s arrive as 64-bit signed integers. */
  datatype QueryNode = QueryNode(
    number: int, title: string, author: Option<string>, nameWithOwner: string,
    createdAt: int, updatedAt: int, url: string, changedFiles: int, additions: int,
    deletions: int, state: QueryState, isDraft: bool, latestReviews: Option<ReviewConnection>,
    baseRefName: string, body: string)

  /** A pull-request node of the summary query, which leaves out url, file count, branch and body. */
  datatype SummaryNode = SummaryNode(
    number: int, title: string, author: Option<string>, nameWithOwner: string,
    createdAt: int, updatedAt: int, additions: int, deletions: int, state: QueryState,
    isDraft: bool, latestReviews: Option<ReviewConnection>)

  /** `n as usize` for a 64-bit signed `n` on a 64-bit target: two's-complement reinterpretation. */
  function AsUsize(n: int): (r: nat)
    ensures r < 0x1_0000_0000_0000_0000
    ensures 0 <= n < 0x1_0000_0000_0000_0000 ==> r == n
  {
    n % 0x1_0000_0000_0000_0000
  }

  predicate EdgeComplete(e: Option<ReviewEdge>) {
    e.Some? && e.value.node.Some? && e.value.node.value.author.Some?
  }

  /**
   * The review list: every `unwrap` along an edge must succeed, or the
   * conversion panics (None here).
   */
  function ConvertReviews(edges: seq<Option<ReviewEdge>>): (r: Option<seq<PullRequestReview>>)
    ensures r.Some? <==> forall k :: 0 <= k < |edges| ==> EdgeComplete(edges[k])
    ensures r.Some? ==> |r.value| == |edges|
    ensures r.Some? ==> forall k :: 0 <= k < |edges| ==>
      r.value[k] == PullRequestReview(edges[k].value.node.value.author.value,
                                      ReviewStateFromQuery(edges[k].value.node.value.state))
  {
    if edges == [] then Some([])
    else if !EdgeComplete(edges[0]) then None
    else
      var node := edges[0].value.node.value;
      match ConvertReviews(edges[1..])
      case None => None
      case Some(rest) => Some([PullRequestReview(node.author.value, ReviewStateFromQuery(node.state))] + rest)
  }

  function ReviewsOf(c: Option<ReviewConnection>): (r: Option<seq<PullRequestReview>>) {
    if c.None? || c.value.edges.None? then None else ConvertReviews(c.value.edges.value)
  }

  /** `From<&PullRequestsQuerySearchEdgesNodeOnPullRequest>`; None where an `unwrap` would panic. */
  function FromQueryNode(v: QueryNode): (r: Option<PullRequest>)
    ensures r.Some? <==> v.author.Some? && ReviewsOf(v.latestReviews).Some?
    ensures r.Some? ==> (r.value.comments == [] && r.value.url == v.url && r.value.body == v.body
                         && r.value.baseBranch == v.baseRefName && r.value.repository == v.nameWithOwner
                         && r.value.state == StateFromQuery(v.state) && r.value.number == AsUsize(v.number))
  {
    if v.author.None? then None
    else match ReviewsOf(v.latestReviews)
      case None => None
      case Some(reviews) =>
        Some(PullRequest(AsUsize(v.number), v.title, v.nameWithOwner, v.createdAt, v.updatedAt,
                         v.url, AsUsize(v.changedFiles), AsUsize(v.additions), AsUsize(v.deletions),
                         StateFromQuery(v.state), v.isDraft, reviews, v.author.value,
                         v.baseRefName, v.body, []))
  }

  /** `From<&PullRequestsSummaryQuerySearchEdgesNodeOnPullRequest>`: the on-demand fields start empty. */
  function FromSummaryNode(v: SummaryNode): (r: Option<PullRequest>)
    ensures r.Some? <==> v.author.Some? && ReviewsOf(v.latestReviews).Some?
    ensures r.Some? ==> (r.value.url == "" && r.value.changedFiles == 0 && r.value.baseBranch == ""
                         && r.value.body == "" && r.value.comments == []
                         && r.value.repository == v.nameWithOwner && r.value.title == v.title
                         && r.value.state == StateFromQuery(v.state) && r.value.number == AsUsize(v.number))
  {
    if v.author.None? then None
    else match ReviewsOf(v.latestReviews)
      case None => None
      case Some(reviews) =>
        Some(PullRequest(AsUsize(v.number), v.title, v.nameWithOwner, v.createdAt, v.updatedAt,
                         "", 0, AsUsize(v.additions), AsUsize(v.deletions),
                         StateFromQuery(v.state), v.isDraft, reviews, v.author.value, "", "", []))
  }

  // ---------------------------------------------------------------------------
  // Filtering (src/components/pull_request.rs)
  // ---------------------------------------------------------------------------

  /** `PullRequest::filter`: a case-sensitive substring of title, author or repository. */
  predicate Filter(pr: PullRequest, search: string)
    ensures Filter(pr, search) ==> |search| <= |pr.title| || |search| <= |pr.author| || |search| <= |pr.repository|
  {
    Contains(pr.title, search) || Contains(pr.author, search) || Contains(pr.repository, search)
  }

  /** The empty search keeps every pull request; searching for a field's full text keeps it. */
  lemma FilterMatches(pr: PullRequest)
    ensures Filter(pr, "")
    ensures Filter(pr, pr.title) && Filter(pr, pr.author) && Filter(pr, pr.repository)
  {
    ContainsEmpty(pr.title);
    ContainsSelf(pr.title);
    ContainsSelf(pr.author);
    ContainsSelf(pr.repository);
  }

}
