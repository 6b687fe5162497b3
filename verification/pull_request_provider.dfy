/**
 * The pull-request provider's pagination bookkeeping: whether another page
 * exists, the cursor after the last page and whether a page is on its way.
 *
 * Nothing in the provider ever sets its senders (it has no setter and keeps
 * the trait's do-nothing `register_event_handler`), so a fresh provider
 * panics on every request; the functions below take the senders' presence
 * as parameters to describe every state the fields allow.
 */
module PullRequestProviders {
  import opened Wrappers
  import opened Actions
  import opened PullRequests
  import opened Channels

  const DEFAULT_PAGE_SIZE: nat := 20
  /** The size of the first page a fresh fetch asks for. */
  const INITIAL_LOAD_SIZE: nat := 10

  const GETTING_USER: string := "Getting current user..."
  const FETCHING: string := "Fetching pull requests..."
  const LOADING_MORE: string := "Loading more pull requests..."

  const COMMANDS: seq<string> := ["pr", "pullrequest", "pull-request", "pull_request"]

  /** The GitHub requests the provider spawns. */
  datatype Request =
    | CurrentUser                                                  // `get_current_user`
    | FirstPage(username: string, size: nat)                       // `fetch_repos`
    | NextPage(username: string, size: nat, after: Option<string>) // `load_more_pull_requests`
    | CurrentUserThenFirstPage(size: nat)                          // `refresh` without a user name

  datatype ProviderState = ProviderState(
    pullRequests: seq<PullRequest>,
    username: string,
    hasNextPage: bool,
    endCursor: Option<string>,
    isLoadingMore: bool,
    pageSize: nat)

  /** `PullRequestProvider::new()`. */
  const NEW: ProviderState := ProviderState([], "", true, None, false, DEFAULT_PAGE_SIZE)

  /** One call's effect: the new state, whether it panicked, what it sent on the action channel and what it spawned. */
  datatype Effect = Effect(state: ProviderState, outcome: Outcome, actions: seq<Action>, requests: seq<Request>)

  function PanicAt(s: ProviderState, sent: seq<Action>): (r: Effect) {
    Effect(s, Panic(UNWRAP_NONE), sent, [])
  }

  /** `get_current_user`. */
  function GetCurrentUserEffect(s: ProviderState, hasCommand: bool): (r: Effect)
    ensures r.state == s
    ensures r.outcome.Panic? <==> !hasCommand
    ensures hasCommand ==> r.actions == [Notify(Notification.Info(GETTING_USER))] && r.requests == [CurrentUser]
  {
    if !hasCommand then PanicAt(s, [])
    else Effect(s, Done(None), [Notify(Notification.Info(GETTING_USER))], [CurrentUser])
  }

  /** `fetch_repos`: a fresh first page, with pagination reset. */
  function FetchReposEffect(s: ProviderState, hasCommand: bool): (r: Effect)
    ensures r.outcome.Panic? <==> !hasCommand
    ensures !hasCommand ==> r.state == s && r.actions == [] && r.requests == []
    ensures hasCommand ==>
      && r.state == s.(hasNextPage := true, endCursor := None, isLoadingMore := false)
      && r.actions == [Notify(Notification.Info(FETCHING))]
      && r.requests == [FirstPage(s.username, INITIAL_LOAD_SIZE)]
  {
    if !hasCommand then PanicAt(s, [])
    else
      Effect(s.(hasNextPage := true, endCursor := None, isLoadingMore := false), Done(None),
             [Notify(Notification.Info(FETCHING))], [FirstPage(s.username, INITIAL_LOAD_SIZE)])
  }

  /** Whether `load_more_pull_requests` goes past its guard. */
  predicate MayLoadMore(s: ProviderState) {
    s.hasNextPage && !s.isLoadingMore
  }

  /**
   * `load_more_pull_requests`: past the guard it notifies, then needs the
   * event sender (panicking with the notification already sent), then marks
   * a page as on its way and asks for it after the stored cursor.
   */
  function LoadMoreEffect(s: ProviderState, hasCommand: bool, hasEvent: bool): (r: Effect)
    ensures !MayLoadMore(s) ==> r == Effect(s, Done(None), [], [])
    ensures MayLoadMore(s) && !hasCommand ==> r.outcome.Panic? && r.actions == []
    ensures MayLoadMore(s) && hasCommand ==> r.actions == [Notify(Notification.Info(LOADING_MORE))]
    ensures MayLoadMore(s) && hasCommand && !hasEvent ==> r.outcome.Panic? && r.state == s
    ensures MayLoadMore(s) && hasCommand && hasEvent ==>
      && r.outcome == Done(None)
      && r.state == s.(isLoadingMore := true)
      && r.requests == [NextPage(s.username, s.pageSize, s.endCursor)]
  {
    if !MayLoadMore(s) then Effect(s, Done(None), [], [])
    else if !hasCommand then PanicAt(s, [])
    else if !hasEvent then PanicAt(s, [Notify(Notification.Info(LOADING_MORE))])
    else
      Effect(s.(isLoadingMore := true), Done(None), [Notify(Notification.Info(LOADING_MORE))],
             [NextPage(s.username, s.pageSize, s.endCursor)])
  }

  /** `refresh`: with no user name the user and the first page are fetched in one task, leaving the flags alone. */
  function RefreshEffect(s: ProviderState, hasCommand: bool): (r: Effect)
    ensures r.outcome.Panic? <==> !hasCommand
    ensures hasCommand && s.username == "" ==> r == Effect(s, Done(None), [], [CurrentUserThenFirstPage(INITIAL_LOAD_SIZE)])
    ensures hasCommand && s.username != "" ==> r == FetchReposEffect(s, true)
  {
    if !hasCommand then PanicAt(s, [])
    else if s.username == "" then Effect(s, Done(None), [], [CurrentUserThenFirstPage(INITIAL_LOAD_SIZE)])
    else FetchReposEffect(s, true)
  }

  /** A successful load marks a page as on its way, so a second load does nothing until a fresh fetch. */
  lemma LoadMoreIsOneShot(s: ProviderState, hasCommand: bool, hasEvent: bool, c2: bool, e2: bool)
    requires LoadMoreEffect(s, hasCommand, hasEvent).outcome.Done?
    ensures var again := LoadMoreEffect(LoadMoreEffect(s, hasCommand, hasEvent).state, c2, e2);
      again.actions == [] && again.requests == [] && again.outcome == Done(None)
  {
  }

  /** A successful fetch clears the guard, and the next load asks for the page after no cursor, with the page size. */
  lemma FetchReopensLoading(s: ProviderState, hasEvent: bool)
    ensures var fetched := FetchReposEffect(s, true).state;
      && MayLoadMore(fetched)
      && LoadMoreEffect(fetched, true, hasEvent).actions == [Notify(Notification.Info(LOADING_MORE))]
      && (hasEvent ==> LoadMoreEffect(fetched, true, true).requests == [NextPage(s.username, s.pageSize, None)])
  {
  }

  /** Refresh with a known user resets pagination; without one it leaves the flags as they were. */
  lemma RefreshPagination(s: ProviderState)
    ensures s.username != "" ==> MayLoadMore(RefreshEffect(s, true).state) && RefreshEffect(s, true).state.endCursor == None
    ensures s.username == "" ==> RefreshEffect(s, true).state == s
  {
  }

  /** A new provider has a page to load and nothing on its way, but no sender to request it with. */
  lemma NewProvider()
    ensures MayLoadMore(NEW) && NEW.pageSize == 20 && NEW.pullRequests == []
    ensures RefreshEffect(NEW, false).outcome.Panic? && LoadMoreEffect(NEW, false, false).outcome.Panic?
  {
  }

  /** `commands`: the palette words that select this provider. */
  function Commands(): (r: seq<string>)
    ensures r == ["pr", "pullrequest", "pull-request", "pull_request"]
    ensures |r| == 4 && "pr" in r && "pull_request" in r
    ensures forall i, j :: 0 <= i < j < |r| ==> r[i] != r[j]
  {
    COMMANDS
  }

  class PullRequestProvider {
    var commandTx: ActionChannel?
    var eventTx: EventChannel?
    var pullRequests: seq<PullRequest>
    var username: string
    var hasNextPage: bool
    var endCursor: Option<string>
    var isLoadingMore: bool
    var pageSize: nat
    /** Every request spawned so far, oldest first. */
    var requests: seq<Request>

    function State(): (r: ProviderState)
      reads this
    {
      ProviderState(pullRequests, username, hasNextPage, endCursor, isLoadingMore, pageSize)
    }

    constructor ()
      ensures State() == NEW && commandTx == null && eventTx == null && requests == []
    {
      commandTx := null;
      eventTx := null;
      pullRequests := [];
      username := "";
      hasNextPage := true;
      endCursor := None;
      isLoadingMore := false;
      pageSize := DEFAULT_PAGE_SIZE;
      requests := [];
    }

    method GetCurrentUser() returns (outcome: Outcome)
      modifies this, commandTx
      ensures var e := GetCurrentUserEffect(old(State()), old(commandTx) != null);
        && outcome == e.outcome && State() == e.state && commandTx == old(commandTx) && eventTx == old(eventTx)
        && requests == old(requests) + e.requests
        && (commandTx != null ==> commandTx.queue == old(commandTx.queue) + e.actions)
    {
      if commandTx == null {
        return Panic(UNWRAP_NONE);
      }
      commandTx.Send(Notify(Notification.Info(GETTING_USER)));
      requests := requests + [CurrentUser];
      outcome := Done(None);
    }

    method FetchRepos() returns (outcome: Outcome)
      modifies this, commandTx
      ensures var e := FetchReposEffect(old(State()), old(commandTx) != null);
        && outcome == e.outcome && State() == e.state && commandTx == old(commandTx) && eventTx == old(eventTx)
        && requests == old(requests) + e.requests
        && (commandTx != null ==> commandTx.queue == old(commandTx.queue) + e.actions)
    {
      if commandTx == null {
        return Panic(UNWRAP_NONE);
      }
      commandTx.Send(Notify(Notification.Info(FETCHING)));
      hasNextPage := true;
      endCursor := None;
      isLoadingMore := false;
      requests := requests + [FirstPage(username, INITIAL_LOAD_SIZE)];
      outcome := Done(None);
    }

    method LoadMorePullRequests() returns (outcome: Outcome)
      modifies this, commandTx
      ensures var e := LoadMoreEffect(old(State()), old(commandTx) != null, old(eventTx) != null);
        && outcome == e.outcome && State() == e.state && commandTx == old(commandTx) && eventTx == old(eventTx)
        && requests == old(requests) + e.requests
        && (commandTx != null ==> commandTx.queue == old(commandTx.queue) + e.actions)
    {
      if !hasNextPage || isLoadingMore {
        return Done(None);
      }
      if commandTx == null {
        return Panic(UNWRAP_NONE);
      }
      commandTx.Send(Notify(Notification.Info(LOADING_MORE)));
      if eventTx == null {
        return Panic(UNWRAP_NONE);
      }
      isLoadingMore := true;
      requests := requests + [NextPage(username, pageSize, endCursor)];
      outcome := Done(None);
    }

    method Refresh() returns (outcome: Outcome)
      modifies this, commandTx
      ensures var e := RefreshEffect(old(State()), old(commandTx) != null);
        && outcome == e.outcome && State() == e.state && commandTx == old(commandTx) && eventTx == old(eventTx)
        && requests == old(requests) + e.requests
        && (commandTx != null ==> commandTx.queue == old(commandTx.queue) + e.actions)
    {
      if commandTx == null {
        return Panic(UNWRAP_NONE);
      }
      if username == "" {
        requests := requests + [CurrentUserThenFirstPage(INITIAL_LOAD_SIZE)];
        outcome := Done(None);
      } else {
        outcome := FetchRepos();
      }
    }
  }
}
