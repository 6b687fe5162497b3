/**
 * The command vocabulary of the program: the input modes, the notification
 * kinds and every `Action` variant that the code sends or matches on, with
 * the display name that `strum::Display` derives for it (the variant name,
 * whatever the payload).
 */
module Actions {
  import opened Wrappers
  import opened Saturating
  import opened PullRequests

  datatype Mode = Normal | Command | Search

  /** `Mode::default()`. */
  const DEFAULT_MODE: Mode := Normal

  datatype Notification = Info(text: string) | Warning(text: string) | Error(text: string)

  datatype Action =
    | Tick
    | Render
    | Resize(width: U16, height: U16)
    | Suspend
    | Resume
    | Quit
    | Refresh
    | Error(message: string)
    | Info
    | Help
    | Up
    | Down
    | Enter
    | Open
    | Escape
    | Back
    | PageDn
    | PageUp
    | Sort(column: nat)
    | GetRepos
    | GetReposResult(pullRequests: seq<PullRequest>)
    | GetCurrentUserResult(username: string)
    | GetCurrentUser
    | Left
    | Right
    | Notify(notification: Notification)
    | ChangeMode(mode: Mode)
    | OpenCommandPalette
    | OpenSearchPalette
    | ExecuteCommand(command: string)
    | ExecuteSearch(search: string)
    | LoadMorePullRequestsResult(pullRequests: seq<PullRequest>, hasNextPage: bool, endCursor: Option<string>)

  /**
   * What a component's `update` ends in: `Ok` with an optional follow-up
   * action, or a panic (an `unwrap` of `None`, a `todo!()`), which ends the
   * program.
   */
  datatype Outcome = Done(next: Option<Action>) | Panic(reason: string)

  /** The panic messages of `Option::unwrap` on `None` and of `todo!()`. */
  const UNWRAP_NONE: string := "called `Option::unwrap()` on a `None` value"
  const NOT_IMPLEMENTED: string := "not yet implemented"

  /** The display names, in declaration order. */
  const ACTION_NAMES: seq<string> := [
    "Tick", "Render", "Resize", "Suspend", "Resume", "Quit", "Refresh", "Error", "Info", "Help",
    "Up", "Down", "Enter", "Open", "Escape", "Back", "PageDn", "PageUp", "Sort", "GetRepos",
    "GetReposResult", "GetCurrentUserResult", "GetCurrentUser", "Left", "Right", "Notify",
    "ChangeMode", "OpenCommandPalette", "OpenSearchPalette", "ExecuteCommand", "ExecuteSearch",
    "LoadMorePullRequestsResult"]

  /** Which variant an action is (its position in the declaration). */
  function KindIndex(a: Action): (k: nat)
    ensures k < |ACTION_NAMES|
  {
    match a
    case Tick => 0
    case Render => 1
    case Resize(_, _) => 2
    case Suspend => 3
    case Resume => 4
    case Quit => 5
    case Refresh => 6
    case Error(_) => 7
    case Info => 8
    case Help => 9
    case Up => 10
    case Down => 11
    case Enter => 12
    case Open => 13
    case Escape => 14
    case Back => 15
    case PageDn => 16
    case PageUp => 17
    case Sort(_) => 18
    case GetRepos => 19
    case GetReposResult(_) => 20
    case GetCurrentUserResult(_) => 21
    case GetCurrentUser => 22
    case Left => 23
    case Right => 24
    case Notify(_) => 25
    case ChangeMode(_) => 26
    case OpenCommandPalette => 27
    case OpenSearchPalette => 28
    case ExecuteCommand(_) => 29
    case ExecuteSearch(_) => 30
    case LoadMorePullRequestsResult(_, _, _) => 31
  }

  /** `action.to_string()`. */
  function Name(a: Action): (r: string)
    ensures r in ACTION_NAMES && |r| > 0
  {
    ACTION_NAMES[KindIndex(a)]
  }

  lemma ActionNamesDistinct()
    ensures forall i, j :: 0 <= i < j < |ACTION_NAMES| ==> ACTION_NAMES[i] != ACTION_NAMES[j]
  {
  }

  /** Two actions have the same display name exactly when they are the same variant. */
  lemma NameIdentifiesKind(a: Action, b: Action)
    ensures Name(a) == Name(b) <==> KindIndex(a) == KindIndex(b)
  {
    ActionNamesDistinct();
    if KindIndex(a) < KindIndex(b) {
      assert ACTION_NAMES[KindIndex(a)] != ACTION_NAMES[KindIndex(b)];
    } else if KindIndex(b) < KindIndex(a) {
      assert ACTION_NAMES[KindIndex(b)] != ACTION_NAMES[KindIndex(a)];
    }
  }
}

/** `AppEvent`: the secondary channel's structural signals. */
module Events {
  import opened Actions

  datatype AppEvent =
    | ProviderReturnedResult
    | ProviderError(message: string)
    | CommandPaletteClosed
    | CommandPaletteOpened
    | ModeChanged(mode: Mode)
    | Quit
}

/** Terminal key events as crossterm reports them: a key code and a modifier set. */
module Keys {
  datatype KeyCode = Char(c: char) | Enter | Esc | Backspace | OtherKey(code: nat)

  /** The modifiers are kept as crossterm's bit set. */
  datatype KeyEvent = KeyEvent(code: KeyCode, modifiers: nat)
}

/** The events the terminal driver delivers to the loop. */
module Tui {
  import opened Saturating
  import opened Keys

  /** `Other` stands for the variants the loop ignores (init, focus, paste, mouse, ...). */
  datatype TuiEvent = Quit | Tick | Render | Resize(width: U16, height: U16) | Key(key: KeyEvent) | Other
}

/**
 * The two unbounded channels. A sender is a reference to the channel, an
 * `Option<UnboundedSender>` a possibly-null reference; sending appends.
 */
module Channels {
  import opened Wrappers
  import opened Actions
  import opened Events

  class ActionChannel {
    var queue: seq<Action>

    constructor ()
      ensures queue == []
    {
      queue := [];
    }

    method Send(a: Action)
      modifies this
      ensures queue == old(queue) + [a]
    {
      queue := queue + [a];
    }

    /** `recv()` when a value is ready: the oldest one. */
    method Receive() returns (a: Option<Action>)
      modifies this
      ensures old(queue) == [] ==> a == None && queue == []
      ensures old(queue) != [] ==> a == Some(old(queue)[0]) && queue == old(queue)[1..]
    {
      if queue == [] {
        a := None;
      } else {
        a := Some(queue[0]);
        queue := queue[1..];
      }
    }
  }

  class EventChannel {
    var queue: seq<AppEvent>

    constructor ()
      ensures queue == []
    {
      queue := [];
    }

    method Send(e: AppEvent)
      modifies this
      ensures queue == old(queue) + [e]
    {
      queue := queue + [e];
    }

    method Receive() returns (e: Option<AppEvent>)
      modifies this
      ensures old(queue) == [] ==> e == None && queue == []
      ensures old(queue) != [] ==> e == Some(old(queue)[0]) && queue == old(queue)[1..]
    {
      if queue == [] {
        e := None;
      } else {
        e := Some(queue[0]);
        queue := queue[1..];
      }
    }
  }
}
