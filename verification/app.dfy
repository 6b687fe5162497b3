/**
 * One iteration of the application loop: the biased choice of which source
 * to serve, the routing of a key to the command palette or through the
 * keymap (with the multi-key buffer cleared on every tick), the global
 * effects of an action, its broadcast to the components in registration
 * order, the reaction to app events, and the suspend/quit check that ends
 * the iteration.
 *
 * Drawing, resizing and suspending the terminal are left out; what is kept
 * of them is the flag logic around them.
 */
module Dispatch {
  import opened Wrappers
  import opened Actions
  import opened Events
  import opened Keys
  import Tui
  import opened Channels
  import CommandPalettes
  import PullRequestLists
  import CircuitBreakers
  import Notifications
  import Keystrokes

  /** A mode's keymap: key sequences to the action they are bound to. */
  type Keymap = map<seq<KeyEvent>, Action>
  type KeyBindings = map<Mode, Keymap>

  // ---------------------------------------------------------------------
  // Which source an iteration serves
  // ---------------------------------------------------------------------

  datatype Source = TerminalSource | ActionSource | EventSource

  /** `select!` with `biased;`: the terminal first, then the action channel, then the event channel. */
  function Choose(terminalReady: bool, actionReady: bool, eventReady: bool): (r: Option<Source>)
    ensures r == Some(TerminalSource) <==> terminalReady
    ensures r == Some(ActionSource) <==> !terminalReady && actionReady
    ensures r == Some(EventSource) <==> !terminalReady && !actionReady && eventReady
    ensures r == None <==> !terminalReady && !actionReady && !eventReady
  {
    if terminalReady then Some(TerminalSource)
    else if actionReady then Some(ActionSource)
    else if eventReady then Some(EventSource)
    else None
  }

  // ---------------------------------------------------------------------
  // Key routing and the multi-key buffer
  // ---------------------------------------------------------------------

  /** Where a key goes: straight to the palette, or through the keymap with the buffer it leaves and the action it sends. */
  datatype KeyRoute = ToPalette | Routed(buffer: seq<KeyEvent>, send: Option<Action>)

  function RouteKey(mode: Mode, bindings: KeyBindings, buffer: seq<KeyEvent>, key: KeyEvent): (r: KeyRoute)
    ensures r.ToPalette? <==> mode == Command
    ensures r.Routed? ==> r.buffer == buffer || r.buffer == buffer + [key]
  {
    if mode == Command then ToPalette
    else if mode !in bindings then Routed(buffer, None)
    else if [key] in bindings[mode] then Routed(buffer, Some(bindings[mode][[key]]))
    else
      var grown := buffer + [key];
      Routed(grown, if grown in bindings[mode] then Some(bindings[mode][grown]) else None)
  }

  function Sent(o: Option<Action>): (r: seq<Action>)
    ensures o.Some? ==> r == [o.value]
    ensures o.None? ==> r == []
  {
    if o.Some? then [o.value] else []
  }

  /** A single-key binding fires at once and leaves the buffer alone. */
  lemma SingleKeyBindingFires(mode: Mode, bindings: KeyBindings, buffer: seq<KeyEvent>, key: KeyEvent)
    requires mode != Command && mode in bindings && [key] in bindings[mode]
    ensures RouteKey(mode, bindings, buffer, key) == Routed(buffer, Some(bindings[mode][[key]]))
  {
  }

  /** Any other key is buffered, and an action is sent exactly when the whole buffer is bound; the buffer is kept either way. */
  lemma UnboundKeyIsBuffered(mode: Mode, bindings: KeyBindings, buffer: seq<KeyEvent>, key: KeyEvent)
    requires mode != Command && mode in bindings && [key] !in bindings[mode]
    ensures var r := RouteKey(mode, bindings, buffer, key);
      && r.Routed? && r.buffer == buffer + [key]
      && (r.send.Some? <==> buffer + [key] in bindings[mode])
      && (r.send.Some? ==> r.send.value == bindings[mode][buffer + [key]])
  {
  }

  /** A mode without a keymap makes keys do nothing here. */
  lemma NoKeymapNoAction(mode: Mode, bindings: KeyBindings, buffer: seq<KeyEvent>, key: KeyEvent)
    requires mode != Command && mode !in bindings
    ensures RouteKey(mode, bindings, buffer, key) == Routed(buffer, None)
  {
  }

  /** Routing a run of keys in a mode other than Command: the buffer left and the actions sent, in order. */
  function RouteKeys(mode: Mode, bindings: KeyBindings, buffer: seq<KeyEvent>, keys: seq<KeyEvent>): (r: (seq<KeyEvent>, seq<Action>))
    requires mode != Command
    ensures |buffer| <= |r.0| <= |buffer| + |keys|
    ensures |r.1| <= |keys|
    decreases |keys|
  {
    if keys == [] then (buffer, [])
    else
      var step := RouteKey(mode, bindings, buffer, keys[0]);
      var rest := RouteKeys(mode, bindings, step.buffer, keys[1..]);
      (rest.0, Sent(step.send) + rest.1)
  }

  /** Keys that are bound neither alone nor as the buffer they complete pile up in the buffer and send nothing. */
  lemma {:induction false} UnmatchedKeysAccumulate(mode: Mode, km: Keymap, buffer: seq<KeyEvent>, keys: seq<KeyEvent>)
    requires mode != Command
    requires forall i :: 0 <= i < |keys| ==> [keys[i]] !in km && buffer + keys[..i + 1] !in km
    ensures RouteKeys(mode, map[mode := km], buffer, keys) == (buffer + keys, [])
    decreases |keys|
  {
    if keys != [] {
      var bindings := map[mode := km];
      var grown := buffer + [keys[0]];
      assert keys[..1] == [keys[0]];
      var step := RouteKey(mode, bindings, buffer, keys[0]);
      assert step == Routed(grown, None);
      UnmatchedTail(km, buffer, keys);
      UnmatchedKeysAccumulate(mode, km, grown, keys[1..]);
      var rest := RouteKeys(mode, bindings, grown, keys[1..]);
      assert RouteKeys(mode, bindings, buffer, keys) == (rest.0, Sent(step.send) + rest.1);
      assert grown + keys[1..] == buffer + keys;
    } else {
      assert buffer + keys == buffer;
    }
  }

  /** The premise of `UnmatchedKeysAccumulate` carries over to the rest of the keys once the first is buffered. */
  lemma UnmatchedTail(km: Keymap, buffer: seq<KeyEvent>, keys: seq<KeyEvent>)
    requires keys != []
    requires forall i :: 0 <= i < |keys| ==> [keys[i]] !in km && buffer + keys[..i + 1] !in km
    ensures forall i :: 0 <= i < |keys[1..]| ==> [keys[1..][i]] !in km && buffer + [keys[0]] + keys[1..][..i + 1] !in km
  {
    forall i | 0 <= i < |keys[1..]|
      ensures [keys[1..][i]] !in km && buffer + [keys[0]] + keys[1..][..i + 1] !in km
    {
      assert keys[1..][i] == keys[i + 1];
      assert buffer + [keys[0]] + keys[1..][..i + 1] == buffer + keys[..i + 2];
    }
  }

  /** Routing one key, and routing a run of keys one key at a time. */
  lemma RouteKeysSplit(mode: Mode, bindings: KeyBindings, buffer: seq<KeyEvent>, key: KeyEvent, more: seq<KeyEvent>)
    requires mode != Command
    ensures var step := RouteKey(mode, bindings, buffer, key);
      var rest := RouteKeys(mode, bindings, step.buffer, more);
      RouteKeys(mode, bindings, buffer, [key] + more) == (rest.0, Sent(step.send) + rest.1)
  {
    assert ([key] + more)[1..] == more;
  }

  lemma RouteKeysOne(mode: Mode, bindings: KeyBindings, buffer: seq<KeyEvent>, key: KeyEvent)
    requires mode != Command
    ensures var step := RouteKey(mode, bindings, buffer, key);
      RouteKeys(mode, bindings, buffer, [key]) == (step.buffer, Sent(step.send))
  {
    var step := RouteKey(mode, bindings, buffer, key);
    RouteKeysSplit(mode, bindings, buffer, key, []);
    assert [key] + [] == [key];
    assert RouteKeys(mode, bindings, step.buffer, []) == (step.buffer, []);
    assert Sent(step.send) + [] == Sent(step.send);
  }

  /** A key bound on its own shadows every longer binding that starts with it: pressing it twice sends its own action twice. */
  lemma SingleKeyShadowsCombos(mode: Mode, km: Keymap, buffer: seq<KeyEvent>, key: KeyEvent)
    requires mode != Command && [key] in km
    ensures RouteKeys(mode, map[mode := km], buffer, [key, key]) == (buffer, [km[[key]], km[[key]]])
  {
    var b := map[mode := km];
    assert RouteKey(mode, b, buffer, key) == Routed(buffer, Some(km[[key]]));
    RouteKeysOne(mode, b, buffer, key);
    RouteKeysSplit(mode, b, buffer, key, [key]);
    assert [key] + [key] == [key, key];
    assert Sent(Some(km[[key]])) + [km[[key]]] == [km[[key]], km[[key]]];
  }

  /** With neither key bound alone, `[k1, k2]` routes as the buffer `[k1, k2]` completed by `k2`. */
  lemma RouteComboPair(mode: Mode, km: Keymap, buffer: seq<KeyEvent>, k1: KeyEvent, k2: KeyEvent)
    requires mode != Command && [k1] !in km && [k2] !in km
    ensures var b := map[mode := km];
      var full := buffer + [k1, k2];
      var firstSent := if buffer + [k1] in km then [km[buffer + [k1]]] else [];
      RouteKeys(mode, b, buffer, [k1, k2]) == (full, firstSent + (if full in km then [km[full]] else []))
  {
    var b := map[mode := km];
    var step := RouteKey(mode, b, buffer, k1);
    assert step.buffer == buffer + [k1];
    RouteKeysOne(mode, b, buffer + [k1], k2);
    RouteKeysSplit(mode, b, buffer, k1, [k2]);
    assert [k1] + [k2] == [k1, k2];
    assert buffer + [k1] + [k2] == buffer + [k1, k2];
  }

  /**
   * Because a match does not clear the buffer, a two-key combination sends
   * its action once per tick: typed again before the next tick, the buffer
   * has grown past it and nothing is sent.
   */
  lemma ComboFiresOncePerTick(mode: Mode, km: Keymap, k1: KeyEvent, k2: KeyEvent, a: Action)
    requires mode != Command
    requires [k1] !in km && [k2] !in km && [k1, k2] in km && km[[k1, k2]] == a
    requires [k1, k2, k1] !in km && [k1, k2, k1, k2] !in km
    ensures RouteKeys(mode, map[mode := km], [], [k1, k2]) == ([k1, k2], [a])
    ensures RouteKeys(mode, map[mode := km], [k1, k2], [k1, k2]) == ([k1, k2, k1, k2], [])
  {
    RouteComboPair(mode, km, [], k1, k2);
    assert [] + [k1, k2] == [k1, k2];
    assert [] + [k1] == [k1];
    assert [] + [a] == [a];
    assert [k1, k2] + [k1, k2] == [k1, k2, k1, k2];
    assert [k1, k2] + [k1] == [k1, k2, k1];
    RouteComboPair(mode, km, [k1, k2], k1, k2);
    var noActions: seq<Action> := [];
    assert noActions + noActions == [];
    assert RouteKeys(mode, map[mode := km], [k1, k2], [k1, k2]) == ([k1, k2, k1, k2], noActions + noActions);
  }

  // ---------------------------------------------------------------------
  // Global effects
  // ---------------------------------------------------------------------

  /** The loop's own state: the mode, the two flags and the multi-key buffer. */
  datatype Globals = Globals(mode: Mode, shouldQuit: bool, shouldSuspend: bool, keyBuffer: seq<KeyEvent>)

  const START: Globals := Globals(DEFAULT_MODE, false, false, [])

  /** An action's global effect: the new loop state and what it sends on each channel. */
  datatype Reduction = Reduction(globals: Globals, actions: seq<Action>, events: seq<AppEvent>)

  const ERROR_PREFIX: string := "Error: "

  /** The action branch's `match`, before the broadcast. */
  function ReduceAction(g: Globals, a: Action): (r: Reduction)
    ensures a != Tick && a != Action.Quit && a != Suspend && a != Resume && !a.ChangeMode? ==> r.globals == g
    ensures r.events != [] ==> a.ChangeMode?
    ensures r.globals.shouldQuit == (g.shouldQuit || a == Action.Quit)
  {
    match a
    case Tick => Reduction(g.(keyBuffer := []), [], [])
    case Quit => Reduction(g.(shouldQuit := true), [], [])
    case Suspend => Reduction(g.(shouldSuspend := true), [], [])
    case Resume => Reduction(g.(shouldSuspend := false), [], [])
    case Error(e) => Reduction(g, [Notify(Notification.Error(ERROR_PREFIX + e))], [])
    case ChangeMode(m) => Reduction(g.(mode := m), [], [ModeChanged(m)])
    case OpenCommandPalette => Reduction(g, [ChangeMode(Command), Action.Render], [])
    case OpenSearchPalette => Reduction(g, [ChangeMode(Search), Action.Render], [])
    case _ => Reduction(g, [], [])
  }

  /** The app-event branch's `match`. */
  function ReduceEvent(g: Globals, e: AppEvent): (r: Globals)
    ensures !e.ModeChanged? && e != AppEvent.Quit ==> r == g
    ensures r.keyBuffer == g.keyBuffer && r.shouldSuspend == g.shouldSuspend
  {
    match e
    case ModeChanged(m) => g.(mode := m)
    case Quit => g.(shouldQuit := true)
    case _ => g
  }

  /** What happens after the branch: suspend (and queue a resume), leave the loop, or go round again. */
  datatype LoopEnd = KeepRunning | SuspendThenResume | Stop

  function EndOfIteration(g: Globals): (r: LoopEnd)
    ensures r == SuspendThenResume <==> g.shouldSuspend
    ensures r == Stop <==> g.shouldQuit && !g.shouldSuspend
  {
    if g.shouldSuspend then SuspendThenResume
    else if g.shouldQuit then Stop
    else KeepRunning
  }

  /** A tick empties the key buffer and nothing else; the next key starts a fresh combination. */
  lemma TickStartsFreshCombination(g: Globals, mode: Mode, km: Keymap, k1: KeyEvent, k2: KeyEvent, a: Action)
    requires mode != Command && [k1] !in km && [k2] !in km && [k1, k2] in km && km[[k1, k2]] == a
    ensures var r := ReduceAction(g, Action.Tick);
      r.globals == g.(keyBuffer := []) && r.actions == [] && r.events == []
      && RouteKeys(mode, map[mode := km], r.globals.keyBuffer, [k1, k2]).1 == [a]
  {
    RouteComboPair(mode, km, [], k1, k2);
    assert [] + [k1, k2] == [k1, k2];
    assert [] + [k1] == [k1];
    assert [] + [a] == [a];
  }

  /** An error becomes exactly one error notification with the prefix. */
  lemma ErrorBecomesNotification(g: Globals, e: string)
    ensures ReduceAction(g, Action.Error(e)) == Reduction(g, [Notify(Notification.Error("Error: " + e))], [])
  {
  }

  /** The palette actions expand to a mode change followed by a redraw. */
  lemma OpenPaletteExpands(g: Globals)
    ensures ReduceAction(g, OpenCommandPalette).actions == [ChangeMode(Command), Action.Render]
    ensures ReduceAction(g, OpenSearchPalette).actions == [ChangeMode(Search), Action.Render]
    ensures ReduceAction(g, OpenCommandPalette).globals == g && ReduceAction(g, OpenSearchPalette).globals == g
  {
  }

  /** The `ModeChanged` event a mode change emits comes back as a no-op: the loop is already in that mode. */
  lemma ModeChangeEchoIsIdempotent(g: Globals, m: Mode)
    ensures var r := ReduceAction(g, ChangeMode(m));
      r.events == [ModeChanged(m)] && r.globals.mode == m
      && ReduceEvent(r.globals, r.events[0]) == r.globals
  {
  }

  /**
   * Opening the command palette, once its queued mode change is handled by
   * the loop and by the palette, leaves the loop in Command mode, sending keys
   * only to the palette, and the palette shown.
   */
  lemma OpenCommandPaletteActivates(g: Globals, p: CommandPalettes.Palette, bindings: KeyBindings, key: KeyEvent)
    ensures var change := ReduceAction(g, OpenCommandPalette).actions[0];
      var after := ReduceAction(g, change).globals;
      && after.mode == Command
      && RouteKey(after.mode, bindings, after.keyBuffer, key) == ToPalette
      && CommandPalettes.OnAction(p, change).palette.active
  {
  }

  /** Esc in the palette asks for Normal mode; handling that request hides the palette and gives keys back to the keymap. */
  lemma EscapeReturnsToKeymap(g: Globals, p: CommandPalettes.Palette, bindings: KeyBindings, m: nat, key: KeyEvent)
    requires CommandPalettes.Valid(p) && p.active
    ensures var esc := CommandPalettes.OnKey(p, KeyEvent(Esc, m));
      && esc.actions[0] == ChangeMode(Normal)
      && var after := ReduceAction(g, esc.actions[0]).globals;
         after.mode == Normal
         && RouteKey(after.mode, bindings, after.keyBuffer, key).Routed?
         && !CommandPalettes.OnAction(esc.palette, esc.actions[0]).palette.active
  {
  }

  /** In Search mode the palette is shown but keys still go through the keymap (and reach the palette as ordinary events). */
  lemma SearchModeKeepsKeymap(g: Globals, p: CommandPalettes.Palette, bindings: KeyBindings, key: KeyEvent)
    ensures var after := ReduceAction(g, ChangeMode(Search)).globals;
      RouteKey(after.mode, bindings, after.keyBuffer, key).Routed?
      && CommandPalettes.OnAction(p, ChangeMode(Search)).palette.active
  {
  }

  /** Suspend wins over quit; a quit requested while suspended takes effect after the queued resume. */
  lemma QuitWaitsForResume(g: Globals)
    requires g.shouldSuspend && g.shouldQuit
    ensures EndOfIteration(g) == SuspendThenResume
    ensures EndOfIteration(ReduceAction(g, Resume).globals) == Stop
  {
  }

  /** Only a quit flag ends the loop, and an app-event Quit sets it just as the Quit action does. */
  lemma QuitEventStops(g: Globals)
    requires !g.shouldSuspend
    ensures EndOfIteration(ReduceEvent(g, AppEvent.Quit)) == Stop
    ensures EndOfIteration(ReduceAction(g, Action.Quit).globals) == Stop
    ensures !g.shouldQuit ==> EndOfIteration(ReduceAction(g, Action.Tick).globals) == KeepRunning
  {
  }

  /** The action each terminal event other than a key is turned into. */
  function TerminalAction(e: Tui.TuiEvent): (r: seq<Action>)
    ensures e.Key? || e.Other? <==> r == []
  {
    match e
    case Quit => [Action.Quit]
    case Tick => [Action.Tick]
    case Render => [Action.Render]
    case Resize(w, h) => [Action.Resize(w, h)]
    case Key(_) => []
    case Other => []
  }

  /** The headline of the breaker's panic message. */
  const LOOP_DETECTED: string := "INFINITE ACTION LOOP DETECTED!"

  /** How one iteration ends: nothing was ready, the loop goes on, it exits, or a component panicked. */
  datatype Iteration = Waiting | Continued | Exited | Crashed(reason: string)

  // ---------------------------------------------------------------------
  // The application
  // ---------------------------------------------------------------------

  class App {
    var mode: Mode
    var shouldQuit: bool
    var shouldSuspend: bool
    var lastTickKeyEvents: seq<KeyEvent>
    const keybindings: KeyBindings
    /** `action_tx` and `action_rx` are the two ends of this channel. */
    const actionTx: ActionChannel
    const eventTx: EventChannel
    /** The components, in registration order. */
    const pullRequestList: PullRequestLists.PullRequestList
    const commandPalette: CommandPalettes.CommandPalette
    const circuitBreaker: CircuitBreakers.CircuitBreaker
    const notifications: Notifications.Notifications
    const keystrokes: Keystrokes.Keystrokes

    function Current(): (r: Globals)
      reads this
    {
      Globals(mode, shouldQuit, shouldSuspend, lastTickKeyEvents)
    }

    /** The components send on the app's channels. */
    predicate Valid()
      reads this, pullRequestList, commandPalette
    {
      && pullRequestList.commandTx == actionTx
      && commandPalette.actionTx == actionTx
      && commandPalette.eventTx == eventTx
      && commandPalette.Valid()
    }

    /** `App::new` followed by the handler registration at the start of `run`. */
    constructor (bindings: KeyBindings, now: int)
      ensures Valid() && Current() == START && keybindings == bindings
      ensures actionTx.queue == [] && eventTx.queue == []
      ensures pullRequestList.State() == PullRequestLists.INITIAL && pullRequestList.tasks == []
      ensures commandPalette.State() == CommandPalettes.INITIAL
      ensures circuitBreaker.timestamps == map[] && circuitBreaker.excluded == CircuitBreakers.DEFAULT_EXCLUDED
      ensures notifications.notifications == [] && keystrokes.State() == Keystrokes.History([], now)
    {
      var atx := new ActionChannel();
      var etx := new EventChannel();
      var list := new PullRequestLists.PullRequestList();
      list.RegisterActionHandler(atx);
      var palette := new CommandPalettes.CommandPalette();
      palette.RegisterEventHandler(etx);
      palette.RegisterActionHandler(atx);
      var breaker := new CircuitBreakers.CircuitBreaker();
      var log := new Notifications.Notifications();
      var keys := new Keystrokes.Keystrokes(now);
      mode := DEFAULT_MODE;
      shouldQuit := false;
      shouldSuspend := false;
      lastTickKeyEvents := [];
      keybindings := bindings;
      actionTx := atx;
      eventTx := etx;
      pullRequestList := list;
      commandPalette := palette;
      circuitBreaker := breaker;
      notifications := log;
      keystrokes := keys;
    }

    /** The key branch in Command mode: the key goes to the palette alone. */
    method KeyToPalette(key: KeyEvent)
      requires Valid()
      modifies commandPalette, actionTx, eventTx
      ensures Valid()
      ensures var pal := CommandPalettes.OnKey(old(commandPalette.State()), key);
        && commandPalette.State() == pal.palette
        && actionTx.queue == old(actionTx.queue) + pal.actions
        && eventTx.queue == old(eventTx.queue) + pal.events
    {
      var ignored := commandPalette.HandleKeyEvents(key);
    }

    /** The keymap step of the key branch in the modes other than Command. */
    method KeyToKeymap(key: KeyEvent)
      requires mode != Command
      modifies this, actionTx
      ensures var route := RouteKey(old(mode), keybindings, old(lastTickKeyEvents), key);
        && mode == old(mode) && shouldQuit == old(shouldQuit) && shouldSuspend == old(shouldSuspend)
        && lastTickKeyEvents == route.buffer
        && actionTx.queue == old(actionTx.queue) + Sent(route.send)
    {
      var route := RouteKey(mode, keybindings, lastTickKeyEvents, key);
      if route.send.Some? {
        actionTx.Send(route.send.value);
      }
      lastTickKeyEvents := route.buffer;
    }

    /**
     * `handle_events` of each component for a key: only the palette and the
     * keystroke echo react to keys, and the echo's `Render` is sent by the loop.
     */
    method KeyToComponents(key: KeyEvent, now: int)
      requires Valid()
      modifies actionTx, eventTx, commandPalette, keystrokes
      ensures Valid()
      ensures var pal := CommandPalettes.OnKey(old(commandPalette.State()), key);
        && commandPalette.State() == pal.palette
        && actionTx.queue == old(actionTx.queue) + pal.actions + [Action.Render]
        && eventTx.queue == old(eventTx.queue) + pal.events
        && keystrokes.State() == Keystrokes.Press(old(keystrokes.State()), key, now)
    {
      var ignored := commandPalette.HandleKeyEvents(key);
      var echo := keystrokes.HandleKeyEvents(key, now);
      actionTx.Send(echo.value);
    }

    /** The key branch. `skipped` is the `continue` taken in Command mode, which also skips the end-of-iteration check. */
    method HandleKey(key: KeyEvent, now: int) returns (skipped: bool)
      requires Valid()
      modifies this, actionTx, eventTx, commandPalette, keystrokes
      ensures Valid()
      ensures mode == old(mode) && shouldQuit == old(shouldQuit) && shouldSuspend == old(shouldSuspend)
      ensures skipped <==> old(mode) == Command
      ensures var pal := CommandPalettes.OnKey(old(commandPalette.State()), key);
        && commandPalette.State() == pal.palette
        && eventTx.queue == old(eventTx.queue) + pal.events
      ensures old(mode) == Command ==>
        && lastTickKeyEvents == old(lastTickKeyEvents)
        && actionTx.queue == old(actionTx.queue) + CommandPalettes.OnKey(old(commandPalette.State()), key).actions
        && keystrokes.State() == old(keystrokes.State())
      ensures old(mode) != Command ==>
        var route := RouteKey(old(mode), keybindings, old(lastTickKeyEvents), key);
        && lastTickKeyEvents == route.buffer
        && actionTx.queue == old(actionTx.queue) + Sent(route.send) + CommandPalettes.OnKey(old(commandPalette.State()), key).actions + [Action.Render]
        && keystrokes.State() == Keystrokes.Press(old(keystrokes.State()), key, now)
    {
      if mode == Command {
        KeyToPalette(key);
        return true;
      }
      KeyToKeymap(key);
      KeyToComponents(key, now);
      skipped := false;
    }

    /** The terminal branch. */
    method HandleTerminalEvent(e: Tui.TuiEvent, now: int) returns (skipped: bool)
      requires Valid()
      modifies this, actionTx, eventTx, commandPalette, keystrokes
      ensures Valid()
      ensures !e.Key? ==>
        && !skipped && Current() == old(Current())
        && actionTx.queue == old(actionTx.queue) + TerminalAction(e)
        && eventTx.queue == old(eventTx.queue)
        && commandPalette.State() == old(commandPalette.State()) && keystrokes.State() == old(keystrokes.State())
      ensures e.Key? ==> skipped == (old(mode) == Command)
      ensures e.Key? ==> mode == old(mode) && shouldQuit == old(shouldQuit) && shouldSuspend == old(shouldSuspend)
    {
      match e {
        case Quit => actionTx.Send(Action.Quit);
        case Tick => actionTx.Send(Action.Tick);
        case Render => actionTx.Send(Action.Render);
        case Resize(w, h) => actionTx.Send(Action.Resize(w, h));
        case Key(k) =>
          skipped := HandleKey(k, now);
          return;
        case Other =>
      }
      skipped := false;
    }

    /** The action branch's own `match`. */
    method ApplyGlobalEffects(a: Action)
      modifies this, actionTx, eventTx
      ensures var r := ReduceAction(old(Current()), a);
        && Current() == r.globals
        && actionTx.queue == old(actionTx.queue) + r.actions
        && eventTx.queue == old(eventTx.queue) + r.events
    {
      match a {
        case Tick => lastTickKeyEvents := [];
        case Quit => shouldQuit := true;
        case Suspend => shouldSuspend := true;
        case Resume => shouldSuspend := false;
        case Error(e) => actionTx.Send(Notify(Notification.Error(ERROR_PREFIX + e)));
        case ChangeMode(m) =>
          mode := m;
          eventTx.Send(ModeChanged(m));
        case OpenCommandPalette =>
          actionTx.Send(ChangeMode(Command));
          actionTx.Send(Action.Render);
        case OpenSearchPalette =>
          actionTx.Send(ChangeMode(Search));
          actionTx.Send(Action.Render);
        case _ =>
      }
    }

    /** `handle_action` on every component in registration order; a panic stops the broadcast. */
    method Broadcast(a: Action, now: int) returns (outcome: Outcome)
      requires Valid()
      modifies actionTx, eventTx, pullRequestList, pullRequestList.infoOverlay, commandPalette, circuitBreaker, notifications, keystrokes
      ensures Valid()
      ensures var listStep := PullRequestLists.UpdateStep(old(pullRequestList.State()), a, true);
        && (listStep.outcome.Panic? ==> outcome == listStep.outcome)
        && (listStep.outcome.Done? ==>
              && pullRequestList.State() == listStep.state
              && pullRequestList.tasks == old(pullRequestList.tasks) + listStep.tasks
              && var pal := CommandPalettes.OnAction(old(commandPalette.State()), a);
                 && commandPalette.State() == pal.palette
                 && actionTx.queue == old(actionTx.queue) + listStep.actions + pal.actions
                 && eventTx.queue == old(eventTx.queue) + pal.events
                 && var verdict := CircuitBreakers.Check(old(circuitBreaker.timestamps), circuitBreaker.excluded, Name(a), now);
                    && circuitBreaker.timestamps == verdict.timestamps
                    && (verdict.tripped <==> outcome.Panic?)
                    && (!verdict.tripped ==>
                          && notifications.notifications == Notifications.Record(old(notifications.notifications), a, now)
                          && keystrokes.State() == Keystrokes.UpdateHistory(old(keystrokes.State()), a, now)))
    {
      outcome := pullRequestList.Update(a);
      if outcome.Panic? {
        return;
      }
      commandPalette.HandleAction(a);
      var tripped := circuitBreaker.HandleAction(a, now);
      if tripped {
        return Panic(LOOP_DETECTED);
      }
      var ignoredLog := notifications.Update(a, now);
      var ignoredEcho := keystrokes.Update(a, now);
      outcome := Done(None);
    }

    /** The app-event branch; the components' `handle_app_event` does nothing. */
    method HandleAppEvent(e: AppEvent)
      modifies this
      ensures Current() == ReduceEvent(old(Current()), e)
    {
      match e {
        case ModeChanged(m) => mode := m;
        case Quit => shouldQuit := true;
        case _ =>
      }
    }

    /** The check after the branch; answers whether the loop is left. */
    method EndIteration() returns (exit: bool)
      modifies actionTx
      ensures var end := EndOfIteration(Current());
        && (exit <==> end == Stop)
        && actionTx.queue == old(actionTx.queue) + (if end == SuspendThenResume then [Resume] else [])
    {
      exit := false;
      if shouldSuspend {
        actionTx.Send(Resume);
      } else if shouldQuit {
        exit := true;
      }
    }

    /** One turn of the loop; `terminal` is what the terminal has ready, if anything. */
    method RunOnce(terminal: Option<Tui.TuiEvent>, now: int) returns (r: Iteration)
      requires Valid()
      modifies this, actionTx, eventTx, pullRequestList, pullRequestList.infoOverlay, commandPalette, circuitBreaker, notifications, keystrokes
      ensures Valid()
      ensures var source := Choose(terminal.Some?, old(actionTx.queue) != [], old(eventTx.queue) != []);
        && (r == Waiting <==> source == None)
        && (r.Crashed? ==> source == Some(ActionSource))
        && (r == Exited ==> shouldQuit && !shouldSuspend)
        && (source == Some(EventSource) ==>
              Current() == ReduceEvent(old(Current()), old(eventTx.queue)[0])
              && (r == Exited <==> EndOfIteration(Current()) == Stop))
        && (source == Some(TerminalSource) && terminal.value.Key? && old(mode) == Command ==>
              r == Continued && shouldSuspend == old(shouldSuspend) && shouldQuit == old(shouldQuit))
    {
      var source := Choose(terminal.Some?, actionTx.queue != [], eventTx.queue != []);
      match source {
        case None => return Waiting;
        case Some(TerminalSource) =>
          var skipped := HandleTerminalEvent(terminal.value, now);
          if skipped {
            return Continued;
          }
        case Some(ActionSource) =>
          var a := actionTx.Receive();
          ApplyGlobalEffects(a.value);
          var outcome := Broadcast(a.value, now);
          if outcome.Panic? {
            return Crashed(outcome.reason);
          }
        case Some(EventSource) =>
          var e := eventTx.Receive();
          HandleAppEvent(e.value);
      }
      var exit := EndIteration();
      r := if exit then Exited else Continued;
    }
  }
}
