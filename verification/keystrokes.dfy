/**
 * The keystroke echo: the keys pressed recently, cleared by the first tick
 * that comes at least a second after the last key.
 */
module Keystrokes {
  import opened Wrappers
  import opened Actions
  import opened Keys

  /** `COOLDOWN`, one second, in milliseconds. */
  const COOLDOWN: int := 1000

  datatype History = History(keys: seq<KeyEvent>, timer: int)

  /** `handle_key_events`: remember the key and restart the timer. */
  function Press(h: History, key: KeyEvent, now: int): (r: History)
    ensures r.keys == h.keys + [key] && r.timer == now
  {
    History(h.keys + [key], now)
  }

  /** `app_tick`: forget the keys once the cooldown has passed since the last one. */
  function TickAt(h: History, now: int): (r: History)
    ensures r.timer == h.timer
    ensures r.keys == [] <==> h.keys == [] || now - h.timer >= COOLDOWN
    ensures r.keys != [] ==> r.keys == h.keys
  {
    if now - h.timer >= COOLDOWN then h.(keys := []) else h
  }

  /** `update`: only Tick does anything. */
  function UpdateHistory(h: History, a: Action, now: int): (r: History)
    ensures a != Tick ==> r == h
  {
    if a == Tick then TickAt(h, now) else h
  }

  /** A tick within the cooldown of the last key keeps it (and everything before it); one past the cooldown forgets everything. */
  lemma TickAfterPress(h: History, key: KeyEvent, pressed: int, now: int)
    ensures now - pressed < COOLDOWN ==> UpdateHistory(Press(h, key, pressed), Tick, now).keys == h.keys + [key]
    ensures now - pressed >= COOLDOWN ==> UpdateHistory(Press(h, key, pressed), Tick, now).keys == []
  {
  }

  /** Ticking is idempotent at a given time. */
  lemma TickIdempotent(h: History, now: int)
    ensures TickAt(TickAt(h, now), now) == TickAt(h, now)
  {
  }

  class Keystrokes {
    var timer: int
    var keyHistory: seq<KeyEvent>

    function State(): (r: History)
      reads this
    {
      History(keyHistory, timer)
    }

    /** `Keystrokes::new()` at time `now`. */
    constructor (now: int)
      ensures State() == History([], now)
    {
      timer := now;
      keyHistory := [];
    }

    method HandleKeyEvents(key: KeyEvent, now: int) returns (next: Option<Action>)
      modifies this
      ensures State() == Press(old(State()), key, now) && next == Some(Render)
    {
      keyHistory := keyHistory + [key];
      timer := now;
      next := Some(Render);
    }

    method Update(a: Action, now: int) returns (next: Option<Action>)
      modifies this
      ensures State() == UpdateHistory(old(State()), a, now) && next == None
    {
      if a == Tick && now - timer >= COOLDOWN {
        keyHistory := [];
      }
      next := None;
    }
  }
}
