/**
 * The command palette: a one-line text buffer with a cursor, shown while the
 * program is in Command or Search mode. Typing edits the buffer, Enter
 * submits the trimmed buffer as a command or a search, Esc abandons it.
 *
 * The cursor counts characters (see the UTF-8 finding below for what the
 * byte-indexed original does instead).
 */
module CommandPalettes {
  import opened Wrappers
  import opened Text
  import opened Actions
  import opened Events
  import opened Keys
  import opened Channels

  datatype Palette = Palette(buffer: string, cursor: nat, mode: Mode, active: bool)

  /** The cursor never passes the end of the buffer. */
  predicate Valid(p: Palette) {
    p.cursor <= |p.buffer|
  }

  /** `CommandPalette::new()`. */
  const INITIAL: Palette := Palette("", 0, DEFAULT_MODE, false)

  /** What one call does: the new palette and what it sends on each channel. */
  datatype Reaction = Reaction(palette: Palette, actions: seq<Action>, events: seq<AppEvent>)

  /** `String::insert` at a character position. */
  function InsertAt(s: string, i: nat, c: char): (r: string)
    requires i <= |s|
    ensures |r| == |s| + 1 && r[i] == c
    ensures r[..i] == s[..i] && r[i + 1..] == s[i..]
  {
    s[..i] + [c] + s[i..]
  }

  /** `String::remove` at a character position. */
  function RemoveAt(s: string, i: nat): (r: string)
    requires i < |s|
    ensures |r| == |s| - 1
    ensures r[..i] == s[..i] && r[i..] == s[i + 1..]
  {
    s[..i] + s[i + 1..]
  }

  /** Removing what was just inserted gives the original text back. */
  lemma RemoveInserted(s: string, i: nat, c: char)
    requires i <= |s|
    ensures RemoveAt(InsertAt(s, i, c), i) == s
  {
    var t := InsertAt(s, i, c);
    assert RemoveAt(t, i) == t[..i] + t[i + 1..];
    assert s == s[..i] + s[i..];
  }

  /** What an edit announces: a redraw, and in Search mode the live search for the trimmed text. */
  function EditActions(p: Palette): (r: seq<Action>)
    ensures |r| >= 1 && r[0] == Render
    ensures p.mode == Search <==> |r| == 2
    ensures |r| == 2 ==> r[1] == ExecuteSearch(Trim(p.buffer))
  {
    [Render] + if p.mode == Search then [ExecuteSearch(Trim(p.buffer))] else []
  }

  /** `show`. */
  function OnShow(p: Palette): (r: Reaction)
    ensures r.palette == p.(active := true)
    ensures r.events == [CommandPaletteOpened] && r.actions == [Render]
  {
    Reaction(p.(active := true), [Render], [CommandPaletteOpened])
  }

  /** `hide`. */
  function OnHide(p: Palette): (r: Reaction)
    ensures r.palette == p.(active := false)
    ensures r.events == [CommandPaletteClosed] && r.actions == []
  {
    Reaction(p.(active := false), [], [CommandPaletteClosed])
  }

  /** What Enter submits in each mode. */
  function Submission(mode: Mode, command: string): (r: seq<Action>)
    ensures mode == Command <==> r == [ExecuteCommand(command)]
    ensures mode == Search <==> r == [ExecuteSearch(command)]
    ensures mode == Normal <==> r == []
  {
    match mode
    case Command => [ExecuteCommand(command)]
    case Search => [ExecuteSearch(command)]
    case Normal => []
  }

  /** `handle_key_events` (it always answers `None`; everything it does is in the reaction). */
  function OnKey(p: Palette, key: KeyEvent): (r: Reaction)
    requires Valid(p)
    ensures Valid(r.palette)
    ensures r.palette.mode == p.mode
    ensures !p.active ==> r == Reaction(p, [], [])
    ensures r.events != [] ==> p.active && key.code == KeyCode.Enter
  {
    if !p.active then Reaction(p, [], [])
    else match key.code
      case Char(c) =>
        var q := p.(buffer := InsertAt(p.buffer, p.cursor, c), cursor := p.cursor + 1);
        Reaction(q, EditActions(q), [])
      case Esc =>
        Reaction(p.(buffer := "", cursor := 0), [ChangeMode(Normal), Render], [])
      case Enter =>
        var command := Trim(p.buffer);
        var hidden := OnHide(p.(buffer := "", cursor := 0));
        Reaction(hidden.palette, Submission(p.mode, command) + [ChangeMode(Normal), Render], hidden.events)
      case Backspace =>
        if p.cursor > 0 then
          var q := p.(buffer := RemoveAt(p.buffer, p.cursor - 1), cursor := p.cursor - 1);
          Reaction(q, EditActions(q), [])
        else Reaction(p, [], [])
      case OtherKey(_) => Reaction(p, [], [])
  }

  /** `handle_action`: only `ChangeMode` matters; it shows the palette for Command and Search and hides it otherwise. */
  function OnAction(p: Palette, a: Action): (r: Reaction)
    ensures r.palette.buffer == p.buffer && r.palette.cursor == p.cursor
    ensures a.ChangeMode? ==> r.palette.mode == a.mode && (r.palette.active <==> a.mode != Normal)
    ensures !a.ChangeMode? ==> r == Reaction(p, [], [])
  {
    match a
    case ChangeMode(m) =>
      var q := p.(mode := m);
      (match m
       case Command => OnShow(q)
       case Search => OnShow(q)
       case Normal => OnHide(q))
    case _ => Reaction(p, [], [])
  }

  // ---------------------------------------------------------------------
  // Properties of the palette
  // ---------------------------------------------------------------------

  /** Typing a character inserts it at the cursor and moves the cursor past it. */
  lemma TypeInsertsAtCursor(p: Palette, c: char, modifiers: nat)
    requires Valid(p) && p.active
    ensures var r := OnKey(p, KeyEvent(Char(c), modifiers));
      r.palette.buffer == p.buffer[..p.cursor] + [c] + p.buffer[p.cursor..]
      && r.palette.cursor == p.cursor + 1
      && r.actions == EditActions(r.palette)
  {
  }

  /** Backspace right after typing a character undoes it. */
  lemma BackspaceUndoesType(p: Palette, c: char, m1: nat, m2: nat)
    requires Valid(p) && p.active
    ensures var typed := OnKey(p, KeyEvent(Char(c), m1)).palette;
      OnKey(typed, KeyEvent(Backspace, m2)).palette == p
  {
    var typed := OnKey(p, KeyEvent(Char(c), m1)).palette;
    RemoveInserted(p.buffer, p.cursor, c);
    assert OnKey(typed, KeyEvent(Backspace, m2)).palette.buffer == p.buffer;
  }

  /** Backspace at the start of the buffer does nothing and sends nothing. */
  lemma BackspaceAtStartIsNoop(p: Palette, modifiers: nat)
    requires Valid(p) && p.cursor == 0
    ensures OnKey(p, KeyEvent(Backspace, modifiers)) == Reaction(p, [], [])
  {
  }

  /** Feeding the characters of `s` to the palette one key at a time. */
  function TypeAll(p: Palette, s: string): (r: Reaction)
    requires Valid(p)
    ensures Valid(r.palette)
    decreases |s|
  {
    if s == [] then Reaction(p, [], [])
    else
      var first := OnKey(p, KeyEvent(Char(s[0]), 0));
      var rest := TypeAll(first.palette, s[1..]);
      Reaction(rest.palette, first.actions + rest.actions, first.events + rest.events)
  }

  /** Typing a string into an open palette splices it in at the cursor and keeps mode and visibility. */
  lemma {:induction false} TypeAllSplices(p: Palette, s: string)
    requires Valid(p) && p.active
    ensures var r := TypeAll(p, s).palette;
      r.buffer == p.buffer[..p.cursor] + s + p.buffer[p.cursor..]
      && r.cursor == p.cursor + |s| && r.mode == p.mode && r.active
    decreases |s|
  {
    if s == [] {
      assert p.buffer == p.buffer[..p.cursor] + p.buffer[p.cursor..];
    } else {
      var first := OnKey(p, KeyEvent(Char(s[0]), 0)).palette;
      TypedChar(p, s[0]);
      assert TypeAll(p, s).palette == TypeAll(first, s[1..]).palette;
      TypeAllSplices(first, s[1..]);
      SpliceStep(p.buffer, p.cursor, s[0], s[1..]);
      assert [s[0]] + s[1..] == s;
    }
  }

  /** A typed character lands at the cursor, which moves past it. */
  lemma TypedChar(p: Palette, c: char)
    requires Valid(p) && p.active
    ensures OnKey(p, KeyEvent(Char(c), 0)).palette == p.(buffer := InsertAt(p.buffer, p.cursor, c), cursor := p.cursor + 1)
  {
  }

  /** One more typed character extends the spliced text by that character. */
  lemma SpliceStep(b: string, i: nat, c: char, rest: string)
    requires i <= |b|
    ensures var f := InsertAt(b, i, c);
      f[..i + 1] + rest + f[i + 1..] == b[..i] + ([c] + rest) + b[i..]
  {
    var f := InsertAt(b, i, c);
    assert f[..i + 1] == b[..i] + [c];
  }

  /**
   * The Command-mode round trip: entering Command mode on a fresh palette,
   * typing `s` and pressing Enter submits exactly `Trim(s)`, then asks for
   * Normal mode and a redraw, and leaves the palette closed and empty.
   */
  lemma CommandRoundTrip(s: string, modifiers: nat)
    ensures
      var shown := OnAction(INITIAL, ChangeMode(Command));
      var typed := TypeAll(shown.palette, s);
      var entered := OnKey(typed.palette, KeyEvent(KeyCode.Enter, modifiers));
      shown.events == [CommandPaletteOpened]
      && entered.actions == [ExecuteCommand(Trim(s)), ChangeMode(Normal), Render]
      && entered.events == [CommandPaletteClosed]
      && entered.palette == Palette("", 0, Command, false)
  {
    var shown := OnAction(INITIAL, ChangeMode(Command));
    assert shown.events == [CommandPaletteOpened];
    TypeIntoFreshPalette(s);
    var typed := TypeAll(shown.palette, s).palette;
    EnterSubmits(typed, modifiers);
    assert Submission(Command, Trim(s)) + [ChangeMode(Normal), Render] == [ExecuteCommand(Trim(s)), ChangeMode(Normal), Render];
  }

  /** Typing into the palette that Command mode opens leaves exactly the typed text, with the cursor at its end. */
  lemma TypeIntoFreshPalette(s: string)
    ensures TypeAll(OnAction(INITIAL, ChangeMode(Command)).palette, s).palette == Palette(s, |s|, Command, true)
  {
    var start := Palette("", 0, Command, true);
    assert OnAction(INITIAL, ChangeMode(Command)).palette == start;
    TypeAllSplices(start, s);
    assert ""[..0] + s + ""[0..] == s;
  }

  /** Enter submits the trimmed text for the palette's mode, asks for Normal mode and a redraw, and closes the emptied palette. */
  lemma EnterSubmits(p: Palette, modifiers: nat)
    requires Valid(p) && p.active
    ensures OnKey(p, KeyEvent(KeyCode.Enter, modifiers))
         == Reaction(Palette("", 0, p.mode, false), Submission(p.mode, Trim(p.buffer)) + [ChangeMode(Normal), Render], [CommandPaletteClosed])
  {
  }

  /** Esc abandons the text and asks for Normal mode, which then hides the palette. */
  lemma EscapeThenNormalHides(p: Palette, modifiers: nat)
    requires Valid(p) && p.active
    ensures
      var escaped := OnKey(p, KeyEvent(Esc, modifiers));
      var normal := OnAction(escaped.palette, escaped.actions[0]);
      escaped.palette == p.(buffer := "", cursor := 0)
      && escaped.actions == [ChangeMode(Normal), Render]
      && normal.palette == Palette("", 0, Normal, false)
      && normal.events == [CommandPaletteClosed]
  {
  }

  /** Reopening the palette keeps whatever text was left in it. */
  lemma ShowKeepsBuffer(p: Palette, m: Mode)
    requires m != Normal
    ensures OnAction(p, ChangeMode(m)).palette == p.(mode := m, active := true)
  {
  }

  // ---------------------------------------------------------------------
  // The byte-indexed cursor of the original
  // ---------------------------------------------------------------------

  /** The number of bytes UTF-8 uses for a character. */
  function Utf8Width(c: char): (w: nat)
    ensures 1 <= w <= 4
    ensures w == 1 <==> (c as int) < 0x80
  {
    if (c as int) < 0x80 then 1
    else if (c as int) < 0x800 then 2
    else if (c as int) < 0x1_0000 then 3
    else 4
  }

  function ByteLength(s: string): (n: nat)
    ensures n >= |s|
  {
    if s == [] then 0 else Utf8Width(s[0]) + ByteLength(s[1..])
  }

  /** The character position that starts at byte offset `b`, or None when `b` is not a character boundary. */
  function CharIndexAtByte(s: string, b: nat): (r: Option<nat>)
    ensures r.Some? ==> r.value <= |s| && ByteLength(s[..r.value]) == b
    decreases |s|
  {
    if b == 0 then Some(0)
    else if s == [] || b < Utf8Width(s[0]) then None
    else match CharIndexAtByte(s[1..], b - Utf8Width(s[0]))
      case None => None
      case Some(k) =>
        assert s[..k + 1][1..] == s[1..][..k];
        Some(k + 1)
  }

  predicate Ascii(s: string) {
    forall i :: 0 <= i < |s| ==> (s[i] as int) < 0x80
  }

  /**
   * The `Char` branch as written: `String::insert` takes a byte offset and
   * panics (None here) when it is not a character boundary, while the cursor
   * advances by one per character.
   */
  function TypeAsWritten(buffer: string, cursor: nat, c: char): (r: Option<(string, nat)>)
    ensures r.Some? ==> r.value.1 == cursor + 1
  {
    match CharIndexAtByte(buffer, cursor)
    case None => None
    case Some(k) => Some((InsertAt(buffer, k, c), cursor + 1))
  }

  lemma {:induction false} AsciiIndexIsByteIndex(s: string, i: nat)
    requires Ascii(s) && i <= |s|
    ensures CharIndexAtByte(s, i) == Some(i)
    decreases |s|
  {
    if i > 0 {
      assert Ascii(s[1..]);
      AsciiIndexIsByteIndex(s[1..], i - 1);
    }
  }

  /** On ASCII text bytes and characters coincide, and the original inserts where the character model does. */
  lemma AsciiTypingAgrees(buffer: string, cursor: nat, c: char)
    requires Ascii(buffer) && cursor <= |buffer|
    ensures TypeAsWritten(buffer, cursor, c) == Some((InsertAt(buffer, cursor, c), cursor + 1))
  {
    AsciiIndexIsByteIndex(buffer, cursor);
  }

  /** Typing 'é' (two bytes) into an empty palette leaves the cursor at byte 1, inside the 'é'; the next character panics. */
  lemma NonAsciiTypingPanics()
    ensures TypeAsWritten("", 0, '\U{E9}') == Some(("\U{E9}", 1))
    ensures TypeAsWritten("\U{E9}", 1, 'a') == None
  {
    assert InsertAt("", 0, '\U{E9}') == "\U{E9}";
    assert Utf8Width('\U{E9}') == 2;
  }

  /** The character model never panics: every keystroke keeps the cursor on a character of the buffer. */
  lemma TypingNeverLosesCursor(p: Palette, key: KeyEvent)
    requires Valid(p)
    ensures Valid(OnKey(p, key).palette)
    ensures OnKey(p, key).palette.cursor <= |OnKey(p, key).palette.buffer|
  {
  }

  // ---------------------------------------------------------------------
  // The component
  // ---------------------------------------------------------------------

  class CommandPalette {
    var buffer: string
    var cursor: nat
    var mode: Mode
    var active: bool
    var actionTx: ActionChannel?
    var eventTx: EventChannel?

    function State(): (r: Palette)
      reads this
    {
      Palette(buffer, cursor, mode, active)
    }

    predicate Valid()
      reads this
    {
      cursor <= |buffer|
    }

    constructor ()
      ensures State() == INITIAL && Valid()
      ensures actionTx == null && eventTx == null
    {
      buffer := "";
      cursor := 0;
      mode := DEFAULT_MODE;
      active := false;
      actionTx := null;
      eventTx := null;
    }

    /** `with_action_handler` / `register_action_handler`. */
    method RegisterActionHandler(tx: ActionChannel)
      modifies this
      ensures actionTx == tx && eventTx == old(eventTx) && State() == old(State())
    {
      actionTx := tx;
    }

    /** `with_event_handler` / `register_event_handler`. */
    method RegisterEventHandler(tx: EventChannel)
      modifies this
      ensures eventTx == tx && actionTx == old(actionTx) && State() == old(State())
    {
      eventTx := tx;
    }

    predicate IsActive()
      reads this
    {
      active
    }

    method Show()
      modifies this, actionTx, eventTx
      ensures State() == OnShow(old(State())).palette
      ensures actionTx == old(actionTx) && eventTx == old(eventTx)
      ensures actionTx != null ==> actionTx.queue == old(actionTx.queue) + OnShow(old(State())).actions
      ensures eventTx != null ==> eventTx.queue == old(eventTx.queue) + OnShow(old(State())).events
    {
      active := true;
      if eventTx != null {
        eventTx.Send(CommandPaletteOpened);
      }
      if actionTx != null {
        actionTx.Send(Render);
      }
    }

    method Hide()
      modifies this, eventTx
      ensures State() == OnHide(old(State())).palette
      ensures actionTx == old(actionTx) && eventTx == old(eventTx)
      ensures eventTx != null ==> eventTx.queue == old(eventTx.queue) + OnHide(old(State())).events
    {
      active := false;
      if eventTx != null {
        eventTx.Send(CommandPaletteClosed);
      }
    }

    method SendEditActions()
      requires actionTx != null
      modifies actionTx
      ensures actionTx.queue == old(actionTx.queue) + EditActions(State())
    {
      var command := Trim(buffer);
      actionTx.Send(Render);
      if mode == Search {
        actionTx.Send(ExecuteSearch(command));
        assert EditActions(State()) == [Render, ExecuteSearch(command)];
      } else {
        assert EditActions(State()) == [Render];
      }
    }

    method HandleKeyEvents(key: KeyEvent) returns (r: Option<Action>)
      requires Valid()
      modifies this, actionTx, eventTx
      ensures r == None && Valid()
      ensures State() == OnKey(old(State()), key).palette
      ensures actionTx == old(actionTx) && eventTx == old(eventTx)
      ensures actionTx != null ==> actionTx.queue == old(actionTx.queue) + OnKey(old(State()), key).actions
      ensures eventTx != null ==> eventTx.queue == old(eventTx.queue) + OnKey(old(State()), key).events
    {
      r := None;
      if !IsActive() {
        return;
      }
      match key.code {
        case Char(c) => InsertChar(key);
        case Esc => Cancel(key);
        case Enter => Submit(key);
        case Backspace => DeleteBack(key);
        case OtherKey(_) =>
      }
    }

    /** The `Char` branch. */
    method InsertChar(key: KeyEvent)
      requires Valid() && active && key.code.Char?
      modifies this, actionTx
      ensures Valid() && State() == OnKey(old(State()), key).palette
      ensures actionTx == old(actionTx) && eventTx == old(eventTx)
      ensures actionTx != null ==> actionTx.queue == old(actionTx.queue) + OnKey(old(State()), key).actions
      ensures OnKey(old(State()), key).events == []
    {
      buffer := InsertAt(buffer, cursor, key.code.c);
      cursor := cursor + 1;
      if actionTx != null {
        SendEditActions();
      }
    }

    /** The `Esc` branch. */
    method Cancel(key: KeyEvent)
      requires Valid() && active && key.code.Esc?
      modifies this, actionTx
      ensures Valid() && State() == OnKey(old(State()), key).palette
      ensures actionTx == old(actionTx) && eventTx == old(eventTx)
      ensures actionTx != null ==> actionTx.queue == old(actionTx.queue) + OnKey(old(State()), key).actions
      ensures OnKey(old(State()), key).events == []
    {
      buffer := "";
      cursor := 0;
      if actionTx != null {
        actionTx.Send(ChangeMode(Normal));
        actionTx.Send(Render);
      }
    }

    /** The `Enter` branch. */
    method Submit(key: KeyEvent)
      requires Valid() && active && key.code.Enter?
      modifies this, actionTx, eventTx
      ensures Valid() && State() == OnKey(old(State()), key).palette
      ensures actionTx == old(actionTx) && eventTx == old(eventTx)
      ensures actionTx != null ==> actionTx.queue == old(actionTx.queue) + OnKey(old(State()), key).actions
      ensures eventTx != null ==> eventTx.queue == old(eventTx.queue) + OnKey(old(State()), key).events
    {
      ghost var before := State();
      assert OnKey(before, key) == Reaction(Palette("", 0, mode, false),
        Submission(mode, Trim(buffer)) + [ChangeMode(Normal), Render], [CommandPaletteClosed]);
      var command := Trim(buffer);
      buffer := "";
      cursor := 0;
      Hide();
      if actionTx != null {
        SendSubmission(command);
      }
    }

    /** What Enter sends once the palette is hidden: the submission, then Normal mode and a redraw. */
    method SendSubmission(command: string)
      requires actionTx != null
      modifies actionTx
      ensures actionTx.queue == old(actionTx.queue) + Submission(mode, command) + [ChangeMode(Normal), Render]
    {
      match mode {
        case Command => actionTx.Send(ExecuteCommand(command));
        case Search => actionTx.Send(ExecuteSearch(command));
        case Normal =>
      }
      actionTx.Send(ChangeMode(Normal));
      actionTx.Send(Render);
    }

    /** The `Backspace` branch. */
    method DeleteBack(key: KeyEvent)
      requires Valid() && active && key.code.Backspace?
      modifies this, actionTx
      ensures Valid() && State() == OnKey(old(State()), key).palette
      ensures actionTx == old(actionTx) && eventTx == old(eventTx)
      ensures actionTx != null ==> actionTx.queue == old(actionTx.queue) + OnKey(old(State()), key).actions
      ensures OnKey(old(State()), key).events == []
    {
      if cursor > 0 {
        buffer := RemoveAt(buffer, cursor - 1);
        cursor := cursor - 1;
        if actionTx != null {
          SendEditActions();
        }
      }
    }

    method HandleAction(a: Action)
      modifies this, actionTx, eventTx
      ensures State() == OnAction(old(State()), a).palette
      ensures actionTx == old(actionTx) && eventTx == old(eventTx)
      ensures actionTx != null ==> actionTx.queue == old(actionTx.queue) + OnAction(old(State()), a).actions
      ensures eventTx != null ==> eventTx.queue == old(eventTx.queue) + OnAction(old(State()), a).events
    {
      ghost var before := State();
      match a {
        case ChangeMode(m) =>
          mode := m;
          ghost var q := before.(mode := m);
          assert State() == q;
          if m == Command || m == Search {
            assert OnAction(before, a) == OnShow(q);
            Show();
          } else {
            assert OnAction(before, a) == OnHide(q);
            Hide();
          }
        case _ =>
          assert OnAction(before, a) == Reaction(before, [], []);
      }
    }
  }
}
