# ghtui-rs, modelled in Dafny

ghtui-rs is a terminal user interface for GitHub pull requests. One event
loop (`App::run`) serves three sources. The terminal comes first, then the
action channel, then the app-event channel. Each iteration does one of three things:

- it routes a key to the command palette or through the keymap, which can
  resolve multi-key combinations buffered until the next tick;
- it applies an action's global effects (mode, quit and suspend flags) and
  broadcasts the action to the components in registration order;
- it reacts to an app event.

The components are:

- the pull-request table with its details overlay;
- the command palette, a one-line editor shown in Command and Search mode;
- a circuit breaker that stops the program when one kind of action floods
  the channel;
- an append-only notification log;
- a keystroke echo that clears itself a second after the last key;
- a generic thing list and a placeholder repository list;
- two providers that hold pagination bookkeeping and placeholder data.

The model keeps the program's own structure. The value entities are Dafny
datatypes:

- the pull request, with its GraphQL conversions, its key order, its
  per-column order, its table row and its filter;
- actions, events, keys and modes.

Each component whose fields the program updates in place is a Dafny
`class` with those fields. Each method is proved against a pure function of
the old state, such as `UpdateStep`, `OnKey`, `Check` or `LoadMoreEffect`.
The lemmas then state what the program promises about those functions.

Conventions used throughout:

- Channel sends are appends to a channel object's `queue`.
- Spawned background work is recorded as a list of tasks or requests.
- Clock readings are integer milliseconds passed in as `now`.
- A `panic!`, an `unwrap` of `None` or a `todo!()` is an explicit
  `Panic` outcome (for the breaker, a `tripped` result).
- The saturating `usize` and `u16` operations (`saturating_sub`,
  `saturating_add`) are written out with their bounds. Plain `+` and `-`
  that could overflow or underflow are not: see "Left out".

Where the program's own tests disagree with its code, the model follows the code:

- `PullRequestList` `test_up_down_actions` expects `Down` on a list that
  was never loaded to answer `Render`. The code answers nothing, because the
  `Render` is inside `if let Some(..)` (src/components/pull_request_list.rs:246-251).
  `PullRequestLists.DownMovesTowardsBottom` states the code's behaviour
  for a missing list. On a present but empty list the code underflows
  (see "Findings"); the model takes the corrected step there, and
  `PullRequestLists.DownAgainstSource` states where the two agree.
- `PullRequestList` `test_dismiss_info_overlay_actions` expects `Info` on a
  list that was never loaded to open the overlay. The code opens it only when
  a pull request is selected (src/components/pull_request_list.rs:284-290).
  See `PullRequestLists.InfoWithoutSelectionDoesNothing`.
- `ThingList` `test_dismiss_info_overlay_actions` expects the overlay flag
  to be set. No `ThingList` code ever sets it (src/components/thing_list.rs:149-178).
  See `ThingLists.UpdateStep`.
- The `Action` enum in src/action.rs and the `AppEvent` enum in src/event.rs
  lack variants the other files send and match. `Actions.Action` and
  `Events.AppEvent` declare every variant that is used.

## Model

| member | source | states |
|---|---|---|
| Actions.Name | src/action.rs:11 | The derived display name is one of the variant names, never empty. |
| Actions.NameIdentifiesKind | src/action.rs:11-42 | The derived display name identifies the variant: two actions have the same name exactly when they are the same variant, whatever their payloads. |
| Actions.ActionNamesDistinct | src/action.rs:11-42 | No two variants share a display name. |
| Channels.ActionChannel.Send | src/app.rs:44 | Sending on the unbounded action channel appends the action at the back. |
| Channels.ActionChannel.Receive | src/app.rs:135 | Receiving takes the oldest action, or nothing from an empty channel. |
| Channels.EventChannel.Send | src/app.rs:45 | Sending on the unbounded event channel appends the event at the back. |
| Channels.EventChannel.Receive | src/app.rs:192 | Receiving takes the oldest event, or nothing from an empty channel. |
| Dispatch.Choose | src/app.rs:95-97 | Biased select: a ready terminal event always wins, then a ready action, then a ready app event; with nothing ready nothing is chosen. Both directions of each case. |
| Dispatch.RouteKey | src/app.rs:103-124 | In Command mode, and only then, a key goes to the palette. Otherwise the buffer is either kept or grows by exactly that key. |
| Dispatch.SingleKeyBindingFires | src/app.rs:111-113 | A key bound on its own sends its action immediately and leaves the multi-key buffer untouched. |
| Dispatch.UnboundKeyIsBuffered | src/app.rs:114-122 | Any other key is appended to the buffer. The bound action is sent exactly when the whole buffer is bound, and the buffer is not cleared on a match. |
| Dispatch.NoKeymapNoAction | src/app.rs:111-124 | With no keymap for the current mode a key sends nothing and leaves the buffer unchanged. |
| Dispatch.UnmatchedKeysAccumulate | src/app.rs:114-122 | A run of keys that never completes a binding piles up in the buffer in order and sends nothing. |
| Dispatch.RouteKeys | src/app.rs:103-124 | Outside Command mode, a run of keys leaves the buffer at least as long as before and grown by at most one key per key, and sends at most one action per key. |
| Dispatch.RouteKeysSplit | src/app.rs:103-124 | Routing a run of keys is routing the first key, then the rest from the buffer it leaves. |
| Dispatch.SingleKeyShadowsCombos | src/app.rs:111-117 | A key bound alone shadows every longer binding that starts with it: pressing it twice sends its own action twice and buffers nothing. |
| Dispatch.RouteComboPair | src/app.rs:114-122 | With neither key bound alone, two keys route as the buffer grown by both, sending the binding of the whole buffer after each key. |
| Dispatch.ComboFiresOncePerTick | src/app.rs:117-122 | A two-key combination sends its action once. Typed again before a tick, the buffer has grown past it and nothing is sent. |
| Dispatch.ReduceAction | src/app.rs:139-186 | Only Tick, Quit, Suspend, Resume and ChangeMode change the loop's state. Only ChangeMode emits an app event. The quit flag is set exactly by Quit and never cleared. |
| Dispatch.ReduceEvent | src/app.rs:194-203 | Only ModeChanged and Quit change the loop's state. The key buffer and the suspend flag are never touched. |
| Dispatch.EndOfIteration | src/app.rs:211-220 | Suspend takes precedence over quit; the loop stops exactly when quit is set and suspend is not. |
| Dispatch.TickStartsFreshCombination | src/app.rs:140-142 | Tick empties the key buffer and changes nothing else, so the next key starts a fresh combination that can fire again. |
| Dispatch.ErrorBecomesNotification | src/app.rs:167-169 | `Error(e)` sends exactly one `Notify(Error("Error: " + e))` and changes nothing else. |
| Dispatch.OpenPaletteExpands | src/app.rs:175-183 | OpenCommandPalette and OpenSearchPalette send ChangeMode(Command or Search) followed by Render, in that order, and change nothing else. |
| Dispatch.ModeChangeEchoIsIdempotent | src/app.rs:170-174 | ChangeMode(m) sets the mode and emits ModeChanged(m). Handling that echo leaves the loop state as it is. |
| Dispatch.OpenCommandPaletteActivates | src/app.rs:175-178 | Once the queued mode change is handled, the loop is in Command mode, keys go only to the palette, and the palette is shown. |
| Dispatch.EscapeReturnsToKeymap | src/components/command_palette.rs:97-105 | Esc in the palette asks for Normal mode. Handling that request hides the palette and sends keys back through the keymap. |
| Dispatch.SearchModeKeepsKeymap | src/app.rs:104-111 | In Search mode the palette is shown but keys are still routed through the keymap. |
| Dispatch.QuitWaitsForResume | src/app.rs:211-217 | With both flags set the iteration suspends; after the queued Resume is handled, the loop stops. |
| Dispatch.QuitEventStops | src/app.rs:199-201 | An app-event Quit ends the loop like the Quit action does; a Tick alone never ends it. |
| Dispatch.TerminalAction | src/app.rs:98-102 | Quit, Tick, Render and Resize each send one action; a terminal event sends none exactly when it is a key or a kind the loop ignores. |
| Dispatch.App.constructor | src/app.rs:41-84 | A new app is in Normal mode with both flags clear, an empty buffer and empty channels. Its components start at their defaults, with the list and the palette registered on the app's channels. |
| Dispatch.App.KeyToPalette | src/app.rs:104-110 | In Command mode the key goes to the palette alone. The palette and both channels change exactly as `OnKey` says. |
| Dispatch.App.KeyToKeymap | src/app.rs:111-124 | The keymap step leaves the mode and flags unchanged, sets the buffer `RouteKey` computes and sends its action, if any. |
| Dispatch.App.KeyToComponents | src/app.rs:128-132 | The key reaches the palette's and the echo's `handle_key_events`; the echo's Render is sent. |
| Dispatch.App.HandleKey | src/app.rs:103-132 | The key branch. In Command mode the `continue` is taken: the buffer, the echo and the rest of the queue are untouched. Otherwise the keymap's action, the palette's sends and the echo's Render are queued in that order. |
| Dispatch.App.HandleTerminalEvent | src/app.rs:97-132 | A non-key terminal event only queues its action. A key never changes the mode or the flags. |
| Dispatch.App.ApplyGlobalEffects | src/app.rs:139-186 | The loop state and both channels change exactly as `ReduceAction` says. |
| Dispatch.App.Broadcast | src/app.rs:187-189 | The components see the action in registration order: list, palette, breaker, log, echo. The list is `update`d with a sender. A list panic, or a trip of the breaker, stops the broadcast. |
| Dispatch.App.HandleAppEvent | src/app.rs:192-207 | The loop state changes exactly as `ReduceEvent` says. |
| Dispatch.App.EndIteration | src/app.rs:211-220 | A Resume is queued exactly when suspended, and the loop is left exactly when `EndOfIteration` says Stop. |
| Dispatch.App.RunOnce | src/app.rs:94-220 | One iteration serves the source `Choose` picks, or waits when none is ready. Only an action can crash it in the model, because the palette indexes characters; in the program a non-ASCII key typed into the palette can also panic (see "Findings"). It exits only with quit set and suspend clear. A Command-mode key continues without the end check. |
| CircuitBreakers.DropExpired | src/circuit_breaker.rs:76-82 | Popping expired fronts drops only timestamps older than the cutoff and stops at the first one that is not. |
| CircuitBreakers.Cleanup | src/circuit_breaker.rs:72-87 | After the cleanup, every stored queue is non-empty and its front is at or after the cutoff. |
| CircuitBreakers.CleanupLookup | src/circuit_breaker.rs:72-87 | Reading a name after the cleanup reads its old queue with the expired front popped. A removed empty queue reads as empty. |
| CircuitBreakers.Record | src/circuit_breaker.rs:55-56 | `entry(..).or_insert_with(..).push_back(now)` appends `now` to the name's queue and adds the name. |
| CircuitBreakers.RecordOthers | src/circuit_breaker.rs:55-56 | Recording one name leaves every other name's queue alone. |
| CircuitBreakers.Check | src/circuit_breaker.rs:41-69 | An excluded name changes nothing and never trips, not even the cleanup of other names. Otherwise it trips exactly when the name's cleaned queue plus `now` holds more than 50 timestamps. |
| CircuitBreakers.CleanupKeepsWindowOnly | src/circuit_breaker.rs:72-87 | When the queues were non-empty and oldest-first, every timestamp left after the cleanup, not just the front, lies at or after the cutoff. |
| CircuitBreakers.CheckKeepsWellFormed | src/circuit_breaker.rs:55-56 | With a clock that does not run backwards, every queue stays non-empty and oldest-first, and no timestamp is newer than `now`. |
| CircuitBreakers.VerdictDependsOnKindOnly | src/circuit_breaker.rs:42 | Tracking is keyed by the display name: two actions of the same variant get the same verdict whatever their payloads. |
| CircuitBreakers.DropExpiredOfSorted | src/circuit_breaker.rs:76-82 | On an oldest-first queue, popping the expired front keeps exactly the timestamps inside the window. |
| CircuitBreakers.ReplayIsWindow | src/circuit_breaker.rs:41-87 | After any chronological run of counted checks, a name's queue is exactly the times of its checks within 2 s of the latest check. |
| CircuitBreakers.TripsIffWindowOverfull | src/circuit_breaker.rs:11-12 | A check trips exactly when, counting itself, its action was checked more than 50 times in the 2 s before it: the 50th check in a window does not trip and the 51st does. |
| CircuitBreakers.ExcludedIsIgnored | src/circuit_breaker.rs:44-47 | An excluded action never trips and leaves the breaker's state unchanged. |
| CircuitBreakers.CircuitBreaker.constructor | src/circuit_breaker.rs:20-31 | No timestamps, and exactly the names Render, Tick, Up, Down, Left and Right excluded. |
| CircuitBreakers.CircuitBreaker.ExcludeAction | src/circuit_breaker.rs:33-35 | Adds the action's name to the exclusion set; the timestamps are untouched. |
| CircuitBreakers.CircuitBreaker.IncludeAction | src/circuit_breaker.rs:37-39 | Removes the action's name from the exclusion set; the timestamps are untouched. |
| CircuitBreakers.CircuitBreaker.CleanupOldTimestamps | src/circuit_breaker.rs:72-87 | The map becomes `Cleanup` of the old map at `now - 2 s`. |
| CircuitBreakers.CircuitBreaker.DropExpiredFronts | src/circuit_breaker.rs:75-83 | The `values_mut` loop pops each queue's expired front and keeps every key. |
| CircuitBreakers.CircuitBreaker.RetainNonEmpty | src/circuit_breaker.rs:86 | `retain` keeps exactly the names whose queues are non-empty, with those queues unchanged. |
| CircuitBreakers.CircuitBreaker.CheckAction | src/circuit_breaker.rs:41-69 | The new timestamps and the tripped result are exactly `Check` of the old map; the exclusion set is untouched. |
| CircuitBreakers.CircuitBreaker.HandleAction | src/circuit_breaker.rs:91-94 | Every dispatched action is checked. |
| CommandPalettes.InsertAt | src/components/command_palette.rs:86 | Inserting puts the character at the position and keeps the text on either side of it. |
| CommandPalettes.RemoveAt | src/components/command_palette.rs:123 | Removing drops the character at the position and keeps the text on either side of it. |
| CommandPalettes.RemoveInserted | src/components/command_palette.rs:86-123 | Removing at the position just inserted at gives the original text back. |
| CommandPalettes.EditActions | src/components/command_palette.rs:89-95 | An edit sends Render, followed by `ExecuteSearch(trim(buffer))` exactly when the palette is in Search mode. |
| CommandPalettes.OnShow | src/components/command_palette.rs:36-45 | `show` sets the palette active, emits CommandPaletteOpened and sends Render; the buffer is kept. |
| CommandPalettes.OnHide | src/components/command_palette.rs:47-53 | `hide` clears the active flag and emits CommandPaletteClosed. |
| CommandPalettes.Submission | src/components/command_palette.rs:112-116 | Enter submits ExecuteCommand in Command mode, ExecuteSearch in Search mode and nothing in Normal mode. Both directions of each case. |
| CommandPalettes.OnKey | src/components/command_palette.rs:80-137 | An inactive palette ignores keys. No key changes the mode or moves the cursor past the buffer. Only Enter on an active palette emits an app event. |
| CommandPalettes.OnAction | src/components/command_palette.rs:139-153 | Only ChangeMode matters. It sets the mode, and the palette is active afterwards exactly when the mode is Command or Search. The text and the cursor are kept. |
| CommandPalettes.TypeInsertsAtCursor | src/components/command_palette.rs:85-95 | A character is inserted at the cursor, the cursor moves past it, and the edit actions are sent. |
| CommandPalettes.BackspaceUndoesType | src/components/command_palette.rs:121-133 | Backspace right after typing a character restores the buffer and the cursor. |
| CommandPalettes.BackspaceAtStartIsNoop | src/components/command_palette.rs:121-122 | Backspace at cursor 0 changes nothing and sends nothing. |
| CommandPalettes.TypeAll | src/components/command_palette.rs:85-95 | Typing a string key by key keeps the cursor within the buffer. |
| CommandPalettes.TypeAllSplices | src/components/command_palette.rs:85-87 | Typing a string into an open palette splices it in at the cursor, moves the cursor past it, and keeps the mode and visibility. |
| CommandPalettes.CommandRoundTrip | src/components/command_palette.rs:106-120 | On a fresh palette: Command mode, then typing `s`, then Enter sends exactly ExecuteCommand(trim(s)), ChangeMode(Normal), Render. The palette ends closed with an empty buffer at cursor 0. |
| CommandPalettes.EnterSubmits | src/components/command_palette.rs:106-120 | Enter on an open palette submits the trimmed text for its mode, then sends ChangeMode(Normal) and Render, and leaves the palette closed with an empty buffer at cursor 0. |
| CommandPalettes.TypeIntoFreshPalette | src/components/command_palette.rs:85-87 | Typing into the palette that Command mode opens leaves exactly the typed text with the cursor at its end. |
| CommandPalettes.EscapeThenNormalHides | src/components/command_palette.rs:97-105 | Esc empties the buffer, resets the cursor and sends ChangeMode(Normal) then Render without hiding the palette itself. Handling that ChangeMode hides it. |
| CommandPalettes.ShowKeepsBuffer | src/components/command_palette.rs:139-146 | Reopening the palette keeps the text left in it. |
| CommandPalettes.TypeAsWritten | src/components/command_palette.rs:85-87 | The Char branch as written: insertion at a byte offset that panics off a character boundary, while the cursor counts characters. |
| CommandPalettes.AsciiTypingAgrees | src/components/command_palette.rs:85-87 | On ASCII text the as-written insertion is the character-indexed one. |
| CommandPalettes.NonAsciiTypingPanics | src/components/command_palette.rs:85-87 | Typing 'é' and then any character panics: the second insert is at byte 1, inside the 'é'. |
| CommandPalettes.TypingNeverLosesCursor | src/components/command_palette.rs:80-137 | In the character-indexed palette every key keeps the cursor on the buffer, so no insert or remove can fail. This holds by construction: it follows from `OnKey` keeping `Valid`. |
| CommandPalettes.CommandPalette.constructor | src/components/command_palette.rs:27-34 | Empty buffer, cursor 0, Normal mode, inactive, no senders. |
| CommandPalettes.CommandPalette.RegisterActionHandler | src/components/command_palette.rs:55-70 | Sets the action sender and nothing else. |
| CommandPalettes.CommandPalette.RegisterEventHandler | src/components/command_palette.rs:60-78 | Sets the event sender and nothing else. |
| CommandPalettes.CommandPalette.Show | src/components/command_palette.rs:36-45 | State and sends as `OnShow` says, each on a channel only if its sender is set. |
| CommandPalettes.CommandPalette.Hide | src/components/command_palette.rs:47-53 | State and sends as `OnHide` says. |
| CommandPalettes.CommandPalette.HandleKeyEvents | src/components/command_palette.rs:80-137 | Answers None. The new state and both channels' sends are exactly `OnKey`'s. |
| CommandPalettes.CommandPalette.InsertChar | src/components/command_palette.rs:85-96 | The Char branch, as `OnKey` says. |
| CommandPalettes.CommandPalette.Cancel | src/components/command_palette.rs:97-105 | The Esc branch, as `OnKey` says. |
| CommandPalettes.CommandPalette.Submit | src/components/command_palette.rs:106-120 | The Enter branch, as `OnKey` says, including `hide`'s event. |
| CommandPalettes.CommandPalette.DeleteBack | src/components/command_palette.rs:121-133 | The Backspace branch, as `OnKey` says. |
| CommandPalettes.CommandPalette.SendEditActions | src/components/command_palette.rs:89-95 | After an edit the action channel gets Render, then in Search mode the trimmed buffer as a search; exactly `EditActions` of the state. |
| CommandPalettes.CommandPalette.SendSubmission | src/components/command_palette.rs:111-119 | Enter sends the command or search for the mode (nothing for Normal), then ChangeMode(Normal) and Render, appended in that order. |
| CommandPalettes.CommandPalette.HandleAction | src/components/command_palette.rs:139-153 | The new state and sends are exactly `OnAction`'s. |
| InfoOverlays.ScrollStaysInRange | src/components/pull_request_info_overlay.rs:61-86 | Up and PageUp never raise the offset and stay at 0 once there; Down and PageDn never lower it and stay at 65535 once there. |
| InfoOverlays.PageDownThenUpReturns | src/components/pull_request_info_overlay.rs:70-75 | A page down then a page up returns to the same offset unless the bottom was hit. |
| InfoOverlays.DownThenUpReturns | src/components/pull_request_info_overlay.rs:64-69 | A line down then a line up returns to the same offset below 65535. |
| InfoOverlays.Scroll | src/components/pull_request_info_overlay.rs:61-86 | Up/PageUp subtract 1/10 and Down/PageDn add 1/10, saturating in `u16`; every other action leaves the offset alone. |
| InfoOverlays.PullRequestInfoOverlay.constructor | src/components/pull_request_info_overlay.rs:37-39 | No pull request, offset 0, no sender. |
| InfoOverlays.PullRequestInfoOverlay.WithPullRequest | src/components/pull_request_info_overlay.rs:41-44 | Holds the given pull request at offset 0. |
| InfoOverlays.PullRequestInfoOverlay.RegisterActionHandler | src/components/pull_request_info_overlay.rs:51-54 | Sets the sender only. |
| InfoOverlays.PullRequestInfoOverlay.Update | src/components/pull_request_info_overlay.rs:61-86 | Answers None. Only the offset changes, to `Scroll` of the old offset. |
| Keystrokes.Press | src/components/keystrokes.rs:59-63 | A key is appended to the history and the timer restarts at `now`. |
| Keystrokes.TickAt | src/components/keystrokes.rs:29-36 | A tick empties the history exactly when it was empty or at least the 1000 ms cooldown has passed since the timer. Otherwise the history is unchanged. |
| Keystrokes.UpdateHistory | src/components/keystrokes.rs:44-49 | Every action but Tick leaves the history alone. |
| Keystrokes.TickAfterPress | src/components/keystrokes.rs:29-36 | A tick within the cooldown of the last key keeps every key; a tick after it forgets all of them. |
| Keystrokes.TickIdempotent | src/components/keystrokes.rs:29-36 | Two ticks at the same time are one. |
| Keystrokes.Keystrokes.constructor | src/components/keystrokes.rs:25-27 | Empty history, timer at the creation time. |
| Keystrokes.Keystrokes.HandleKeyEvents | src/components/keystrokes.rs:59-63 | The state becomes `Press` of the old state, and the answer is Render. |
| Keystrokes.Keystrokes.Update | src/components/keystrokes.rs:44-49 | The state becomes `UpdateHistory` of the old state, and the answer is None. |
| Navigation.ClampedDownAsWritten | src/components/pull_request_list.rs:248 | `min(row + 1, len - 1)` with overflow checks panics exactly on an empty list or at the top of `usize`. Otherwise it gives a row inside the list. |
| Navigation.DownOnEmptyListPanics | src/components/pull_request_list.rs:248 | Down on a present but empty list panics (`0 - 1` on `usize`), whatever the selected row. |
| Navigation.ClampedDown | src/components/thing_list.rs:159 | The corrected step: one row further, never past the last row, row 0 on an empty list. |
| Navigation.ClampedDownAgrees | src/components/pull_request_list.rs:248 | Wherever the original does not panic, the corrected step agrees with it. |
| Navigation.DownThenUpReturns | src/components/pull_request_list.rs:242-248 | Down then Up returns to the starting row unless it was the last one. |
| Navigation.DownKeepsSelectionInList | src/components/thing_list.rs:157-160 | A selection inside the list stays inside it and moves by at most one row. |
| Notifications.Entry | src/components/notifications.rs:37-48 | Notify(n) logs n; Up and Down log Info of the action's display name; everything else logs nothing. |
| Notifications.Record | src/components/notifications.rs:37-50 | The log only grows, by at most one entry, exactly when the action logs something. The new entry is at the end, stamped with `now`. |
| Notifications.RecordAllAppends | src/components/notifications.rs:37-50 | After any run of actions the log is the old log followed by the run's entries in arrival order: nothing is lost or reordered. |
| Notifications.NavigationNames | src/components/notifications.rs:44-46 | Up and Down show up as "Up" and "Down". |
| Notifications.Notifications.constructor | src/components/notifications.rs:12-15 | An empty log. |
| Notifications.Notifications.Update | src/components/notifications.rs:37-50 | The log becomes `Record` of the old log at `now`, and the answer is None. |
| Orderings.CmpInt | src/components/pull_request.rs:150 | Integer comparison: Less, Equal or Greater exactly as `<`, `==` or `>`. |
| Orderings.CmpString | src/components/pull_request.rs:148 | Equal strings compare Equal; a proper prefix compares Less than the longer string, and the longer string Greater. |
| Orderings.CmpStringEqualIff | src/components/pull_request.rs:148 | String comparison is Equal exactly on equal strings. |
| Orderings.CmpStringReverse | src/components/pull_request.rs:148 | String comparison is antisymmetric. |
| Orderings.CmpStringTransitive | src/components/pull_request.rs:148 | String comparison is transitive, strictly so if one step is strict. |
| PullRequests.StateConversion | src/things/pull_request.rs:96-116 | OPEN, CLOSED and MERGED convert one-to-one; any other value becomes Open. |
| PullRequests.ReviewStateConversion | src/things/pull_request.rs:118-142 | The five named review states convert one-to-one; any other value becomes Commented. |
| PullRequests.DefaultsAgainstFallbacks | src/components/pull_request.rs:74-138 | The default state (Open) is the unknown-state fallback; the default review state (Pending) is not the unknown-review fallback (Commented). |
| PullRequests.EqIgnoresOtherFields | src/things/pull_request.rs:144-150 | Two pull requests with the same number and repository are equal and compare Equal, whatever their other fields. |
| PullRequests.Eq | src/things/pull_request.rs:144-150 | Equality is on number and repository, and holds exactly when `cmp` says Equal. |
| PullRequests.Cmp | src/things/pull_request.rs:152-160 | Different repositories order by repository and never compare Equal; within one repository pull requests order by number. |
| PullRequests.PartialCmp | src/things/pull_request.rs:162-166 | `partial_cmp` is always `Some(cmp)`, and is `Some(Equal)` exactly when `eq` holds. |
| PullRequests.CmpReverse | src/things/pull_request.rs:152-160 | `cmp` is antisymmetric. |
| PullRequests.CmpTransitive | src/things/pull_request.rs:152-160 | `cmp` is transitive, strictly so if one step is strict: with antisymmetry, a total order on (repository, number). |
| PullRequests.CmpByColumn | src/things/pull_request.rs:322-338 | Every column index from 8 up compares by title. Column 6 says Equal exactly when additions plus deletions agree. |
| PullRequests.CmpByColumnReverse | src/things/pull_request.rs:324-334 | Every column comparison is antisymmetric. |
| PullRequests.CmpByColumnTransitive | src/things/pull_request.rs:324-334 | Every column comparison is transitive, strictly so if one step is strict. |
| PullRequests.CmpByColumnReflexive | src/things/pull_request.rs:324-334 | Every pull request compares Equal to itself on every column. |
| PullRequests.CmpByColumnEqualSubstitutes | src/components/pull_request_list.rs:194-206 | Pull requests that tie on a column compare the same way against any third. |
| PullRequests.StateLabel | src/things/pull_request.rs:284-294 | DRAFT exactly for an open draft, OPEN for an open non-draft, CLOSED and MERGED for those states. |
| PullRequests.StateFromQuery | src/things/pull_request.rs:96-105 | OPEN and any unknown state become Open; CLOSED becomes Closed and MERGED Merged, and nothing else does. |
| PullRequests.ReviewStateFromQuery | src/things/pull_request.rs:118-129 | Each known review state maps to its namesake; an unknown one becomes Commented, and nothing else does. |
| PullRequests.Header | src/things/pull_request.rs:318-320 | The header has one title per sortable column plus "Reviews" last. |
| PullRequests.Row | src/things/pull_request.rs:272-312 | The row has as many cells as the header has titles, and the reviews cell comes last. |
| PullRequests.RowMatchesHeader | src/things/pull_request.rs:272-320 | The header and the row both have 9 entries; the repository cell sits under "Repository" and the state label under "State". |
| PullRequests.AsUsize | src/things/pull_request.rs:190 | `n as usize` is the identity on 0 up to 2^64 - 1 and always lands in `usize`. |
| PullRequests.ConvertReviews | src/things/pull_request.rs:203-213 | The review list converts exactly when every edge, node and author is present, one review per edge in order. |
| PullRequests.FromQueryNode | src/things/pull_request.rs:187-224 | The full-query conversion succeeds exactly when the author and the reviews unwrap. It keeps the url, body, branch, repository, state and number, with no comments. |
| PullRequests.FromSummaryNode | src/things/pull_request.rs:226-262 | The summary conversion succeeds under the same unwraps. It leaves url, base branch, body and comments empty and the file count 0. |
| PullRequests.FilterMatches | src/components/pull_request.rs:67-71 | The empty search matches every pull request; each of title, author and repository matches itself. |
| PullRequests.Filter | src/components/pull_request.rs:67-71 | A search matches only if it fits in the title, the author or the repository, so a search longer than all three matches nothing. |
| Sorting.SortByColumnCorrect | src/components/pull_request_list.rs:192-207 | Sorting by a column returns a permutation that is ordered by that column and stable. |
| Sorting.StableSortUnique | src/components/pull_request_list.rs:194 | Two ordered sequences whose ties appear in the same order are equal, so the model agrees with any stable sort. |
| Sorting.SortByColumnIdempotent | src/components/pull_request_list.rs:192-207 | Sorting a sorted list again changes nothing. |
| Sorting.InsertSorted | src/components/pull_request_list.rs:194 | Inserting into an ordered list keeps it ordered. |
| Sorting.InsertMultiset | src/components/pull_request_list.rs:194 | Inserting adds exactly the element. |
| PullRequestLists.SortedList | src/components/pull_request_list.rs:192-207 | No list stays no list; a list becomes a permutation of itself ordered by the column. |
| PullRequestLists.GetCurrentUserStep | src/components/pull_request_list.rs:58-68 | Notifies "Getting current user..." and spawns the user lookup; the state is unchanged. |
| PullRequestLists.RefreshStep | src/components/pull_request_list.rs:210-222 | Without a sender it panics. Without a user name it looks the user up and schedules another Refresh; with one it fetches that user's pull requests. The state never changes. |
| PullRequestLists.NavigateStep | src/components/pull_request_list.rs:240-280 | The first `match` never touches the overlay. Apart from Up and Down it either panics or answers nothing. |
| PullRequestLists.MoveStep | src/components/pull_request_list.rs:242-251 | Up and Down send and spawn nothing and change only the selected row. They answer Render, except Down with no list, which changes nothing and answers None. |
| PullRequestLists.ColumnStep | src/components/pull_request_list.rs:252-259 | Left never raises the column, and Right never lowers it. The list is then sorted by the new column; the answer is None and nothing is sent. |
| PullRequestLists.RequestStep | src/components/pull_request_list.rs:260-276 | Refresh and GetCurrentUser leave the state alone and panic exactly when no sender is registered. |
| PullRequestLists.StoreStep | src/components/pull_request_list.rs:263-279 | The remaining arms send and spawn nothing, keep the row and column, panic exactly on Sort, and change the state only on the two result actions. |
| PullRequestLists.UpdateStep | src/components/pull_request_list.rs:236-297 | With the overlay shown, `update` answers None and sends nothing. With it hidden, the answer, the sends and the spawns are the first `match`'s. |
| PullRequestLists.OverlayStep | src/components/pull_request_list.rs:237-238 | While the overlay is shown, the answer is None, nothing is sent, and the row and list are kept. |
| PullRequestLists.ListStep | src/components/pull_request_list.rs:239-296 | While the overlay is hidden, the answer, sends and spawns are the first `match`'s; the second `match` changes only the overlay. |
| PullRequestLists.Selected | src/components/pull_request_list.rs:285-286 | The selected pull request exists exactly when a list is present and the row is inside it, and it is that row. |
| PullRequestLists.ToggleOverlay | src/components/pull_request_list.rs:283-294 | The second `match` changes only the overlay. |
| PullRequestLists.ShowSelectedState | src/components/pull_request_list.rs:285-290 | With a pull request selected, a fresh overlay on it is installed and visibility flips; otherwise nothing changes. |
| PullRequestLists.UpMovesTowardsTop | src/components/pull_request_list.rs:242-245 | Up moves one row up, stopping at 0, and answers Render; nothing else changes. |
| PullRequestLists.DownMovesTowardsBottom | src/components/pull_request_list.rs:246-251 | Down with a non-empty list moves one row down, stopping at the last row, and answers Render. With no list it changes nothing and answers None. |
| PullRequestLists.DownAgainstSource | src/components/pull_request_list.rs:246-251 | With a list present, Down agrees with `min(selected_row + 1, len - 1)` wherever that expression does not overflow or underflow. Where it would (an empty list, or row `usize::MAX`), the model answers Render at row 0 on an empty list. |
| PullRequestLists.NavigationKeepsSelectionInRange | src/components/pull_request_list.rs:242-251 | Up and Down keep the selection on a row of the list. |
| PullRequestLists.ColumnChangeSorts | src/components/pull_request_list.rs:252-259 | Left and Right move the column with saturation. The list becomes a stable, sorted permutation of itself by the new column. |
| PullRequestLists.OverlayShownFreezesList | src/components/pull_request_list.rs:237-238 | While the overlay is shown, only the overlay scrolls or closes; the list's own fields do not change. |
| PullRequestLists.InfoTwiceRestoresVisibility | src/components/pull_request_list.rs:284-290 | Info on a selected pull request opens the overlay on it at offset 0, and Info again closes it. |
| PullRequestLists.InfoWithoutSelectionDoesNothing | src/components/pull_request_list.rs:284-290 | Info with no pull request selected changes nothing. |
| PullRequestLists.EscapeCloses | src/components/pull_request_list.rs:292 | Escape and Back always leave the overlay hidden. |
| PullRequestLists.ResultsReplace | src/components/pull_request_list.rs:263-277 | GetReposResult replaces the list and GetCurrentUserResult the user name; nothing else changes. |
| PullRequestLists.RefreshRequests | src/components/pull_request_list.rs:260-262 | The Refresh action is `RefreshStep`. |
| PullRequestLists.SortIsUnimplemented | src/components/pull_request_list.rs:278 | Sort reaches `todo!()`. |
| PullRequestLists.AnswerIsRenderOrNothing | src/components/pull_request_list.rs:236-297 | `update` answers Render (for Up and Down only) or nothing. |
| PullRequestLists.PullRequestList.constructor | src/components/pull_request_list.rs:54-56 | Everything at its default, no sender, nothing spawned. |
| PullRequestLists.PullRequestList.RegisterActionHandler | src/components/pull_request_list.rs:226-229 | Sets the sender only. |
| PullRequestLists.PullRequestList.SortPullRequests | src/components/pull_request_list.rs:192-207 | The list becomes `SortedList` of the old one by the selected column; nothing else changes. |
| PullRequestLists.PullRequestList.GetCurrentUser | src/components/pull_request_list.rs:58-68 | Sends and spawns as `GetCurrentUserStep` says. |
| PullRequestLists.PullRequestList.FetchRepos | src/components/pull_request_list.rs:70-86 | Notifies "Fetching pull requests..." and spawns the fetch for the current user name. |
| PullRequestLists.PullRequestList.Refresh | src/components/pull_request_list.rs:210-222 | The outcome, sends and spawns are `RefreshStep`'s. |
| PullRequestLists.PullRequestList.ShowSelected | src/components/pull_request_list.rs:285-290 | The state becomes `ShowSelectedState` of the old one. |
| PullRequestLists.PullRequestList.Navigate | src/components/pull_request_list.rs:240-280 | The first `match`, as `NavigateStep` says. |
| PullRequestLists.PullRequestList.Update | src/components/pull_request_list.rs:236-297 | The new state, outcome, sends and spawns are exactly `UpdateStep`'s. |
| PullRequestLists.PullRequestList.UpdateOverlay | src/components/pull_request_list.rs:237-294 | While the overlay is shown, the overlay scrolls and then the second `match` runs; nothing is sent or spawned. |
| PullRequestLists.PullRequestList.UpdateList | src/components/pull_request_list.rs:239-296 | While the overlay is hidden, the first `match` runs. Up, Down and a panic end the call there; otherwise the second `match` runs and the answer is None. |
| PullRequestLists.PullRequestList.MoveSelection | src/components/pull_request_list.rs:242-251 | The Up and Down arms, with their Render answers. |
| PullRequestLists.PullRequestList.ChangeColumn | src/components/pull_request_list.rs:252-259 | The Left and Right arms: saturating column move, then the sort. |
| PullRequestLists.PullRequestList.Request | src/components/pull_request_list.rs:260-276 | The Refresh and GetCurrentUser arms, with their sends, spawns and the panic on a missing sender. |
| PullRequestLists.PullRequestList.Store | src/components/pull_request_list.rs:263-279 | GetReposResult and GetCurrentUserResult store their payloads, Sort panics, and every other action changes nothing. |
| PullRequestLists.PullRequestList.Toggle | src/components/pull_request_list.rs:283-294 | The second `match`, as `ToggleOverlay` says; nothing is sent or spawned. |
| PullRequestProviders.GetCurrentUserEffect | src/providers/pull_requests.rs:46-62 | Panics exactly without a sender. Otherwise it notifies and requests the user; the state is unchanged. |
| PullRequestProviders.FetchReposEffect | src/providers/pull_requests.rs:64-91 | Panics exactly without a sender, changing nothing. Otherwise it resets the pagination flags and requests a first page of 10. |
| PullRequestProviders.LoadMoreEffect | src/providers/pull_requests.rs:93-120 | Does nothing with no next page or a page on its way. Otherwise it notifies, panics without the event sender, or marks a page on its way and requests `page_size` after the stored cursor. |
| PullRequestProviders.RefreshEffect | src/providers/pull_requests.rs:155-191 | Panics exactly without a sender. With no user name it requests the user and a first page of 10 and leaves the flags; with one it is `fetch_repos`. |
| PullRequestProviders.LoadMoreIsOneShot | src/providers/pull_requests.rs:94-106 | After a successful load a second load does nothing, whatever the senders. |
| PullRequestProviders.FetchReopensLoading | src/providers/pull_requests.rs:70-73 | A fetch clears the guard, so the next load asks for the page after no cursor with the page size. |
| PullRequestProviders.RefreshPagination | src/providers/pull_requests.rs:155-191 | Refresh with a user name resets pagination; without one it leaves the state as it was. |
| PullRequestProviders.NewProvider | src/providers/pull_requests.rs:42-44 | A new provider has page size 20, a next page, nothing loading and no pull requests. Having no sender, it panics on refresh and on load. |
| PullRequestProviders.Commands | src/providers/pull_requests.rs:214-216 | Exactly "pr", "pullrequest", "pull-request", "pull_request", in that order: four distinct command words. |
| PullRequestProviders.PullRequestProvider.constructor | src/providers/pull_requests.rs:42-44 | The state `NEW`, no senders, nothing requested. |
| PullRequestProviders.PullRequestProvider.GetCurrentUser | src/providers/pull_requests.rs:46-62 | As `GetCurrentUserEffect`. |
| PullRequestProviders.PullRequestProvider.FetchRepos | src/providers/pull_requests.rs:64-91 | As `FetchReposEffect`. |
| PullRequestProviders.PullRequestProvider.LoadMorePullRequests | src/providers/pull_requests.rs:93-120 | As `LoadMoreEffect`. |
| PullRequestProviders.PullRequestProvider.Refresh | src/providers/pull_requests.rs:155-191 | As `RefreshEffect`. |
| RandomProviders.ThingsOf | src/providers/random.rs:64-67 | One random thing per stored one. |
| RandomProviders.RandomThingShape | src/providers/random.rs:15-25 | Three header titles for three cells, and no details. |
| RandomProviders.RandomProvider.constructor | src/providers/random.rs:34-36 | No things, no sender. |
| RandomProviders.RandomProvider.RegisterEventHandler | src/providers/random.rs:59-62 | Sets the sender only. |
| RandomProviders.RandomProvider.Provide | src/providers/random.rs:46-57 | Stores exactly three things, then announces ProviderReturnedResult if a sender is set. |
| RandomProviders.RandomProvider.GetThings | src/providers/random.rs:64-67 | As many things as stored, without changing anything. |
| RandomProviders.RandomProvider.Commands | src/providers/random.rs:69-71 | Exactly ["random"]. |
| RepoLists.UpdateRow | src/components/repo_list.rs:47-61 | Up and Down move the row with saturation and answer Render, with no length clamp; anything else changes nothing and answers None. |
| RepoLists.UpDownInverse | src/components/repo_list.rs:50-57 | Up undoes Down below the top of `usize`, and Down undoes Up above 0. |
| RepoLists.RepoList.constructor | src/components/repo_list.rs:24-26 | Row 0, no sender. |
| RepoLists.RepoList.RegisterActionHandler | src/components/repo_list.rs:37-40 | Sets the sender only. |
| RepoLists.RepoList.Update | src/components/repo_list.rs:47-61 | The row and answer are `UpdateRow`'s. |
| Saturating.SaturatingSub | src/components/pull_request_list.rs:243 | `saturating_sub` subtracts exactly when it can and gives 0 otherwise. |
| Saturating.SaturatingAdd | src/components/pull_request_list.rs:257 | `saturating_add` adds exactly when the sum fits and gives the maximum otherwise. |
| Text.Trim | src/components/command_palette.rs:89 | Trimming never lengthens a string, and an all-whitespace string trims to the empty string. |
| Text.Contains | src/components/pull_request.rs:67-71 | A string contains only needles no longer than itself. |
| Text.TrimCharacterization | src/components/command_palette.rs:89 | `trim` returns a contiguous part of its input with only whitespace cut off either side, and neither starts nor ends with whitespace. |
| Text.TrimIdempotent | src/components/command_palette.rs:107 | Trimming twice is trimming once. |
| Text.LeadingWhitespace | src/components/command_palette.rs:89 | The leading whitespace run is all whitespace and maximal. |
| Text.TrailingWhitespace | src/components/command_palette.rs:89 | The trailing whitespace run is all whitespace and maximal. |
| ThingLists.UpdateStep | src/components/thing_list.rs:149-178 | `update` never changes the list, the user name or the overlay flag. |
| ThingLists.DownAgainstSource | src/components/thing_list.rs:152-163 | With a list present, Down agrees with `min(selected_row + 1, len - 1)` wherever that expression does not overflow or underflow, and answers Render at row 0 on an empty list. |
| ThingLists.NavigationRendersAndStaysInRange | src/components/thing_list.rs:152-163 | Up and Down always answer Render, move by at most one row, and keep the selection in range. |
| ThingLists.DownThenUpRestores | src/components/thing_list.rs:152-163 | Down then Up, with a row below the selection, restores the state. |
| ThingLists.ColumnChangePanics | src/components/thing_list.rs:164-171 | Left and Right reach the unimplemented `sort_things`. |
| ThingLists.OtherActionsAreIgnored | src/components/thing_list.rs:172-177 | Every other action changes nothing and answers None. |
| ThingLists.ThingList.constructor | src/components/thing_list.rs:48-53 | Row 0, column 1, no list, no sender. |
| ThingLists.ThingList.RegisterActionHandler | src/components/thing_list.rs:139-142 | Sets the sender only. |
| ThingLists.ThingList.SetThings | src/components/thing_list.rs:69-72 | Replaces the list; nothing else changes. |
| ThingLists.ThingList.Update | src/components/thing_list.rs:149-178 | The state and the outcome are `UpdateStep`'s. |
| Things.Header | src/things/pull_request.rs:318-320 | A pull request's header has 9 titles; a random thing's has 3 (src/providers/random.rs:19-21). |
| Things.Row | src/providers/random.rs:14-17 | Every thing's row has one cell per header title. |
| Things.HeaderFitsRow | src/things/pull_request.rs:272-320 | Every thing's header has one title per cell of its row; a random thing's cells are herp, derp, flerp. |
| Things.Details | src/things/pull_request.rs:314-316 | A pull request's details reach `todo!()`; a random thing has none. |
| Things.CmpByColumnIndex | src/things/pull_request.rs:322-338 | Panics exactly when the other thing is not a pull request. |
| Things.CmpByColumnIndexAntisymmetric | src/things/pull_request.rs:322-334 | Between two pull requests, the comparison is defined, antisymmetric and reflexive on every column. |

## Left out

- Drawing, resizing, theming and the terminal's suspend, enter and exit:
  only the flags around them are kept. The `Resize` and `Render` actions
  reach the components but draw nothing.
- Loading configuration and parsing keybindings (`Config::new`,
  `register_config_handler`, `key_event_to_string`): the keymaps are a
  parameter of the app.
- Network access, GraphQL requests and `tokio::spawn`: spawned work is
  recorded as a task or request, and its later answers arrive as ordinary
  actions. What a task sends after it finishes is not modelled.
- Channel send errors (the `?` after `send`) are not modelled: a channel
  whose receiver is alive never refuses a value.
- `open::that` (launching the browser on Open) has no effect in the model.
- The `Component` trait (src/components/mod.rs) is not part of this model.
  The trait defaults are assumed:
  - `handle_events` of a key calls `handle_key_events`, and any other
    terminal event is answered with None;
  - `handle_action` calls `update` and drops its answer;
  - `handle_app_event` does nothing.
- `PullRequestList::with_event_handler` (used by `App::new`) is not defined
  in the files modelled. The list keeps only its action sender.
- `Instant` arithmetic that could underflow near the clock's origin
  (`now - WINDOW_DURATION`) is taken as plain integer subtraction.
- The circuit breaker's panic message beyond its headline, and other log
  and trace output, are not modelled.
- The echo's cooldown compares elapsed whole milliseconds rather than
  `as_secs_f64` seconds.
- `uuid` generation on pull requests, and the dates' formatting, are not
  modelled (dates are integers).
- `RepoList::fetch_repos` is not modelled: it does not compile (`.await` in
  a non-async function) and nothing calls it.
- `PullRequestProvider::provide` and `get_things` are `todo!()` and are not modelled.
  The `load_more` result is discarded by the original, so `is_loading_more` stays
  set until the next fetch. The model keeps that.
- `ThingList::sort_things` is `todo!()`: Left and Right end in the
  `NOT_IMPLEMENTED` panic after moving the column.
- The review cells' colours and the `Debug` format of pull requests are not
  modelled.
- Navigation.ClampedDownAsWritten: a release build wraps `0 - 1` to
  `usize::MAX` and then selects `row + 1` instead of panicking; only the
  debug-build panic is modelled.
- PullRequestLists.NavigateStep: Down on a present but empty list, or at row `usize::MAX`, takes the
  corrected step (row 0 and Render on the empty list) where a debug build panics at
  src/components/pull_request_list.rs:248; `PullRequestLists.DownAgainstSource` states
  that the two agree everywhere else.
- PullRequestLists.MoveStep: the same corrected Down step as `PullRequestLists.NavigateStep`.
- PullRequestLists.UpdateStep: the same corrected Down step as `PullRequestLists.NavigateStep`.
- PullRequestLists.ListStep: the same corrected Down step as `PullRequestLists.NavigateStep`.
- PullRequestLists.PullRequestList.MoveSelection: the same corrected Down step as `PullRequestLists.NavigateStep`.
- PullRequestLists.PullRequestList.Navigate: the same corrected Down step as `PullRequestLists.NavigateStep`.
- PullRequestLists.PullRequestList.Update: the same corrected Down step as `PullRequestLists.NavigateStep`.
- PullRequestLists.PullRequestList.UpdateList: the same corrected Down step as `PullRequestLists.NavigateStep`.
- PullRequestLists.DownMovesTowardsBottom: its "stopping at the last row" is the corrected
  step's; on an empty list the program panics instead.
- PullRequestLists.NavigationKeepsSelectionInRange: holds for the corrected step; the
  program's `len() - 1` underflow on an empty list is not in it.
- ThingLists.UpdateStep: Down on a present but empty list, or at row `usize::MAX`,
  takes the corrected step (row 0 and Render on the empty list) where a debug build
  panics at src/components/thing_list.rs:159; `ThingLists.DownAgainstSource` states
  that the two agree everywhere else.
- ThingLists.ThingList.Update: the same corrected Down step as `ThingLists.UpdateStep`.
- ThingLists.NavigationRendersAndStaysInRange: "always answer Render" is the corrected
  step's; the program panics on Down over an empty list.
- PullRequests.CmpByColumn: `additions + deletions` is an unbounded sum in the model. The
  program adds two `usize` values (src/things/pull_request.rs:331 and
  src/components/pull_request_list.rs:202), which overflows only past `usize::MAX` lines
  changed.
- Dispatch.RouteKeys: states lengths only; that the old buffer is a prefix of the new one
  follows from `Dispatch.RouteKey` step by step but is not stated for a run of keys.
- Sorting.Insert, Sorting.SortByColumn, Sorting.Peers: these specification functions
  carry no contract of their own. `Sorting.InsertMultiset` and `Sorting.SortByColumnCorrect`
  state what they compute.
- CommandPalettes.TypeAsWritten: the same byte-index problem in
  Backspace's `String::remove` is not modelled separately; the model of the
  palette counts characters throughout.

## Findings

| source | as written | input that shows it | evidently intended | confidence | as-written member | corrected member |
|---|---|---|---|---|---|---|
| src/components/command_palette.rs:86-87 | `String::insert` takes a byte offset, but `cursor_position` is advanced by one per character | in an open palette type 'é' (two bytes), then 'a': the second insert is at byte 1, inside 'é', and panics | the cursor indexes characters, so every key inserts or removes at a character boundary | not executed | CommandPalettes.NonAsciiTypingPanics | CommandPalettes.TypeAllSplices |
| src/components/pull_request_list.rs:248 | `min(selected_row + 1, pull_requests.len() - 1)` underflows when the list is present but empty (src/components/thing_list.rs:159 repeats it) | `GetReposResult([])`, then `Down`: a debug build panics, a release build selects row 1 of an empty list | Down on an empty list keeps row 0 | not executed | Navigation.DownOnEmptyListPanics | Navigation.DownKeepsSelectionInList |
