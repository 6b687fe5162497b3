/**
 * The loop guard: every dispatched action whose display name is not
 * excluded is timestamped; a name seen more than 50 times within the last
 * two seconds trips the breaker, which ends the program.
 *
 * `Instant` is modelled as an integer count of milliseconds on a monotonic
 * clock; the caller passes the reading (`now`) in. The panic becomes the
 * `tripped` result.
 */
module CircuitBreakers {
  import opened Actions

  const MAX_ACTIONS_PER_WINDOW: nat := 50
  /** Two seconds, in milliseconds. */
  const WINDOW_DURATION: int := 2000

  /** The names excluded from counting when the breaker is built. */
  const DEFAULT_EXCLUDED: set<string> :=
    {Name(Render), Name(Tick), Name(Up), Name(Down), Name(Left), Name(Right)}

  type Timestamps = map<string, seq<int>>

  /** The queue stored for a name; a missing entry reads as an empty queue. */
  function Lookup(m: Timestamps, key: string): (r: seq<int>) {
    if key in m then m[key] else []
  }

  predicate Sorted(q: seq<int>) {
    forall i, j :: 0 <= i < j < |q| ==> q[i] <= q[j]
  }

  /** The `while let Some(front) ... pop_front` loop on one queue: it pops the front while it is older than `cutoff`. */
  function DropExpired(q: seq<int>, cutoff: int): (r: seq<int>)
    ensures |r| <= |q|
    ensures r == [] || cutoff <= r[0]
    ensures forall i :: 0 <= i < |q| - |r| ==> q[i] < cutoff
    decreases |q|
  {
    if q != [] && q[0] < cutoff then DropExpired(q[1..], cutoff) else q
  }

  /** `cleanup_old_timestamps`: every queue loses its expired front; emptied queues are removed. */
  function Cleanup(m: Timestamps, cutoff: int): (r: Timestamps)
    ensures forall k :: k in r ==> k in m && r[k] != [] && cutoff <= r[k][0]
  {
    map k | k in m && DropExpired(m[k], cutoff) != [] :: DropExpired(m[k], cutoff)
  }

  /** Reading a name after the cleanup reads its queue with the expired front popped. */
  lemma CleanupLookup(m: Timestamps, cutoff: int, k: string)
    ensures Lookup(Cleanup(m, cutoff), k) == DropExpired(Lookup(m, k), cutoff)
  {
  }

  /** `entry(key).or_insert_with(VecDeque::new).push_back(now)`. */
  function Record(m: Timestamps, key: string, now: int): (r: Timestamps)
    ensures Lookup(r, key) == Lookup(m, key) + [now]
    ensures r.Keys == m.Keys + {key}
  {
    m[key := Lookup(m, key) + [now]]
  }

  /** Recording a check leaves every other name's queue alone. */
  lemma RecordOthers(m: Timestamps, key: string, now: int, k: string)
    requires k != key
    ensures Lookup(Record(m, key, now), k) == Lookup(m, k)
  {
  }

  datatype Verdict = Verdict(timestamps: Timestamps, tripped: bool)

  /** `check_action` on the stored timestamps, for the action named `key` observed at `now`. */
  function Check(m: Timestamps, excluded: set<string>, key: string, now: int): (r: Verdict)
    ensures key in excluded ==> r == Verdict(m, false)
    ensures key !in excluded ==>
      (r.tripped <==> |DropExpired(Lookup(m, key), now - WINDOW_DURATION)| >= MAX_ACTIONS_PER_WINDOW)
    ensures key !in excluded ==> Lookup(r.timestamps, key) == DropExpired(Lookup(m, key), now - WINDOW_DURATION) + [now]
  {
    if key in excluded then Verdict(m, false)
    else
      CleanupLookup(m, now - WINDOW_DURATION, key);
      var after := Record(Cleanup(m, now - WINDOW_DURATION), key, now);
      Verdict(after, |Lookup(after, key)| > MAX_ACTIONS_PER_WINDOW)
  }

  /** Every stored queue is non-empty, oldest first, and no newer than `now`. */
  predicate WellFormed(m: Timestamps, now: int) {
    forall k :: k in m ==>
      m[k] != [] && Sorted(m[k]) && forall i :: 0 <= i < |m[k]| ==> m[k][i] <= now
  }

  /** After the cleanup of well-formed queues, every stored timestamp lies inside the window. */
  lemma CleanupKeepsWindowOnly(m: Timestamps, before: int, cutoff: int)
    requires WellFormed(m, before)
    ensures forall k :: k in Cleanup(m, cutoff) ==>
      forall i :: 0 <= i < |Cleanup(m, cutoff)[k]| ==> cutoff <= Cleanup(m, cutoff)[k][i]
  {
    forall k | k in Cleanup(m, cutoff)
      ensures forall i :: 0 <= i < |Cleanup(m, cutoff)[k]| ==> cutoff <= Cleanup(m, cutoff)[k][i]
    {
      var r := Cleanup(m, cutoff)[k];
      DropExpiredIsSuffix(m[k], cutoff);
      SortedSuffix(m[k], |m[k]| - |r|);
      assert Sorted(r) && r != [] && cutoff <= r[0];
    }
  }

  /** With a clock that does not run backwards, a check keeps the queues well formed. */
  lemma CheckKeepsWellFormed(m: Timestamps, excluded: set<string>, key: string, before: int, now: int)
    requires WellFormed(m, before) && before <= now
    ensures WellFormed(Check(m, excluded, key, now).timestamps, now)
  {
    if key !in excluded {
      var cleaned := Cleanup(m, now - WINDOW_DURATION);
      forall k | k in cleaned
        ensures cleaned[k] != [] && Sorted(cleaned[k]) && forall i :: 0 <= i < |cleaned[k]| ==> cleaned[k][i] <= now
      {
        DropExpiredIsSuffix(m[k], now - WINDOW_DURATION);
        SortedSuffix(m[k], |m[k]| - |cleaned[k]|);
      }
      var after := Record(cleaned, key, now);
      forall k | k in after
        ensures after[k] != [] && Sorted(after[k]) && forall i :: 0 <= i < |after[k]| ==> after[k][i] <= now
      {
        if k != key {
          assert after[k] == cleaned[k];
        }
      }
    }
  }

  /** The breaker counts kinds, not payloads: two actions of one variant get the same verdict. */
  lemma VerdictDependsOnKindOnly(m: Timestamps, excluded: set<string>, a: Action, b: Action, now: int)
    requires KindIndex(a) == KindIndex(b)
    ensures Check(m, excluded, Name(a), now) == Check(m, excluded, Name(b), now)
  {
    NameIdentifiesKind(a, b);
  }

  // ---------------------------------------------------------------------
  // What the stored queues mean: the checks seen so far, inside the window.
  // ---------------------------------------------------------------------

  /** One call of `check_action`: the action's name and the clock reading. */
  datatype Stamp = Stamp(key: string, time: int)

  /** The clock never runs backwards (`Instant::now` is monotonic). */
  predicate Chronological(h: seq<Stamp>) {
    forall i, j :: 0 <= i < j < |h| ==> h[i].time <= h[j].time
  }

  /** The breaker's timestamps after the checks `h`, starting from `new()`. */
  function Replay(h: seq<Stamp>, excluded: set<string>): (r: Timestamps) {
    if h == [] then map[]
    else Check(Replay(h[..|h| - 1], excluded), excluded, h[|h| - 1].key, h[|h| - 1].time).timestamps
  }

  /** The times of the checks of `key` in `h`, oldest first. */
  function TimesOf(h: seq<Stamp>, key: string): (r: seq<int>) {
    if h == [] then []
    else TimesOf(h[..|h| - 1], key) + (if h[|h| - 1].key == key then [h[|h| - 1].time] else [])
  }

  /** The elements of `q` that are not older than `cutoff`, in order. */
  function AtOrAfter(q: seq<int>, cutoff: int): (r: seq<int>) {
    if q == [] then []
    else (if cutoff <= q[0] then [q[0]] else []) + AtOrAfter(q[1..], cutoff)
  }

  lemma {:induction false} AtOrAfterConcat(a: seq<int>, b: seq<int>, cutoff: int)
    ensures AtOrAfter(a + b, cutoff) == AtOrAfter(a, cutoff) + AtOrAfter(b, cutoff)
    decreases |a|
  {
    if a == [] {
      assert a + b == b;
    } else {
      var head := if cutoff <= a[0] then [a[0]] else [];
      assert (a + b)[0] == a[0];
      assert (a + b)[1..] == a[1..] + b;
      assert AtOrAfter(a + b, cutoff) == head + AtOrAfter(a[1..] + b, cutoff);
      AtOrAfterConcat(a[1..], b, cutoff);
      assert AtOrAfter(a, cutoff) == head + AtOrAfter(a[1..], cutoff);
    }
  }

  lemma {:induction false} AtOrAfterTwice(q: seq<int>, first: int, second: int)
    requires first <= second
    ensures AtOrAfter(AtOrAfter(q, first), second) == AtOrAfter(q, second)
    decreases |q|
  {
    if q != [] {
      var head := if first <= q[0] then [q[0]] else [];
      AtOrAfterConcat(head, AtOrAfter(q[1..], first), second);
      AtOrAfterTwice(q[1..], first, second);
      if first <= q[0] {
        assert AtOrAfter(head, second) == (if second <= q[0] then [q[0]] else []) + AtOrAfter([], second);
      }
    }
  }

  lemma {:induction false} AllAtOrAfter(q: seq<int>, cutoff: int)
    requires forall i :: 0 <= i < |q| ==> cutoff <= q[i]
    ensures AtOrAfter(q, cutoff) == q
    decreases |q|
  {
    if q != [] {
      assert forall i :: 0 <= i < |q[1..]| ==> cutoff <= q[1..][i];
      AllAtOrAfter(q[1..], cutoff);
      assert q == [q[0]] + q[1..];
    }
  }

  lemma SortedSuffix(q: seq<int>, k: nat)
    requires Sorted(q) && k <= |q|
    ensures Sorted(q[k..])
  {
  }

  /** On a sorted queue, popping the expired front keeps exactly the unexpired elements. */
  lemma {:induction false} DropExpiredOfSorted(q: seq<int>, cutoff: int)
    requires Sorted(q)
    ensures DropExpired(q, cutoff) == AtOrAfter(q, cutoff)
    decreases |q|
  {
    if q == [] {
    } else if q[0] < cutoff {
      SortedSuffix(q, 1);
      DropExpiredOfSorted(q[1..], cutoff);
      assert AtOrAfter(q, cutoff) == [] + AtOrAfter(q[1..], cutoff);
    } else {
      assert forall i :: 0 <= i < |q| ==> cutoff <= q[i] by {
        forall i | 0 <= i < |q|
          ensures cutoff <= q[i]
        {
          assert i == 0 || q[0] <= q[i];
        }
      }
      AllAtOrAfter(q, cutoff);
    }
  }

  lemma {:induction false} DropExpiredIsSuffix(q: seq<int>, cutoff: int)
    ensures DropExpired(q, cutoff) == q[|q| - |DropExpired(q, cutoff)|..]
    decreases |q|
  {
    if q != [] && q[0] < cutoff {
      DropExpiredIsSuffix(q[1..], cutoff);
    }
  }

  lemma AtOrAfterSorted(q: seq<int>, cutoff: int)
    requires Sorted(q)
    ensures Sorted(AtOrAfter(q, cutoff))
  {
    DropExpiredOfSorted(q, cutoff);
    DropExpiredIsSuffix(q, cutoff);
    SortedSuffix(q, |q| - |DropExpired(q, cutoff)|);
  }

  lemma {:induction false} TimesOfBounded(h: seq<Stamp>, key: string, bound: int)
    requires forall i :: 0 <= i < |h| ==> h[i].time <= bound
    ensures forall i :: 0 <= i < |TimesOf(h, key)| ==> TimesOf(h, key)[i] <= bound
    decreases |h|
  {
    if h != [] {
      TimesOfBounded(h[..|h| - 1], key, bound);
    }
  }

  lemma {:induction false} TimesOfSorted(h: seq<Stamp>, key: string)
    requires Chronological(h)
    ensures Sorted(TimesOf(h, key))
    decreases |h|
  {
    if h != [] {
      var p := h[..|h| - 1];
      assert Chronological(p);
      TimesOfSorted(p, key);
      TimesOfBounded(p, key, h[|h| - 1].time);
    }
  }

  /** Cleaning up at a later cutoff narrows the window of the times `q` to that cutoff. */
  lemma CleanupNarrowsWindow(m: Timestamps, k: string, q: seq<int>, before: int, cutoff: int)
    requires Sorted(q) && before <= cutoff
    requires Lookup(m, k) == AtOrAfter(q, before)
    ensures Lookup(Cleanup(m, cutoff), k) == AtOrAfter(q, cutoff)
  {
    CleanupLookup(m, cutoff, k);
    AtOrAfterSorted(q, before);
    DropExpiredOfSorted(AtOrAfter(q, before), cutoff);
    AtOrAfterTwice(q, before, cutoff);
  }

  lemma CheckRecords(m: Timestamps, excluded: set<string>, s: Stamp)
    requires s.key !in excluded
    ensures Check(m, excluded, s.key, s.time).timestamps == Record(Cleanup(m, s.time - WINDOW_DURATION), s.key, s.time)
  {
  }

  lemma AtOrAfterAppend(q: seq<int>, t: int, cutoff: int)
    requires cutoff <= t
    ensures AtOrAfter(q + [t], cutoff) == AtOrAfter(q, cutoff) + [t]
  {
    AtOrAfterConcat(q, [t], cutoff);
    assert AtOrAfter([t], cutoff) == [t] + AtOrAfter([], cutoff);
  }

  /** One counted check turns the window of the times `q` into the window of `q` extended by that check. */
  lemma StepKeepsWindow(m: Timestamps, excluded: set<string>, s: Stamp, k: string, q: seq<int>, before: int)
    requires s.key !in excluded && Sorted(q) && before <= s.time - WINDOW_DURATION
    requires Lookup(m, k) == AtOrAfter(q, before)
    ensures Lookup(Check(m, excluded, s.key, s.time).timestamps, k)
         == AtOrAfter(q + (if s.key == k then [s.time] else []), s.time - WINDOW_DURATION)
  {
    var cutoff := s.time - WINDOW_DURATION;
    CleanupNarrowsWindow(m, k, q, before, cutoff);
    CheckRecords(m, excluded, s);
    var cleaned := Cleanup(m, cutoff);
    var r := Record(cleaned, s.key, s.time);
    if s.key == k {
      AtOrAfterAppend(q, s.time, cutoff);
      assert Lookup(r, k) == Lookup(cleaned, k) + [s.time];
    } else {
      RecordOthers(cleaned, s.key, s.time, k);
      assert q + [] == q;
    }
  }

  /** `StepKeepsWindow` for the last check of a run. */
  lemma ReplayStep(h: seq<Stamp>, excluded: set<string>, k: string, q: seq<int>, before: int)
    requires h != [] && h[|h| - 1].key !in excluded
    requires Sorted(q) && before <= h[|h| - 1].time - WINDOW_DURATION
    requires Lookup(Replay(h[..|h| - 1], excluded), k) == AtOrAfter(q, before)
    ensures Lookup(Replay(h, excluded), k)
         == AtOrAfter(q + (if h[|h| - 1].key == k then [h[|h| - 1].time] else []), h[|h| - 1].time - WINDOW_DURATION)
  {
    StepKeepsWindow(Replay(h[..|h| - 1], excluded), excluded, h[|h| - 1], k, q, before);
  }

  lemma TimesOfUnfold(h: seq<Stamp>, k: string)
    requires h != []
    ensures TimesOf(h, k) == TimesOf(h[..|h| - 1], k) + (if h[|h| - 1].key == k then [h[|h| - 1].time] else [])
  {
  }

  /**
   * After any chronological run of counted checks, the queue stored for
   * the name `k` is exactly the times of `k`'s checks that are at most two
   * seconds older than the latest check.
   */
  lemma {:induction false} ReplayIsWindow(h: seq<Stamp>, excluded: set<string>, k: string)
    requires h != [] && Chronological(h)
    requires forall i :: 0 <= i < |h| ==> h[i].key !in excluded
    ensures Lookup(Replay(h, excluded), k) == AtOrAfter(TimesOf(h, k), h[|h| - 1].time - WINDOW_DURATION)
    decreases |h|
  {
    var p := h[..|h| - 1];
    var s := h[|h| - 1];
    TimesOfUnfold(h, k);
    TimesOfSorted(p, k);
    if p == [] {
      ReplayStep(h, excluded, k, [], s.time - WINDOW_DURATION);
    } else {
      assert Chronological(p);
      ReplayIsWindow(p, excluded, k);
      ReplayStep(h, excluded, k, TimesOf(p, k), p[|p| - 1].time - WINDOW_DURATION);
    }
  }

  /**
   * The breaker trips on a check exactly when, counting that check, its
   * action has been checked more than MAX_ACTIONS_PER_WINDOW times within
   * the two seconds before it.
   */
  lemma TripsIffWindowOverfull(h: seq<Stamp>, excluded: set<string>)
    requires h != [] && Chronological(h)
    requires forall i :: 0 <= i < |h| ==> h[i].key !in excluded
    ensures
      var s := h[|h| - 1];
      Check(Replay(h[..|h| - 1], excluded), excluded, s.key, s.time).tripped
      <==> |AtOrAfter(TimesOf(h, s.key), s.time - WINDOW_DURATION)| > MAX_ACTIONS_PER_WINDOW
  {
    var s := h[|h| - 1];
    ReplayIsWindow(h, excluded, s.key);
  }

  /** An excluded action never trips the breaker and leaves its state alone, however often it is checked. */
  lemma ExcludedIsIgnored(m: Timestamps, excluded: set<string>, a: Action, now: int)
    requires Name(a) in excluded
    ensures Check(m, excluded, Name(a), now) == Verdict(m, false)
  {
  }

  /** The breaker as the loop holds it. */
  class CircuitBreaker {
    var timestamps: Timestamps
    var excluded: set<string>

    constructor ()
      ensures timestamps == map[] && excluded == DEFAULT_EXCLUDED
    {
      timestamps := map[];
      excluded := DEFAULT_EXCLUDED;
    }

    method ExcludeAction(a: Action)
      modifies this
      ensures excluded == old(excluded) + {Name(a)}
      ensures timestamps == old(timestamps)
    {
      excluded := excluded + {Name(a)};
    }

    method IncludeAction(a: Action)
      modifies this
      ensures excluded == old(excluded) - {Name(a)}
      ensures timestamps == old(timestamps)
    {
      excluded := excluded - {Name(a)};
    }

    method CleanupOldTimestamps(now: int)
      modifies this
      ensures timestamps == Cleanup(old(timestamps), now - WINDOW_DURATION)
      ensures excluded == old(excluded)
    {
      var cutoff := now - WINDOW_DURATION;
      ghost var original := timestamps;
      DropExpiredFronts(cutoff);
      RetainNonEmpty();
      assert timestamps == Cleanup(original, cutoff);
    }

    /** The `values_mut` loop: every queue pops its expired front. */
    method DropExpiredFronts(cutoff: int)
      modifies this
      ensures timestamps.Keys == old(timestamps).Keys
      ensures forall k :: k in timestamps ==> timestamps[k] == DropExpired(old(timestamps)[k], cutoff)
      ensures excluded == old(excluded)
    {
      ghost var original := timestamps;
      var pending := timestamps.Keys;
      while pending != {}
        invariant pending <= original.Keys && timestamps.Keys == original.Keys
        invariant excluded == old(excluded)
        invariant forall k :: k in timestamps ==>
          timestamps[k] == if k in pending then original[k] else DropExpired(original[k], cutoff)
        decreases |pending|
      {
        var k :| k in pending;
        var queue := timestamps[k];
        while queue != [] && queue[0] < cutoff
          invariant DropExpired(queue, cutoff) == DropExpired(original[k], cutoff)
          decreases |queue|
        {
          queue := queue[1..];
        }
        timestamps := timestamps[k := queue];
        pending := pending - {k};
      }
    }

    /** `retain(|_, timestamps| !timestamps.is_empty())`. */
    method RetainNonEmpty()
      modifies this
      ensures forall k :: k in timestamps <==> k in old(timestamps) && old(timestamps)[k] != []
      ensures forall k :: k in timestamps ==> timestamps[k] == old(timestamps)[k]
      ensures excluded == old(excluded)
    {
      ghost var original := timestamps;
      var keys := timestamps.Keys;
      while keys != {}
        invariant keys <= timestamps.Keys && excluded == old(excluded)
        invariant forall k :: k in timestamps <==> k in original && (k in keys || original[k] != [])
        invariant forall k :: k in timestamps ==> timestamps[k] == original[k]
        decreases |keys|
      {
        var k :| k in keys;
        if timestamps[k] == [] {
          timestamps := timestamps - {k};
        }
        keys := keys - {k};
      }
    }

    /** `check_action`; `tripped` stands for the panic. */
    method CheckAction(a: Action, now: int) returns (tripped: bool)
      modifies this
      ensures Verdict(timestamps, tripped) == Check(old(timestamps), excluded, Name(a), now)
      ensures excluded == old(excluded)
    {
      var key := Name(a);
      if key in excluded {
        return false;
      }
      CleanupOldTimestamps(now);
      var queue := if key in timestamps then timestamps[key] else [];
      queue := queue + [now];
      timestamps := timestamps[key := queue];
      tripped := |queue| > MAX_ACTIONS_PER_WINDOW;
    }

    /** `Component::handle_action`: every dispatched action is checked. */
    method HandleAction(a: Action, now: int) returns (tripped: bool)
      modifies this
      ensures Verdict(timestamps, tripped) == Check(old(timestamps), excluded, Name(a), now)
      ensures excluded == old(excluded)
    {
      tripped := CheckAction(a, now);
    }
  }
}
