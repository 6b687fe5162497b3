/**
 * The notification log: every `Notify` and every Up/Down is appended with
 * the instant it arrived; nothing is ever removed.
 */
module Notifications {
  import opened Wrappers
  import opened Actions

  /** A notification and its arrival time, an instant in milliseconds. */
  datatype Stamped = Stamped(notification: Notification, at: int)

  /** What `update` adds to the log for one action, if anything. */
  function Entry(a: Action): (r: Option<Notification>)
    ensures a.Notify? ==> r == Some(a.notification)
    ensures (a == Up || a == Down) ==> r == Some(Notification.Info(Name(a)))
    ensures !a.Notify? && a != Up && a != Down ==> r == None
  {
    match a
    case Notify(n) => Some(n)
    case Up => Some(Notification.Info(Name(a)))
    case Down => Some(Notification.Info(Name(a)))
    case _ => None
  }

  /** The log after `update(a)` at time `now`. */
  function Record(log: seq<Stamped>, a: Action, now: int): (r: seq<Stamped>)
    ensures log <= r && |r| <= |log| + 1
    ensures |r| == |log| + 1 <==> Entry(a).Some?
    ensures Entry(a).Some? ==> r[|log|] == Stamped(Entry(a).value, now)
  {
    match Entry(a)
    case Some(n) => log + [Stamped(n, now)]
    case None => log
  }

  /** The log after a run of actions, each with its time. */
  function RecordAll(log: seq<Stamped>, run: seq<(Action, int)>): (r: seq<Stamped>)
    decreases |run|
  {
    if run == [] then log else RecordAll(Record(log, run[0].0, run[0].1), run[1..])
  }

  /** The notifications a run contributes, in order. */
  function Entries(run: seq<(Action, int)>): (r: seq<Stamped>)
    decreases |run|
  {
    if run == [] then []
    else
      match Entry(run[0].0)
      case Some(n) => [Stamped(n, run[0].1)] + Entries(run[1..])
      case None => Entries(run[1..])
  }

  /** Nothing is lost or reordered: the log is the old log followed by the run's entries, in arrival order. */
  lemma {:induction false} RecordAllAppends(log: seq<Stamped>, run: seq<(Action, int)>)
    ensures RecordAll(log, run) == log + Entries(run)
    decreases |run|
  {
    if run != [] {
      RecordAllAppends(Record(log, run[0].0, run[0].1), run[1..]);
      match Entry(run[0].0)
      case Some(n) =>
        assert log + [Stamped(n, run[0].1)] + Entries(run[1..]) == log + ([Stamped(n, run[0].1)] + Entries(run[1..]));
      case None =>
    }
  }

  /** The up and down keys show up as "Up" and "Down". */
  lemma NavigationNames()
    ensures Entry(Up) == Some(Notification.Info("Up")) && Entry(Down) == Some(Notification.Info("Down"))
  {
  }

  class Notifications {
    var notifications: seq<Stamped>

    constructor ()
      ensures notifications == []
    {
      notifications := [];
    }

    /** `update`: records the action's notification at `now`; always answers nothing. */
    method Update(a: Action, now: int) returns (next: Option<Action>)
      modifies this
      ensures notifications == Record(old(notifications), a, now) && next == None
    {
      match a {
        case Notify(n) => notifications := notifications + [Stamped(n, now)];
        case Up => notifications := notifications + [Stamped(Notification.Info(Name(a)), now)];
        case Down => notifications := notifications + [Stamped(Notification.Info(Name(a)), now)];
        case _ =>
      }
      next := None;
    }
  }
}
