/** The stub provider: three identical placeholder things, announced on the event channel. */
module RandomProviders {
  import opened Wrappers
  import opened Actions
  import opened Events
  import opened Things
  import opened Channels

  const COMMANDS: seq<string> := ["random"]

  /** `get_things`: one boxed `Random` per stored one. */
  function ThingsOf(count: nat): (r: seq<Thing>)
    ensures |r| == count && forall k :: 0 <= k < |r| ==> r[k] == RandomThing
  {
    seq(count, _ => RandomThing)
  }

  /** A random thing's header has three columns, one per cell of its row, and it has no details. */
  lemma RandomThingShape()
    ensures |Header(RandomThing)| == |Row(RandomThing)| == 3
    ensures Details(RandomThing) == Done(None)
  {
  }

  class RandomProvider {
    /** How many `Random` things are stored; they carry no data. */
    var things: nat
    var tx: EventChannel?

    constructor ()
      ensures things == 0 && tx == null
    {
      things := 0;
      tx := null;
    }

    /** `with_event_handler` / `register_event_handler`. */
    method RegisterEventHandler(eventTx: EventChannel)
      modifies this
      ensures tx == eventTx && things == old(things)
    {
      tx := eventTx;
    }

    /** `provide`: store exactly three things, then announce them if a sender is registered. */
    method Provide()
      modifies this, tx
      ensures things == 3 && tx == old(tx)
      ensures tx != null ==> tx.queue == old(tx.queue) + [ProviderReturnedResult]
    {
      things := 3;
      if tx != null {
        tx.Send(ProviderReturnedResult);
      }
    }

    method GetThings() returns (r: seq<Thing>)
      ensures r == ThingsOf(things)
    {
      r := ThingsOf(things);
    }

    method Commands() returns (r: seq<string>)
      ensures r == ["random"]
    {
      r := COMMANDS;
    }
  }
}
