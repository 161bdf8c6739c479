/** The body of the loop in consumePerChannel over the real overflow and lanes: it does what the step
    relation's Dispatch says. */
module GroupLoop {
  import opened Options
  import opened KeyedQueues
  import opened GroupOverflow
  import opened GroupConsumer

  class Consumer {
    const cfg: Config
    const spill: Overflow
    const lanes: Queues<Delivery>
    var deadLetters: seq<nat>

    ghost predicate Valid()
      reads spill`channels, spill`queue, spill`spills, spill`contents, lanes`closed
      reads spill.spills`next, spill.spills`expected, spill.spills`lastProgress, spill.spills`unpublished
    {
      spill.Valid() && lanes.limit == Some(cfg.backlog) && !lanes.closed
    }

    constructor (cfg: Config, nonce: string)
      ensures Valid() && fresh(spill) && fresh(lanes) && this.cfg == cfg
      ensures spill.contents == Start(nonce).overflow && lanes.pending == Start(nonce).pending && deadLetters == []
    {
      this.cfg := cfg;
      spill := new Overflow(nonce);
      lanes := new Queues<Delivery>(Some(cfg.backlog));
      deadLetters := [];
    }

    /** One delivery. `entered` and `spawn`: it is in its lane, and the lane needs a worker. */
    method Take(d: Delivery, now: int) returns (entered: bool, spawn: bool)
      requires Valid()
      modifies this, spill, spill.spills, lanes
      ensures Valid()
      ensures d.message.body.Garbage? ==>
                && !entered && spill.contents == old(spill.contents) && lanes.pending == old(lanes.pending)
                && deadLetters == old(deadLetters) + [d.tag]
      ensures d.message.body.Command? ==>
                && Dispatched(entered, spill.contents, lanes.pending)
                   == Dispatch(cfg, old(spill.contents), old(lanes.pending), d.message.body.channel, d, now)
                && deadLetters == old(deadLetters)
                && (spawn <==> entered && d.message.body.channel !in old(lanes.pending))
    {
      entered, spawn := false, false;
      match d.message.body {
        case Garbage =>
          deadLetters := deadLetters + [d.tag];
        case Command(channel, _) =>
          entered, spawn := TakeCommand(channel, d, now);
      }
    }

    method TakeCommand(channel: string, d: Delivery, now: int) returns (entered: bool, spawn: bool)
      requires Valid()
      modifies spill, spill.spills, lanes`pending
      ensures Valid()
      ensures Dispatched(entered, spill.contents, lanes.pending)
           == Dispatch(cfg, old(spill.contents), old(lanes.pending), channel, d, now)
      ensures spawn <==> entered && channel !in old(lanes.pending)
    {
      ghost var before, queued := spill.contents, lanes.pending;
      var admits := spill.Admits(channel, d, now);
      DispatchInSteps(cfg, before, spill.contents, admits, queued, channel, d, now);
      entered, spawn := Offered(admits, channel, d);
      Follow(entered, channel, d, now);
    }

    /** The command goes into its lane if the overflow admits it and the lane has room. */
    method Offered(admits: bool, channel: string, d: Delivery) returns (entered: bool, spawn: bool)
      requires Valid()
      modifies lanes`pending
      ensures Valid()
      ensures entered <==> admits && !Full(old(lanes.pending), Some(cfg.backlog), channel)
      ensures spawn <==> entered && channel !in old(lanes.pending)
      ensures lanes.pending == if entered then Append(old(lanes.pending), channel, d) else old(lanes.pending)
    {
      entered, spawn := false, false;
      if admits {
        entered, spawn := lanes.Offer(channel, d);
      }
    }

    /** What the overflow is told of a command that is in its lane, or is not. */
    method Follow(entered: bool, channel: string, d: Delivery, now: int)
      requires spill.Valid()
      modifies spill, spill.spills
      ensures spill.Valid()
      ensures spill.contents
           == if entered then old(spill.contents).Admitted(channel, d.message, now) else old(spill.contents).Send(channel, d, now)
    {
      if entered {
        spill.Admitted(channel, d, now);
      } else {
        spill.Send(channel, d, now);
      }
    }
  }

  lemma DispatchInSteps(cfg: Config, before: View, after: View, admits: bool, pending: map<string, seq<Delivery>>,
                        channel: string, d: Delivery, now: int)
    requires before.WellFormed() && (admits, after) == before.Admits(channel, d.message, now)
    ensures Dispatch(cfg, before, pending, channel, d, now)
         == if admits && !Full(pending, Some(cfg.backlog), channel)
            then Dispatched(true, after.Admitted(channel, d.message, now), Append(pending, channel, d))
            else Dispatched(false, after.Send(channel, d, now), pending)
  {
  }
}
