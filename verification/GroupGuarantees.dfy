/** The guarantees of the group consumer over whole runs that need no assumption on the broker. */
module GroupGuarantees {
  import opened Options
  import opened KeyedQueues
  import opened GroupOverflow
  import opened GroupConsumer
  import opened GroupPlaces
  import opened GroupConservation

  // ---------------------------------------------------------------- counters of unpublished copies

  function ItemsOf(queue: seq<Item>, spill: nat): nat {
    if queue == [] then 0 else ItemsOf(queue[..|queue| - 1], spill) + One(queue[|queue| - 1].spill == spill)
  }

  lemma {:induction false} ItemsTail(queue: seq<Item>, spill: nat)
    requires queue != []
    ensures ItemsOf(queue, spill) == One(queue[0].spill == spill) + ItemsOf(queue[1..], spill)
  {
    var n := |queue| - 1;
    if n > 0 {
      ItemsTail(queue[..n], spill);
      assert queue[..n][1..] == queue[1..][..n - 1];
    } else {
      assert queue[..0] == [] && queue[1..] == [];
    }
  }

  lemma {:induction false} NoItems(queue: seq<Item>, spill: nat)
    ensures ItemsOf(queue, spill) == 0 <==> forall i :: 0 <= i < |queue| ==> queue[i].spill != spill
  {
    if queue != [] {
      var n := |queue| - 1;
      NoItems(queue[..n], spill);
      assert forall i :: 0 <= i < n ==> queue[..n][i] == queue[i];
    }
  }

  function WithMoverOf(mover: Mover, spill: nat): nat {
    One(!mover.Idle? && mover.item.spill == spill)
  }

  /** The counter of a spill is the number of its items still with the mover. */
  ghost predicate Counted(view: View, mover: Mover, spill: nat)
    requires spill < |view.unpublished|
  {
    view.unpublished[spill] == ItemsOf(view.queue, spill) + WithMoverOf(mover, spill)
  }

  ghost predicate AllCounted(view: View, mover: Mover) {
    && view.WellFormed()
    && (mover.Idle? || mover.item.spill < |view.unpublished|)
    && forall spill: nat :: spill < |view.unpublished| ==> Counted(view, mover, spill)
  }

  lemma PushedCounted(view: View, mover: Mover, id: nat, d: Delivery, number: int, now: int)
    requires AllCounted(view, mover) && id < |view.unpublished|
    ensures AllCounted(view.Pushed(id, d, number, now), mover)
  {
    var after := view.Pushed(id, d, number, now);
    forall spill: nat | spill < |after.unpublished|
      ensures Counted(after, mover, spill)
    {
      assert Counted(view, mover, spill);
    }
  }

  lemma TrackedCounted(view: View, mover: Mover, channel: string, now: int)
    requires AllCounted(view, mover)
    ensures AllCounted(view.Tracked(channel, now), mover)
  {
    var after := view.Tracked(channel, now);
    forall spill: nat | spill < |after.unpublished|
      ensures Counted(after, mover, spill)
    {
      if spill < |view.unpublished| {
        assert Counted(view, mover, spill);
      } else {
        NoItems(view.queue, spill);
      }
    }
  }

  /** Only the set of tracked channels or their numbers change. */
  lemma RetrackedCounted(view: View, after: View, mover: Mover)
    requires AllCounted(view, mover)
    requires after.unpublished == view.unpublished && after.queue == view.queue
    requires forall c :: c in after.channels ==> c in view.channels && after.channels[c].id == view.channels[c].id
    ensures AllCounted(after, mover)
  {
    forall spill: nat | spill < |after.unpublished|
      ensures Counted(after, mover, spill)
    {
      assert Counted(view, mover, spill);
    }
  }

  lemma SendCounted(view: View, mover: Mover, channel: string, d: Delivery, now: int)
    requires AllCounted(view, mover)
    ensures AllCounted(view.Send(channel, d, now), mover)
  {
    var tracked := view;
    if channel !in view.channels {
      TrackedCounted(view, mover, channel, now);
      tracked := view.Tracked(channel, now);
    }
    var spill := tracked.channels[channel];
    if channel !in view.channels || view.CopyNumber(d.message).None? {
      RetrackedCounted(tracked, tracked.Renumbered(channel), mover);
      PushedCounted(tracked.Renumbered(channel), mover, spill.id, d, spill.next, now);
    } else {
      PushedCounted(view, mover, spill.id, d, view.CopyNumber(d.message).value, now);
    }
  }

  lemma AdmittedCounted(view: View, mover: Mover, channel: string, m: Message, now: int)
    requires AllCounted(view, mover)
    ensures AllCounted(view.Admitted(channel, m, now), mover)
  {
    RetrackedCounted(view, view.Admitted(channel, m, now), mover);
  }

  lemma DispatchCounted(cfg: Config, view: View, mover: Mover, pending: map<string, seq<Delivery>>, key: string,
                        d: Delivery, now: int)
    requires AllCounted(view, mover)
    ensures AllCounted(Dispatch(cfg, view, pending, key, d, now).overflow, mover)
  {
    var (admits, after) := view.Admits(key, d.message, now);
    RetrackedCounted(view, after, mover);
    if admits && !Full(pending, Some(cfg.backlog), key) {
      AdmittedCounted(after, mover, key, d.message, now);
    } else {
      SendCounted(after, mover, key, d, now);
    }
  }

  lemma MoverTakeCounted(view: View)
    requires AllCounted(view, Idle) && view.queue != []
    ensures AllCounted(view.(queue := view.queue[1..]), Holding(view.queue[0]))
  {
    var after := view.(queue := view.queue[1..]);
    forall spill: nat | spill < |after.unpublished|
      ensures Counted(after, Holding(view.queue[0]), spill)
    {
      assert Counted(view, Idle, spill);
      ItemsTail(view.queue, spill);
    }
  }

  lemma FinishCounted(view: View, item: Item)
    requires AllCounted(view, Left(item))
    ensures AllCounted(view.Finish(item.spill), Idle)
  {
    var after := view.Finish(item.spill);
    forall spill: nat | spill < |after.unpublished|
      ensures Counted(after, Idle, spill)
    {
      assert Counted(view, Left(item), spill);
    }
  }

  lemma HeldCounted(view: View, mover: Mover, mover': Mover)
    requires AllCounted(view, mover) && !mover.Idle? && !mover'.Idle? && mover'.item == mover.item
    ensures AllCounted(view, mover')
  {
    forall spill: nat | spill < |view.unpublished|
      ensures Counted(view, mover', spill)
    {
      assert Counted(view, mover, spill);
    }
  }

  lemma ConsumeCounted(cfg: Config, s: State, now: int, s': State)
    requires AllCounted(s.overflow, s.mover) && Enabled(cfg, s, Consume(now)) && s' == Consumed(cfg, s, now)
    ensures AllCounted(s'.overflow, s'.mover)
  {
    ConsumedOutside(cfg, s, now);
    var d := s.inbox[0];
    if d.message.body.Command? {
      DispatchCounted(cfg, s.overflow, s.mover, s.pending, d.message.body.channel, d, now);
    }
  }

  lemma MoverStepCounted(cfg: Config, s: State, e: Event, s': State)
    requires AllCounted(s.overflow, s.mover) && Enabled(cfg, s, e) && s' == Step(cfg, s, e)
    requires e.MoverTake? || e.MoverPublish? || e.MoverAck? || e.MoverHandBack? || e.MoverFinish?
    ensures AllCounted(s'.overflow, s'.mover)
  {
    match e
    case MoverTake => MoverTakeCounted(s.overflow);
    case MoverFinish => FinishCounted(s.overflow, s.mover.item);
    case MoverPublish(answer) =>
      if answer == Confirms {
        HeldCounted(s.overflow, s.mover, s'.mover);
      }
    case MoverAck => HeldCounted(s.overflow, s.mover, s'.mover);
    case MoverHandBack => HeldCounted(s.overflow, s.mover, s'.mover);
  }

  lemma StepCounted(cfg: Config, s: State, e: Event, s': State)
    requires AllCounted(s.overflow, s.mover) && Enabled(cfg, s, e) && s' == Step(cfg, s, e)
    ensures AllCounted(s'.overflow, s'.mover)
  {
    if e.MoverTake? || e.MoverPublish? || e.MoverAck? || e.MoverHandBack? || e.MoverFinish? {
      MoverStepCounted(cfg, s, e, s');
    } else if e.Consume? {
      ConsumeCounted(cfg, s, e.now, s');
    }
  }

  /** The stall guard forgets a channel only when the mover has nothing left of its spill: neither an
      item in the queue nor the one in its hand. */
  lemma StallForgetsNothingUnpublished(view: View, mover: Mover, channel: string, now: int)
    requires AllCounted(view, mover) && channel in view.channels && view.Stalled(channel, now)
    ensures forall i :: 0 <= i < |view.queue| ==> view.queue[i].spill != view.channels[channel].id
    ensures mover.Idle? || mover.item.spill != view.channels[channel].id
  {
    var id := view.channels[channel].id;
    assert Counted(view, mover, id);
    NoItems(view.queue, id);
  }

  // ---------------------------------------------------------------- phases, lanes, prefetch

  ghost predicate LanesStand(pending: map<string, seq<Delivery>>, running: map<string, Delivery>) {
    forall key :: key in running ==> key in pending
  }

  predicate Quiet(s: State) {
    s.inbox == [] && s.pending == map[] && s.running == map[]
  }

  ghost predicate Phased(cfg: Config, s: State) {
    && Unsettled(s) <= cfg.prefetch
    && LanesStand(s.pending, s.running)
    && (s.phase == Stopping || s.phase == Finished ==> Quiet(s))
    && (s.phase == Finished ==> s.mover.Idle? && s.overflow.queue == [] && s.requeue == [])
  }

  lemma ConsumePhased(cfg: Config, s: State, now: int, s': State)
    requires Phased(cfg, s) && Enabled(cfg, s, Consume(now)) && s' == Consumed(cfg, s, now)
    ensures Phased(cfg, s')
  {
    ConsumedOutside(cfg, s, now);
  }

  lemma LaneTookPhased(cfg: Config, s: State, key: string, s': State)
    requires Phased(cfg, s) && Enabled(cfg, s, LaneTake(key)) && s' == TookLane(s, key)
    ensures Phased(cfg, s')
  {
  }

  lemma LaneFinishedPhased(cfg: Config, s: State, key: string, how: How, s': State)
    requires Phased(cfg, s) && Enabled(cfg, s, LaneFinish(key, how)) && s' == FinishedLane(s, key, how)
    ensures Phased(cfg, s')
  {
  }

  /** The mover leaves the loop and the lanes alone, and settles but does not take. */
  lemma MoverPhased(cfg: Config, s: State, s': State)
    requires Phased(cfg, s) && s.phase != Finished && s'.phase == s.phase && Unsettled(s') <= Unsettled(s)
    requires LanesStand(s'.pending, s'.running) && (Quiet(s) ==> Quiet(s'))
    ensures Phased(cfg, s')
  {
  }

  lemma MoverPublishPhased(cfg: Config, s: State, answer: Answer, s': State)
    requires Phased(cfg, s) && s.phase != Finished && s.mover.Holding? && s' == MoverPublished(s, answer)
    ensures Phased(cfg, s')
  {
    MoverPhased(cfg, s, s');
  }

  lemma MoverStepPhased(cfg: Config, s: State, e: Event, s': State)
    requires Phased(cfg, s) && Enabled(cfg, s, e) && s' == Step(cfg, s, e)
    requires e.MoverTake? || e.MoverPublish? || e.MoverAck? || e.MoverHandBack? || e.MoverFinish?
    ensures Phased(cfg, s')
  {
    match e
    case MoverTake => MoverPhased(cfg, s, s');
    case MoverPublish(answer) => MoverPublishPhased(cfg, s, answer, s');
    case MoverAck => MoverPhased(cfg, s, s');
    case MoverHandBack => MoverPhased(cfg, s, s');
    case MoverFinish => MoverPhased(cfg, s, s');
  }

  lemma LoopStepPhased(cfg: Config, s: State, e: Event, s': State)
    requires Phased(cfg, s) && Enabled(cfg, s, e) && s' == Step(cfg, s, e)
    requires e.Consume? || e.LaneTake? || e.LaneFinish? || e.LaneExit?
    ensures Phased(cfg, s')
  {
    match e
    case Consume(now) => ConsumePhased(cfg, s, now, s');
    case LaneTake(key) => LaneTookPhased(cfg, s, key, s');
    case LaneFinish(key, how) => LaneFinishedPhased(cfg, s, key, how, s');
    case LaneExit(key) => assert s' == LeftLane(s, key);
  }

  lemma StepPhased(cfg: Config, s: State, e: Event, s': State)
    requires Phased(cfg, s) && Enabled(cfg, s, e) && s' == Step(cfg, s, e)
    ensures Phased(cfg, s')
  {
    if e.MoverTake? || e.MoverPublish? || e.MoverAck? || e.MoverHandBack? || e.MoverFinish? {
      MoverStepPhased(cfg, s, e, s');
    } else if e.Consume? || e.LaneTake? || e.LaneFinish? || e.LaneExit? {
      LoopStepPhased(cfg, s, e, s');
    }
  }

  // ---------------------------------------------------------------- every reachable state

  ghost predicate Placed(s: State, w: seq<Place>) {
    Consistent(s, w) && forall b :: Conserved(s, w, b)
  }

  ghost predicate Sound(cfg: Config, s: State) {
    (exists w :: Placed(s, w)) && AllCounted(s.overflow, s.mover) && Phased(cfg, s)
  }

  lemma StepSound(cfg: Config, s: State, e: Event)
    requires Sound(cfg, s) && Enabled(cfg, s, e)
    ensures Sound(cfg, Step(cfg, s, e))
  {
    var w :| Placed(s, w);
    StepPlaced(cfg, s, w, e);
    StepCounted(cfg, s, e, Step(cfg, s, e));
    StepPhased(cfg, s, e, Step(cfg, s, e));
  }

  lemma StepPlaced(cfg: Config, s: State, w: seq<Place>, e: Event)
    requires Placed(s, w) && Enabled(cfg, s, e)
    ensures Placed(Step(cfg, s, e), Moved(cfg, s, e, w))
  {
    StepKeepsPlaces(cfg, s, w, e, Step(cfg, s, e), Moved(cfg, s, e, w));
    forall b
      ensures Conserved(Step(cfg, s, e), Moved(cfg, s, e, w), b)
    {
      StepConserves(cfg, s, w, e, Step(cfg, s, e), Moved(cfg, s, e, w), b);
    }
  }

  lemma {:induction false} RunSound(cfg: Config, s: State, events: seq<Event>)
    requires Sound(cfg, s) && IsRun(cfg, s, events)
    ensures Sound(cfg, After(cfg, s, events))
    decreases |events|
  {
    if events != [] {
      StepSound(cfg, s, events[0]);
      RunSound(cfg, Step(cfg, s, events[0]), events[1..]);
    }
  }

  lemma ReachableIsSound(cfg: Config, nonce: string, events: seq<Event>)
    requires IsRun(cfg, Start(nonce), events)
    ensures Sound(cfg, After(cfg, Start(nonce), events))
  {
    var s := Start(nonce);
    StartConsistent(nonce);
    assert Placed(s, []);
    RunSound(cfg, s, events);
  }

  /** Every delivery taken is in exactly one place: `place` is a function of the tag, and each place
      lists its deliveries once. */
  lemma InExactlyOnePlace(cfg: Config, nonce: string, events: seq<Event>)
    requires IsRun(cfg, Start(nonce), events)
    ensures var s := After(cfg, Start(nonce), events);
            exists place: seq<Place> :: |place| == |s.handed| && Logs(place, s.log)
              && forall p: Place :: !p.Settled? ==> Holds(place, s.handed, p, At(s, p))
  {
    ReachableIsSound(cfg, nonce, events);
    var s := After(cfg, Start(nonce), events);
    var w :| Placed(s, w);
    assert Consistent(s, w);
  }

  /** How many deliveries carry b, not counting those whose ack for a copy the broker heard. */
  ghost function Standing(handed: seq<Message>, log: seq<Settlement>, b: Body): nat {
    if handed == [] then 0
    else
      var n := |handed| - 1;
      Standing(handed[..n], log, b) + One(Settlement(n, Copied) !in log && handed[n].body == b)
  }

  /** How many deliveries carry b that the broker kept beside their copy, the ack being lost with the channel. */
  ghost function Twice(handed: seq<Message>, log: seq<Settlement>, b: Body): nat {
    if handed == [] then 0
    else
      var n := |handed| - 1;
      Twice(handed[..n], log, b) + One(Settlement(n, Doubled) in log && handed[n].body == b)
  }

  lemma SettledIffLogged(w: seq<Place>, log: seq<Settlement>, t: nat, how: How)
    requires Logs(w, log) && t < |w|
    ensures w[t] == Settled(how) <==> Settlement(t, how) in log
  {
    if w[t].Settled? {
      assert Recorded(log, t);
    }
  }

  lemma {:induction false} StandingIsKept(handed: seq<Message>, w: seq<Place>, log: seq<Settlement>, b: Body, n: nat)
    requires |w| == |handed| && n <= |w| && Logs(w, log)
    ensures Standing(handed[..n], log, b) == Kept(handed[..n], w[..n], b) + Twice(handed[..n], log, b)
  {
    if n > 0 {
      StandingIsKept(handed, w, log, b, n - 1);
      SettledIffLogged(w, log, n - 1, Copied);
      SettledIffLogged(w, log, n - 1, Doubled);
      assert handed[..n][..n - 1] == handed[..n - 1] && w[..n][..n - 1] == w[..n - 1];
    }
  }

  ghost predicate AllHeard(log: seq<Settlement>) {
    forall i :: 0 <= i < |log| ==> log[i].how != Doubled
  }

  /** The acks that get lost are those made after the channel had closed. */
  lemma HeardMore(s: State, s': State, more: seq<Settlement>)
    requires !s.broken ==> AllHeard(s.log) && AllHeard(more)
    requires s'.log == s.log + more && (s.broken ==> s'.broken)
    ensures !s'.broken ==> AllHeard(s'.log)
  {
  }

  predicate Settles(e: Event) {
    e.Consume? || e.HandBack? || e.MoverAck? || e.MoverHandBack? || e.LaneFinish?
  }

  lemma OthersHeard(cfg: Config, s: State, e: Event, s': State)
    requires Enabled(cfg, s, e) && !Settles(e) && s' == Step(cfg, s, e) && (!s.broken ==> AllHeard(s.log))
    ensures !s'.broken ==> AllHeard(s'.log)
  {
  }

  lemma SettlingHeard(cfg: Config, s: State, e: Event, s': State)
    requires Enabled(cfg, s, e) && Settles(e) && s' == Step(cfg, s, e) && (!s.broken ==> AllHeard(s.log))
    ensures !s'.broken ==> AllHeard(s'.log)
  {
    match e
    case Consume(now) =>
      ConsumedOutside(cfg, s, now);
      HeardMore(s, s', if s.inbox[0].message.body.Command? then [] else [Settlement(s.inbox[0].tag, DeadLettered)]);
    case HandBack => HeardMore(s, s', Returned(SortByTag(s.requeue)));
    case MoverAck => HeardMore(s, s', [Settlement(s.mover.item.delivery.tag, AckOfCopied(s))]);
    case MoverHandBack => HeardMore(s, s', [Settlement(s.mover.item.delivery.tag, Requeued)]);
    case LaneFinish(key, how) => HeardMore(s, s', if how == Requeued then [] else [Settlement(s.running[key].tag, how)]);
  }

  lemma HeardStep(cfg: Config, s: State, e: Event, s': State)
    requires Enabled(cfg, s, e) && s' == Step(cfg, s, e) && (!s.broken ==> AllHeard(s.log))
    ensures !s'.broken ==> AllHeard(s'.log)
  {
    if Settles(e) {
      SettlingHeard(cfg, s, e, s');
    } else {
      OthersHeard(cfg, s, e, s');
    }
  }

  lemma {:induction false} HeardRun(cfg: Config, s: State, events: seq<Event>)
    requires IsRun(cfg, s, events) && (!s.broken ==> AllHeard(s.log))
    ensures !After(cfg, s, events).broken ==> AllHeard(After(cfg, s, events).log)
    decreases |events|
  {
    if events != [] {
      HeardStep(cfg, s, events[0], Step(cfg, s, events[0]));
      HeardRun(cfg, Step(cfg, s, events[0]), events[1..]);
    }
  }

  lemma {:induction false} NoneTwice(handed: seq<Message>, log: seq<Settlement>, b: Body)
    requires AllHeard(log)
    ensures Twice(handed, log, b) == 0
  {
    if handed != [] {
      NoneTwice(handed[..|handed| - 1], log, b);
    }
  }

  /** A command is never lost, and there are second ones of it only in three ways: a copy the broker kept
      without a confirm, for one command at a time the copy between its confirm and the original's ack, and
      an original whose ack was lost because the channel had closed. With these added to what was
      published, all is in the queue or in a delivery that still stands for it. */
  lemma NeverLost(cfg: Config, nonce: string, events: seq<Event>, b: Body)
    requires IsRun(cfg, Start(nonce), events)
    ensures var s := After(cfg, Start(nonce), events);
            && Times(s.published, b) + Times(s.late, b) + InFlight(s.mover, b) + Twice(s.handed, s.log, b)
               == Queued(s.broker, b) + Standing(s.handed, s.log, b)
            && (!s.broken ==> Twice(s.handed, s.log, b) == 0)
  {
    ReachableIsSound(cfg, nonce, events);
    var s := After(cfg, Start(nonce), events);
    var w :| Placed(s, w);
    assert Conserved(s, w, b);
    StandingIsKept(s.handed, w, s.log, b, |w|);
    assert s.handed[..|w|] == s.handed && w[..|w|] == w;
    HeardRun(cfg, Start(nonce), events);
    if !s.broken {
      NoneTwice(s.handed, s.log, b);
    }
  }

  // ---------------------------------------------------------------- the overflow queue never fills

  lemma {:induction false} Pigeonhole(ts: seq<nat>, n: nat)
    requires forall i :: 0 <= i < |ts| ==> ts[i] < n
    requires forall i, j :: 0 <= i < j < |ts| ==> ts[i] != ts[j]
    ensures |ts| <= n
    decreases n
  {
    if ts != [] {
      assert ts[0] < n;
      if i :| 0 <= i < |ts| && ts[i] == n - 1 {
        Pigeonhole(ts[..i] + ts[i + 1..], n - 1);
      } else {
        Pigeonhole(ts, n - 1);
      }
    }
  }

  function TagsOf(ds: seq<Delivery>): (ts: seq<nat>)
    ensures |ts| == |ds| && forall i :: 0 <= i < |ds| ==> ts[i] == ds[i].tag
  {
    seq(|ds|, i requires 0 <= i < |ds| => ds[i].tag)
  }

  function SettledTags(log: seq<Settlement>): (ts: seq<nat>)
    ensures |ts| == |log| && forall i :: 0 <= i < |log| ==> ts[i] == log[i].tag
  {
    seq(|log|, i requires 0 <= i < |log| => log[i].tag)
  }

  lemma QueueWithinUnsettled(s: State, w: seq<Place>)
    requires Consistent(s, w)
    ensures |s.inbox| + |s.overflow.queue| <= Unsettled(s)
  {
    assert Holds(w, s.handed, Inbox, At(s, Inbox));
    assert Holds(w, s.handed, Spilled, At(s, Spilled));
    var logged, waiting, spilled := SettledTags(s.log), TagsOf(At(s, Inbox)), TagsOf(At(s, Spilled));
    assert forall i :: 0 <= i < |logged| ==> w[logged[i]].Settled?;
    assert forall i :: 0 <= i < |waiting| ==> w[waiting[i]] == Inbox;
    assert forall i :: 0 <= i < |spilled| ==> w[spilled[i]] == Spilled;
    Pigeonhole(logged + waiting + spilled, |w|);
  }

  /** `send` never blocks: whenever the loop takes a delivery, the overflow queue, whose capacity is the
      prefetch, has room for it. */
  lemma SendNeverBlocks(cfg: Config, nonce: string, events: seq<Event>)
    requires IsRun(cfg, Start(nonce), events)
    ensures var s := After(cfg, Start(nonce), events);
            |s.overflow.queue| <= cfg.prefetch && (s.inbox != [] ==> |s.overflow.queue| < cfg.prefetch)
  {
    ReachableIsSound(cfg, nonce, events);
    var s := After(cfg, Start(nonce), events);
    var w :| Placed(s, w);
    QueueWithinUnsettled(s, w);
  }

  // ---------------------------------------------------------------- after the consumer has returned

  ghost predicate SettledOnce(log: seq<Settlement>, t: nat) {
    exists i :: 0 <= i < |log| && log[i].tag == t && forall j :: 0 <= j < |log| && j != i ==> log[j].tag != t
  }

  lemma AtItsPlace(s: State, w: seq<Place>, t: nat)
    requires Consistent(s, w) && t < |w| && !w[t].Settled?
    ensures Has(At(s, w[t]), t)
  {
    assert Holds(w, s.handed, w[t], At(s, w[t]));
  }

  lemma NowhereButSettled(s: State, w: seq<Place>, t: nat)
    requires Consistent(s, w) && t < |w|
    requires s.inbox == [] && s.pending == map[] && s.running == map[]
    requires s.mover.Idle? && s.overflow.queue == [] && s.requeue == []
    ensures w[t].Settled?
  {
    if !w[t].Settled? {
      AtItsPlace(s, w, t);
    }
  }

  /** When consumePerChannel has returned, every delivery was acked or nacked, exactly once. */
  lemma ReturnedMeansSettledOnce(cfg: Config, nonce: string, events: seq<Event>)
    requires IsRun(cfg, Start(nonce), events)
    requires After(cfg, Start(nonce), events).phase == Finished
    ensures var s := After(cfg, Start(nonce), events);
            forall t: nat :: t < |s.handed| ==> SettledOnce(s.log, t)
  {
    ReachableIsSound(cfg, nonce, events);
    var s := After(cfg, Start(nonce), events);
    var w :| Placed(s, w);
    forall t: nat | t < |s.handed|
      ensures SettledOnce(s.log, t)
    {
      NowhereButSettled(s, w, t);
      assert Recorded(s.log, t);
      var i :| 0 <= i < |s.log| && s.log[i].tag == t;
      assert forall j :: 0 <= j < |s.log| && j != i ==> s.log[j].tag != t;
    }
  }

  /** The requeue list goes back in strictly increasing tag order, whatever order the handlers ended in. */
  lemma HandsBackInTagOrder(cfg: Config, nonce: string, events: seq<Event>)
    requires IsRun(cfg, Start(nonce), events)
    ensures var s := After(cfg, Start(nonce), events);
            var back := SortByTag(s.requeue);
            && AllHandedBack(s).log == s.log + Returned(back)
            && multiset(back) == multiset(s.requeue)
            && forall i, j :: 0 <= i < j < |back| ==> back[i].tag < back[j].tag
  {
    ReachableIsSound(cfg, nonce, events);
    var s := After(cfg, Start(nonce), events);
    var w :| Placed(s, w);
    SortIsInTagOrder(s.requeue);
    assert Holds(w, s.handed, ToRequeue, At(s, ToRequeue));
    SortedHolds(w, s.handed, ToRequeue, s.requeue);
  }

  /** In every run the stall guard only forgets a channel none of whose copies is still to be published. */
  lemma GuardForgetsNothingUnpublished(cfg: Config, nonce: string, events: seq<Event>, channel: string, now: int)
    requires IsRun(cfg, Start(nonce), events)
    requires var s := After(cfg, Start(nonce), events);
             channel in s.overflow.channels && s.overflow.channels[channel].id < |s.overflow.unpublished|
             && s.overflow.Stalled(channel, now)
    ensures var s := After(cfg, Start(nonce), events);
            var id := s.overflow.channels[channel].id;
            && (forall i :: 0 <= i < |s.overflow.queue| ==> s.overflow.queue[i].spill != id)
            && (s.mover.Idle? || s.mover.item.spill != id)
  {
    ReachableIsSound(cfg, nonce, events);
    var s := After(cfg, Start(nonce), events);
    StallForgetsNothingUnpublished(s.overflow, s.mover, channel, now);
  }
}
