/** What holds in every reachable state of the group consumer, whatever the broker answers: no command
    is lost, no delivery settled twice, the overflow queue never fills, and the stall guard is safe. */
module GroupConservation {
  import opened Options
  import opened KeyedQueues
  import opened GroupOverflow
  import opened GroupConsumer
  import opened GroupPlaces

  // ---------------------------------------------------------------- no command is lost

  function One(yes: bool): nat {
    if yes then 1 else 0
  }

  function Times(bodies: seq<Body>, b: Body): nat {
    if bodies == [] then 0 else Times(bodies[..|bodies| - 1], b) + One(bodies[|bodies| - 1] == b)
  }

  function Queued(ms: seq<Message>, b: Body): nat {
    if ms == [] then 0 else Queued(ms[..|ms| - 1], b) + One(ms[|ms| - 1].body == b)
  }

  /** Settled because a confirmed copy took its place, whether or not the broker heard of it. */
  predicate Replaced(p: Place) {
    p == Settled(Copied) || p == Settled(Doubled)
  }

  /** Deliveries carrying b, except those a confirmed copy took the place of. */
  ghost function Kept(handed: seq<Message>, w: seq<Place>, b: Body): nat
    requires |w| == |handed|
  {
    if handed == [] then 0
    else
      var n := |handed| - 1;
      Kept(handed[..n], w[..n], b) + One(!Replaced(w[n]) && handed[n].body == b)
  }

  ghost function InFlight(mover: Mover, b: Body): nat {
    One(mover.Confirmed? && mover.item.delivery.message.body == b)
  }

  /** Everything published, and every copy kept without a confirm, is in the queue or in a delivery that no
      copy took the place of. (Between a confirm and the ack there are two for one.) */
  ghost predicate Conserved(s: State, w: seq<Place>, b: Body)
    requires |w| == |s.handed|
  {
    Times(s.published, b) + Times(s.late, b) + InFlight(s.mover, b) == Queued(s.broker, b) + Kept(s.handed, w, b)
  }

  lemma {:induction false} QueuedTail(ms: seq<Message>, b: Body)
    requires ms != []
    ensures Queued(ms, b) == One(ms[0].body == b) + Queued(ms[1..], b)
  {
    var n := |ms| - 1;
    if n > 0 {
      QueuedTail(ms[..n], b);
      assert ms[..n][1..] == ms[1..][..n - 1];
    } else {
      assert ms[..0] == [] && ms[1..] == [];
    }
  }

  lemma KeptPush(handed: seq<Message>, w: seq<Place>, m: Message, p: Place, b: Body)
    requires |w| == |handed| && !Replaced(p)
    ensures Kept(handed + [m], w + [p], b) == Kept(handed, w, b) + One(m.body == b)
  {
    assert (handed + [m])[..|handed|] == handed && (w + [p])[..|w|] == w;
  }

  lemma {:induction false} KeptSame(handed: seq<Message>, w: seq<Place>, v: seq<Place>, b: Body)
    requires |w| == |v| == |handed|
    requires forall t :: 0 <= t < |w| ==> (Replaced(w[t]) <==> Replaced(v[t]))
    ensures Kept(handed, w, b) == Kept(handed, v, b)
  {
    if handed != [] {
      var n := |handed| - 1;
      KeptSame(handed[..n], w[..n], v[..n], b);
    }
  }

  /** Settling one more original for its copy takes its body out. */
  lemma {:induction false} KeptLess(handed: seq<Message>, w: seq<Place>, t: nat, to: Place, b: Body)
    requires |w| == |handed| && t < |w| && !Replaced(w[t]) && Replaced(to)
    ensures Kept(handed, w, b) == Kept(handed, w[t := to], b) + One(handed[t].body == b)
  {
    var n := |handed| - 1;
    var v := w[t := to];
    if t == n {
      assert v[..n] == w[..n];
    } else {
      KeptLess(handed[..n], w[..n], t, to, b);
      assert v[..n] == w[..n][t := to];
    }
  }

  /** A step that leaves the broker and the record of the past alone, and copies nothing. */
  lemma MoveConserves(s: State, s': State, w: seq<Place>, v: seq<Place>, b: Body)
    requires |w| == |s.handed| && |v| == |w| && Conserved(s, w, b) && s'.handed == s.handed
    requires forall t :: 0 <= t < |w| ==> (Replaced(w[t]) <==> Replaced(v[t]))
    requires s'.published == s.published && s'.late == s.late && s'.broker == s.broker
    requires s.mover == s'.mover || (!s.mover.Confirmed? && !s'.mover.Confirmed?)
    ensures Conserved(s', v, b)
  {
    KeptSame(s.handed, w, v, b);
  }

  /** The first delivery of each place the consumer works on stands where it is, and is not settled. */
  ghost predicate HeadsStand(s: State, w: seq<Place>)
    requires |w| == |s.handed|
  {
    forall p: Place :: !p.Settled? && At(s, p) != [] ==> Stands(s, w, p, At(s, p)[0])
  }

  ghost predicate Stands(s: State, w: seq<Place>, p: Place, d: Delivery)
    requires |w| == |s.handed|
  {
    d.tag < |w| && w[d.tag] == p && s.handed[d.tag] == d.message
  }

  lemma HeadsUnsettled(s: State, w: seq<Place>)
    requires Consistent(s, w)
    ensures HeadsStand(s, w)
  {
    forall p: Place | !p.Settled? && At(s, p) != []
      ensures Stands(s, w, p, At(s, p)[0])
    {
      assert Holds(w, s.handed, p, At(s, p));
    }
  }

  lemma AckConserves(s: State, w: seq<Place>, b: Body)
    requires |w| == |s.handed| && HeadsStand(s, w) && Conserved(s, w, b) && s.mover.Confirmed?
    ensures Conserved(MoverAcked(s), Put(w, s.mover.item.delivery.tag, Settled(AckOfCopied(s))), b)
  {
    assert Stands(s, w, WithMover, At(s, WithMover)[0]);
    KeptLess(s.handed, w, s.mover.item.delivery.tag, Settled(AckOfCopied(s)), b);
  }

  /** Moving a delivery that was not replaced anywhere but there changes nothing of this. */
  lemma PutConserves(s: State, s': State, w: seq<Place>, v: seq<Place>, from: Place, to: Place, b: Body)
    requires |w| == |s.handed| && HeadsStand(s, w) && Conserved(s, w, b) && !from.Settled? && At(s, from) != [] && !Replaced(to)
    requires s'.handed == s.handed && s'.published == s.published && s'.late == s.late && s'.broker == s.broker
    requires s.mover == s'.mover || (!s.mover.Confirmed? && !s'.mover.Confirmed?)
    requires v == Put(w, At(s, from)[0].tag, to)
    ensures |v| == |s'.handed| && Conserved(s', v, b)
  {
    assert Stands(s, w, from, At(s, from)[0]);
    MoveConserves(s, s', w, v, b);
  }

  lemma DeliverConserves(s: State, w: seq<Place>, b: Body)
    requires |w| == |s.handed| && Conserved(s, w, b) && s.broker != []
    ensures Conserved(Delivered(s), w + [Inbox], b)
  {
    QueuedTail(s.broker, b);
    KeptPush(s.handed, w, s.broker[0], Inbox, b);
  }

  lemma QueuedPush(ms: seq<Message>, m: Message, b: Body)
    ensures Queued(ms + [m], b) == Queued(ms, b) + One(m.body == b)
  {
    assert (ms + [m])[..|ms|] == ms;
  }

  lemma TimesPush(bodies: seq<Body>, more: Body, b: Body)
    ensures Times(bodies + [more], b) == Times(bodies, b) + One(more == b)
  {
    assert (bodies + [more])[..|bodies|] == bodies;
  }

  lemma PublishConserves(s: State, w: seq<Place>, answer: Answer, b: Body)
    requires |w| == |s.handed| && Conserved(s, w, b) && s.mover.Holding?
    ensures Conserved(MoverPublished(s, answer), w, b)
  {
    var copy := s.overflow.CopyOf(s.mover.item);
    QueuedPush(s.broker, copy, b);
    TimesPush(s.late, copy.body, b);
  }

  lemma ArriveConserves(s: State, w: seq<Place>, m: Message, b: Body)
    requires |w| == |s.handed| && Conserved(s, w, b)
    ensures Conserved(Arrived(s, m), w, b)
  {
    QueuedPush(s.broker, m, b);
    TimesPush(s.published, m.body, b);
  }

  lemma LaneFinishConserves(s: State, w: seq<Place>, key: string, how: How, s': State, v: seq<Place>, b: Body)
    requires |w| == |s.handed| && HeadsStand(s, w) && Conserved(s, w, b)
    requires key in s.running && how != Copied && how != Doubled && s' == FinishedLane(s, key, how)
    requires v == Put(w, s.running[key].tag, if how == Requeued then ToRequeue else Settled(how))
    ensures |v| == |s'.handed| && Conserved(s', v, b)
  {
    PutConserves(s, s', w, v, Running(key), if how == Requeued then ToRequeue else Settled(how), b);
  }

  lemma LaneStepConserves(cfg: Config, s: State, w: seq<Place>, e: Event, s': State, v: seq<Place>, b: Body)
    requires |w| == |s.handed| && HeadsStand(s, w) && Conserved(s, w, b) && Enabled(cfg, s, e)
    requires (e.LaneTake? || e.LaneFinish? || e.LaneExit?) && s' == Step(cfg, s, e) && v == Moved(cfg, s, e, w)
    requires |v| == |s'.handed|
    ensures Conserved(s', v, b)
  {
    match e
    case LaneTake(key) => PutConserves(s, s', w, v, Lane(key), Running(key), b);
    case LaneFinish(key, how) => LaneFinishConserves(s, w, key, how, s', v, b);
    case LaneExit(key) => MoveConserves(s, s', w, v, b);
  }

  lemma MoverStepConserves(cfg: Config, s: State, w: seq<Place>, e: Event, s': State, v: seq<Place>, b: Body)
    requires |w| == |s.handed| && HeadsStand(s, w) && Conserved(s, w, b) && Enabled(cfg, s, e)
    requires (e.MoverTake? || e.MoverAck? || e.MoverHandBack? || e.MoverFinish?) && s' == Step(cfg, s, e) && v == Moved(cfg, s, e, w)
    requires |v| == |s'.handed|
    ensures Conserved(s', v, b)
  {
    match e
    case MoverTake =>
      assert At(s, Spilled)[0] == s.overflow.queue[0].delivery;
      PutConserves(s, s', w, v, Spilled, WithMover, b);
    case MoverAck => AckConserves(s, w, b);
    case MoverHandBack => PutConserves(s, s', w, v, WithMover, Settled(Requeued), b);
    case MoverFinish => MoveConserves(s, s', w, v, b);
  }

  lemma ConsumeConserves(s: State, s': State, w: seq<Place>, to: Place, b: Body)
    requires |w| == |s.handed| && HeadsStand(s, w) && Conserved(s, w, b) && s.inbox != [] && !Replaced(to) && SameOutside(s, s')
    ensures Conserved(s', Put(w, s.inbox[0].tag, to), b)
  {
    PutConserves(s, s', w, Put(w, s.inbox[0].tag, to), Inbox, to, b);
  }

  lemma BrokerStepConserves(cfg: Config, s: State, w: seq<Place>, e: Event, s': State, v: seq<Place>, b: Body)
    requires |w| == |s.handed| && HeadsStand(s, w) && Conserved(s, w, b) && Enabled(cfg, s, e)
    requires (e.Arrive? || e.Deliver? || e.MoverPublish?) && s' == Step(cfg, s, e) && v == Moved(cfg, s, e, w)
    requires |v| == |s'.handed|
    ensures Conserved(s', v, b)
  {
    match e
    case Arrive(m) => ArriveConserves(s, w, m, b);
    case Deliver => DeliverConserves(s, w, b);
    case MoverPublish(answer) => PublishConserves(s, w, answer, b);
  }

  lemma LoopStepConserves(cfg: Config, s: State, w: seq<Place>, e: Event, s': State, v: seq<Place>, b: Body)
    requires |w| == |s.handed| && HeadsStand(s, w) && Conserved(s, w, b) && Enabled(cfg, s, e)
    requires (e.Consume? || e.HandBack? || e.Break? || e.CloseStream? || e.Stop?) && s' == Step(cfg, s, e) && v == Moved(cfg, s, e, w)
    requires |v| == |s'.handed|
    ensures Conserved(s', v, b)
  {
    match e
    case Consume(now) =>
      ConsumedOutside(cfg, s, now);
      ConsumeConserves(s, s', w, Destination(cfg, s, now), b);
    case HandBack => MoveConserves(s, s', w, v, b);
    case _ => MoveConserves(s, s', w, v, b);
  }

  lemma StepConserves(cfg: Config, s: State, w: seq<Place>, e: Event, s': State, v: seq<Place>, b: Body)
    requires Consistent(s, w) && Conserved(s, w, b) && Enabled(cfg, s, e) && s' == Step(cfg, s, e) && v == Moved(cfg, s, e, w)
    requires |v| == |s'.handed|
    ensures Conserved(s', v, b)
  {
    HeadsUnsettled(s, w);
    if e.LaneTake? || e.LaneFinish? || e.LaneExit? {
      LaneStepConserves(cfg, s, w, e, s', v, b);
    } else if e.MoverTake? || e.MoverAck? || e.MoverHandBack? || e.MoverFinish? {
      MoverStepConserves(cfg, s, w, e, s', v, b);
    } else if e.Arrive? || e.Deliver? || e.MoverPublish? {
      BrokerStepConserves(cfg, s, w, e, s', v, b);
    } else {
      LoopStepConserves(cfg, s, w, e, s', v, b);
    }
  }
}
