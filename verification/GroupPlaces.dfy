/** Every delivery the consumer took is in exactly one place, and none is lost or settled twice. */
module GroupPlaces {
  import opened Options
  import opened KeyedQueues
  import opened GroupOverflow
  import opened GroupConsumer

  datatype Place =
    | Inbox
    | Lane(key: string)
    | Running(key: string)
    | ToRequeue
    | Spilled
    | WithMover
    | Settled(how: How)

  ghost predicate Has(ds: seq<Delivery>, t: nat) {
    exists i :: 0 <= i < |ds| && ds[i].tag == t
  }

  /** `ds` lists, once each, the deliveries that `w` puts at `p`. */
  ghost predicate Holds(w: seq<Place>, handed: seq<Message>, p: Place, ds: seq<Delivery>)
    requires |w| == |handed|
  {
    && (forall i :: 0 <= i < |ds| ==> ds[i].tag < |w| && w[ds[i].tag] == p && handed[ds[i].tag] == ds[i].message)
    && (forall i, j :: 0 <= i < j < |ds| ==> ds[i].tag != ds[j].tag)
    && (forall t: nat {:trigger Has(ds, t)} :: t < |w| && w[t] == p ==> Has(ds, t))
  }

  ghost predicate Recorded(log: seq<Settlement>, t: nat) {
    exists i :: 0 <= i < |log| && log[i].tag == t
  }

  /** The log settles, once each, exactly the tags that `w` says are settled, and in that way. */
  ghost predicate Logs(w: seq<Place>, log: seq<Settlement>) {
    && (forall i :: 0 <= i < |log| ==> log[i].tag < |w| && w[log[i].tag] == Settled(log[i].how))
    && (forall i, j :: 0 <= i < j < |log| ==> log[i].tag != log[j].tag)
    && (forall t: nat {:trigger Recorded(log, t)} :: t < |w| && w[t].Settled? ==> Recorded(log, t))
  }

  function Deliveries(queue: seq<Item>): (r: seq<Delivery>)
    ensures |r| == |queue| && forall i :: 0 <= i < |queue| ==> r[i] == queue[i].delivery
  {
    seq(|queue|, i requires 0 <= i < |queue| => queue[i].delivery)
  }

  /** The deliveries at a place, in order. Settled ones are in the log instead. */
  function At(s: State, p: Place): seq<Delivery> {
    match p
    case Inbox => s.inbox
    case Lane(key) => Waiting(s.pending, key)
    case Running(key) => if key in s.running then [s.running[key]] else []
    case ToRequeue => s.requeue
    case Spilled => Deliveries(s.overflow.queue)
    case WithMover => if s.mover.Holding? || s.mover.Confirmed? then [s.mover.item.delivery] else []
    case Settled(_) => []
  }

  /** `w[t]` is the one place of tag t. */
  ghost predicate Consistent(s: State, w: seq<Place>) {
    && |w| == |s.handed|
    && (forall p: Place :: !p.Settled? ==> Holds(w, s.handed, p, At(s, p)))
    && Logs(w, s.log)
  }

  // ---------------------------------------------------------------- one delivery changes place

  lemma Untouched(w: seq<Place>, v: seq<Place>, handed: seq<Message>, p: Place, ds: seq<Delivery>)
    requires |w| == |v| == |handed| && Holds(w, handed, p, ds)
    requires forall t :: 0 <= t < |w| ==> (w[t] == p <==> v[t] == p)
    ensures Holds(v, handed, p, ds)
  {
    forall t: nat | t < |v| && v[t] == p
      ensures Has(ds, t)
    {
      assert Has(ds, t);
    }
  }

  lemma Pushed(w: seq<Place>, handed: seq<Message>, p: Place, ds: seq<Delivery>, d: Delivery)
    requires |w| == |handed| && Holds(w, handed, p, ds)
    requires d.tag < |w| && w[d.tag] != p && handed[d.tag] == d.message
    ensures Holds(w[d.tag := p], handed, p, ds + [d])
  {
    var v, es := w[d.tag := p], ds + [d];
    forall t: nat | t < |v| && v[t] == p
      ensures Has(es, t)
    {
      if t == d.tag {
        assert es[|ds|].tag == t;
      } else {
        assert Has(ds, t);
        var i :| 0 <= i < |ds| && ds[i].tag == t;
        assert es[i].tag == t;
      }
    }
  }

  lemma Popped(w: seq<Place>, handed: seq<Message>, p: Place, ds: seq<Delivery>, q: Place)
    requires |w| == |handed| && Holds(w, handed, p, ds) && ds != [] && q != p
    ensures Holds(w[ds[0].tag := q], handed, p, ds[1..])
  {
    var v, es := w[ds[0].tag := q], ds[1..];
    forall t: nat | t < |v| && v[t] == p
      ensures Has(es, t)
    {
      assert Has(ds, t);
      var i :| 0 <= i < |ds| && ds[i].tag == t;
      assert es[i - 1].tag == t;
    }
  }

  lemma Logged(w: seq<Place>, log: seq<Settlement>, t: nat, how: How)
    requires Logs(w, log) && t < |w| && !w[t].Settled?
    ensures Logs(w[t := Settled(how)], log + [Settlement(t, how)])
  {
    var v, more := w[t := Settled(how)], log + [Settlement(t, how)];
    forall u: nat | u < |v| && v[u].Settled?
      ensures Recorded(more, u)
    {
      if u == t {
        assert more[|log|].tag == u;
      } else {
        assert Recorded(log, u);
        var i :| 0 <= i < |log| && log[i].tag == u;
        assert more[i].tag == u;
      }
    }
  }

  /** The head of one place moves to the end of another, or is settled; every other place is as it was. */
  lemma Moves(s: State, s': State, w: seq<Place>, from: Place, to: Place)
    requires Consistent(s, w) && s'.handed == s.handed
    requires !from.Settled? && from != to && At(s, from) != []
    requires At(s', from) == At(s, from)[1..]
    requires forall p: Place :: p != from && p != to ==> At(s', p) == At(s, p)
    requires !to.Settled? ==> s'.log == s.log && At(s', to) == At(s, to) + [At(s, from)[0]]
    requires to.Settled? ==> s'.log == s.log + [Settlement(At(s, from)[0].tag, to.how)]
    ensures Consistent(s', Put(w, At(s, from)[0].tag, to))
  {
    var d := At(s, from)[0];
    assert Holds(w, s.handed, from, At(s, from));
    var v := w[d.tag := to];
    Popped(w, s.handed, from, At(s, from), to);
    if to.Settled? {
      Logged(w, s.log, d.tag, to.how);
    } else {
      assert Holds(w, s.handed, to, At(s, to));
      Pushed(w, s.handed, to, At(s, to), d);
    }
    forall p: Place | !p.Settled? && p != from && p != to
      ensures Holds(v, s'.handed, p, At(s', p))
    {
      assert Holds(w, s.handed, p, At(s, p));
      Untouched(w, v, s.handed, p, At(s, p));
    }
  }

  function Put(w: seq<Place>, t: nat, p: Place): seq<Place> {
    if t < |w| then w[t := p] else w
  }

  // ---------------------------------------------------------------- every step keeps the places

  /** Where the loop body puts the head of the inbox. */
  function Destination(cfg: Config, s: State, now: int): Place
    requires s.inbox != [] && s.overflow.WellFormed()
  {
    var d := s.inbox[0];
    match d.message.body
    case Garbage => Settled(DeadLettered)
    case Command(key, _) =>
      if Dispatch(cfg, s.overflow, s.pending, key, d, now).entered then Lane(key) else Spilled
  }

  lemma StartConsistent(nonce: string)
    ensures Consistent(Start(nonce), [])
  {
  }

  /** A new tag is in the inbox. */
  lemma DeliverKeeps(cfg: Config, s: State, w: seq<Place>)
    requires Consistent(s, w) && Enabled(cfg, s, Deliver)
    ensures Consistent(Delivered(s), w + [Inbox])
  {
    var s', v := Delivered(s), w + [Inbox];
    forall p: Place | !p.Settled?
      ensures Holds(v, s'.handed, p, At(s', p))
    {
      assert Holds(w, s.handed, p, At(s, p));
      if p == Inbox {
        NewInInbox(w, s.handed, s.inbox, s.broker[0]);
      } else {
        assert At(s', p) == At(s, p);
      }
    }
    forall t: nat | t < |v| && v[t].Settled?
      ensures Recorded(s'.log, t)
    {
      assert Recorded(s.log, t);
    }
  }

  lemma NewInInbox(w: seq<Place>, handed: seq<Message>, ds: seq<Delivery>, m: Message)
    requires |w| == |handed| && Holds(w, handed, Inbox, ds)
    ensures Holds(w + [Inbox], handed + [m], Inbox, ds + [Delivery(|w|, m)])
  {
    var es := ds + [Delivery(|w|, m)];
    forall t: nat | t < |w| + 1 && (w + [Inbox])[t] == Inbox
      ensures Has(es, t)
    {
      if t == |w| {
        assert es[|ds|].tag == t;
      } else {
        assert Has(ds, t);
        var i :| 0 <= i < |ds| && ds[i].tag == t;
        assert es[i].tag == t;
      }
    }
  }

  function AllBack(w: seq<Place>): (v: seq<Place>)
    ensures |v| == |w|
    ensures forall t :: 0 <= t < |w| ==> v[t] == if w[t] == ToRequeue then Settled(Requeued) else w[t]
  {
    seq(|w|, t requires 0 <= t < |w| => if w[t] == ToRequeue then Settled(Requeued) else w[t])
  }

  /** The requeue list, sorted, joins the log as a whole. */
  lemma HandBackKeeps(s: State, s': State, w: seq<Place>)
    requires Consistent(s, w) && s'.handed == s.handed
    requires s'.log == s.log + Returned(SortByTag(s.requeue))
    requires forall p: Place :: At(s', p) == if p == ToRequeue then [] else At(s, p)
    ensures Consistent(s', AllBack(w))
  {
    assert Holds(w, s.handed, ToRequeue, At(s, ToRequeue));
    SortedHolds(w, s.handed, ToRequeue, s.requeue);
    HandBackLogs(w, AllBack(w), s.handed, s.log, SortByTag(s.requeue));
    forall p: Place | !p.Settled?
      ensures Holds(AllBack(w), s'.handed, p, At(s', p))
    {
      assert Holds(w, s.handed, p, At(s, p));
      HandBackHolds(w, s.handed, p, At(s, p), At(s', p));
    }
  }

  lemma HandBackHolds(w: seq<Place>, handed: seq<Message>, p: Place, ds: seq<Delivery>, es: seq<Delivery>)
    requires |w| == |handed| && !p.Settled? && Holds(w, handed, p, ds) && es == if p == ToRequeue then [] else ds
    ensures Holds(AllBack(w), handed, p, es)
  {
    if p != ToRequeue {
      Untouched(w, AllBack(w), handed, p, ds);
    }
  }

  /** The same deliveries in another order. */
  lemma SameDeliveries(ds: seq<Delivery>, es: seq<Delivery>, d: Delivery)
    requires multiset(es) == multiset(ds)
    ensures d in es <==> d in ds
  {
    assert d in es <==> d in multiset(es);
    assert d in ds <==> d in multiset(ds);
  }

  lemma TagsStayDistinct(ds: seq<Delivery>, es: seq<Delivery>, i: nat, j: nat)
    requires multiset(es) == multiset(ds) && i < j < |es|
    requires forall i, j :: 0 <= i < j < |ds| ==> ds[i].tag != ds[j].tag
    ensures es[i].tag != es[j].tag
  {
    if es[i].tag == es[j].tag {
      SameDeliveries(ds, es, es[i]);
      SameDeliveries(ds, es, es[j]);
      var k :| 0 <= k < |ds| && ds[k] == es[i];
      var l :| 0 <= l < |ds| && ds[l] == es[j];
      assert k == l;
      TwiceInMultiset(es, i, j);
      NoRepeats(ds, es[i]);
    }
  }

  lemma SortedHolds(w: seq<Place>, handed: seq<Message>, p: Place, ds: seq<Delivery>)
    requires |w| == |handed| && Holds(w, handed, p, ds)
    ensures Holds(w, handed, p, SortByTag(ds))
  {
    var es := SortByTag(ds);
    forall i | 0 <= i < |es|
      ensures es[i].tag < |w| && w[es[i].tag] == p && handed[es[i].tag] == es[i].message
    {
      SameDeliveries(ds, es, es[i]);
    }
    forall i, j | 0 <= i < j < |es|
      ensures es[i].tag != es[j].tag
    {
      TagsStayDistinct(ds, es, i, j);
    }
    forall t: nat | t < |w| && w[t] == p
      ensures Has(es, t)
    {
      assert Has(ds, t);
      var i :| 0 <= i < |ds| && ds[i].tag == t;
      SameDeliveries(ds, es, ds[i]);
    }
  }

  lemma TwiceInMultiset(es: seq<Delivery>, i: nat, j: nat)
    requires i < j < |es| && es[i] == es[j]
    ensures multiset(es)[es[i]] >= 2
  {
    assert es == es[..j] + [es[j]] + es[j + 1..];
    assert es[i] in es[..j];
  }

  lemma {:induction false} NoRepeats(ds: seq<Delivery>, d: Delivery)
    requires forall i, j :: 0 <= i < j < |ds| ==> ds[i].tag != ds[j].tag
    ensures multiset(ds)[d] <= 1
  {
    if ds != [] {
      assert ds == [ds[0]] + ds[1..];
      NoRepeats(ds[1..], d);
      if ds[0] == d && d in ds[1..] {
        assert false;
      }
    }
  }

  lemma HandBackLogs(w: seq<Place>, v: seq<Place>, handed: seq<Message>, log: seq<Settlement>, ds: seq<Delivery>)
    requires |w| == |v| == |handed| && Holds(w, handed, ToRequeue, ds) && Logs(w, log)
    requires forall t :: 0 <= t < |w| ==> v[t] == if w[t] == ToRequeue then Settled(Requeued) else w[t]
    ensures Logs(v, log + Returned(ds))
  {
    var more := log + Returned(ds);
    forall t: nat | t < |v| && v[t].Settled?
      ensures Recorded(more, t)
    {
      if w[t] == ToRequeue {
        assert Has(ds, t);
        var i :| 0 <= i < |ds| && ds[i].tag == t;
        assert more[|log| + i].tag == t;
      } else {
        assert Recorded(log, t);
        var i :| 0 <= i < |log| && log[i].tag == t;
        assert more[i].tag == t;
      }
    }
  }

  /** How a step moves deliveries between places. */
  ghost function Moved(cfg: Config, s: State, e: Event, w: seq<Place>): seq<Place>
    requires Enabled(cfg, s, e)
  {
    match e
    case Deliver => w + [Inbox]
    case Consume(now) => Put(w, s.inbox[0].tag, Destination(cfg, s, now))
    case MoverTake => Put(w, s.overflow.queue[0].delivery.tag, WithMover)
    case MoverAck => Put(w, s.mover.item.delivery.tag, Settled(AckOfCopied(s)))
    case MoverHandBack => Put(w, s.mover.item.delivery.tag, Settled(Requeued))
    case LaneTake(key) => Put(w, s.pending[key][0].tag, Running(key))
    case LaneFinish(key, how) => Put(w, s.running[key].tag, if how == Requeued then ToRequeue else Settled(how))
    case HandBack => AllBack(w)
    case _ => w
  }

  lemma GarbageMoves(cfg: Config, s: State, w: seq<Place>, now: int)
    requires Consistent(s, w) && Enabled(cfg, s, Consume(now)) && s.inbox[0].message.body.Garbage?
    ensures Consistent(Consumed(cfg, s, now), Put(w, s.inbox[0].tag, Settled(DeadLettered)))
  {
    Moves(s, Consumed(cfg, s, now), w, Inbox, Settled(DeadLettered));
  }

  lemma EntersLane(s: State, s': State, w: seq<Place>, key: string)
    requires Consistent(s, w) && s.inbox != []
    requires s'.pending == Append(s.pending, key, s.inbox[0])
    requires Deliveries(s'.overflow.queue) == Deliveries(s.overflow.queue)
    requires SameElsewhere(s, s')
    ensures Consistent(s', Put(w, s.inbox[0].tag, Lane(key)))
  {
    forall p: Place | p != Inbox && p != Lane(key)
      ensures At(s', p) == At(s, p)
    {
      match p
      case Lane(_) =>
      case _ =>
    }
    assert At(s', Lane(key)) == At(s, Lane(key)) + [s.inbox[0]];
    Moves(s, s', w, Inbox, Lane(key));
  }

  lemma EntersOverflow(s: State, s': State, w: seq<Place>)
    requires Consistent(s, w) && s.inbox != []
    requires s'.pending == s.pending
    requires Deliveries(s'.overflow.queue) == Deliveries(s.overflow.queue) + [s.inbox[0]]
    requires SameElsewhere(s, s')
    ensures Consistent(s', Put(w, s.inbox[0].tag, Spilled))
  {
    Moves(s, s', w, Inbox, Spilled);
  }

  /** One delivery left the inbox; what is neither lane nor overflow is unchanged. */
  ghost predicate SameElsewhere(s: State, s': State) {
    && s.inbox != [] && s'.inbox == s.inbox[1..]
    && s'.running == s.running && s'.requeue == s.requeue && s'.mover == s.mover
    && s'.log == s.log && s'.handed == s.handed
  }

  lemma DispatchPlaces(cfg: Config, overflow: View, pending: map<string, seq<Delivery>>, key: string, d: Delivery, now: int)
    requires overflow.WellFormed()
    ensures var r := Dispatch(cfg, overflow, pending, key, d, now);
            if r.entered then r.pending == Append(pending, key, d) && r.overflow.queue == overflow.queue
            else r.pending == pending && Deliveries(r.overflow.queue) == Deliveries(overflow.queue) + [d]
  {
  }

  lemma CommandMoves(cfg: Config, s: State, w: seq<Place>, now: int, s': State, v: seq<Place>)
    requires Consistent(s, w) && Enabled(cfg, s, Consume(now)) && s.inbox[0].message.body.Command?
    requires s' == Consumed(cfg, s, now) && v == Put(w, s.inbox[0].tag, Destination(cfg, s, now))
    ensures |v| == |s'.handed| && Consistent(s', v)
  {
    var d := s.inbox[0];
    var key := d.message.body.channel;
    DispatchPlaces(cfg, s.overflow, s.pending, key, d, now);
    if Dispatch(cfg, s.overflow, s.pending, key, d, now).entered {
      EntersLane(s, s', w, key);
    } else {
      EntersOverflow(s, s', w);
    }
  }

  lemma MoverTakeMoves(s: State, w: seq<Place>)
    requires Consistent(s, w) && s.mover.Idle? && s.overflow.queue != []
    ensures Consistent(MoverTook(s), Put(w, s.overflow.queue[0].delivery.tag, WithMover))
  {
    assert At(MoverTook(s), Spilled) == At(s, Spilled)[1..];
    Moves(s, MoverTook(s), w, Spilled, WithMover);
  }

  lemma LaneTakeElsewhere(s: State, s': State, key: string, p: Place)
    requires Waiting(s.pending, key) != [] && s' == TookLane(s, key) && p != Lane(key) && p != Running(key)
    ensures At(s', p) == At(s, p)
  {
  }

  lemma LaneTakeMoves(cfg: Config, s: State, w: seq<Place>, key: string)
    requires Consistent(s, w) && Enabled(cfg, s, LaneTake(key))
    ensures Consistent(TookLane(s, key), Put(w, s.pending[key][0].tag, Running(key)))
  {
    var s' := TookLane(s, key);
    forall p: Place | p != Lane(key) && p != Running(key)
      ensures At(s', p) == At(s, p)
    {
      LaneTakeElsewhere(s, s', key, p);
    }
    assert At(s', Lane(key)) == At(s, Lane(key))[1..];
    Moves(s, s', w, Lane(key), Running(key));
  }

  lemma LaneFinishMoves(cfg: Config, s: State, w: seq<Place>, key: string, how: How)
    requires Consistent(s, w) && Enabled(cfg, s, LaneFinish(key, how))
    ensures Consistent(FinishedLane(s, key, how),
                       Put(w, s.running[key].tag, if how == Requeued then ToRequeue else Settled(how)))
  {
    var s' := FinishedLane(s, key, how);
    forall p: Place | p != Running(key) && p != ToRequeue
      ensures At(s', p) == At(s, p)
    {
      match p
      case Running(_) =>
      case _ =>
    }
    Moves(s, s', w, Running(key), if how == Requeued then ToRequeue else Settled(how));
  }

  /** The mover settles what it holds. */
  lemma MoverSettles(s: State, s': State, w: seq<Place>, how: How)
    requires Consistent(s, w)
    requires (s.mover.Confirmed? && s' == MoverAcked(s) && how == AckOfCopied(s))
          || (s.mover.Holding? && s' == MoverHandedBack(s) && how == Requeued)
    ensures Consistent(s', Put(w, s.mover.item.delivery.tag, Settled(how)))
  {
    Moves(s, s', w, WithMover, Settled(how));
  }

  /** Neither deliveries nor log are touched. */
  lemma Stays(s: State, s': State, w: seq<Place>)
    requires Consistent(s, w) && s'.handed == s.handed && s'.log == s.log
    requires forall p: Place :: At(s', p) == At(s, p)
    ensures Consistent(s', w)
  {
  }

  lemma PublishStays(s: State, w: seq<Place>, answer: Answer)
    requires Consistent(s, w) && s.mover.Holding?
    ensures Consistent(MoverPublished(s, answer), w)
  {
    Stays(s, MoverPublished(s, answer), w);
  }

  lemma FinishStays(s: State, w: seq<Place>)
    requires Consistent(s, w) && s.mover.Left? && s.mover.item.spill < |s.overflow.unpublished|
    ensures Consistent(MoverFinished(s), w)
  {
    Stays(s, MoverFinished(s), w);
  }

  lemma ExitStays(s: State, w: seq<Place>, key: string)
    requires Consistent(s, w) && Waiting(s.pending, key) == []
    ensures Consistent(LeftLane(s, key), w)
  {
    forall p: Place
      ensures At(LeftLane(s, key), p) == At(s, p)
    {
      match p
      case Lane(_) =>
      case _ =>
    }
    Stays(s, LeftLane(s, key), w);
  }

  lemma AllHandedBackElsewhere(s: State, p: Place)
    ensures At(AllHandedBack(s), p) == if p == ToRequeue then [] else At(s, p)
  {
  }

  lemma AllHandedBackMoves(s: State, w: seq<Place>)
    requires Consistent(s, w)
    ensures Consistent(AllHandedBack(s), AllBack(w))
  {
    forall p: Place
      ensures At(AllHandedBack(s), p) == if p == ToRequeue then [] else At(s, p)
    {
      AllHandedBackElsewhere(s, p);
    }
    HandBackKeeps(s, AllHandedBack(s), w);
  }

  /** Arrive, Break, CloseStream and Stop touch neither deliveries nor log. */
  lemma EnvironmentStays(s: State, w: seq<Place>, broker: seq<Message>, published: seq<Body>, phase: Phase, broken: bool)
    requires Consistent(s, w)
    ensures Consistent(s.(broker := broker, published := published, phase := phase, broken := broken), w)
  {
  }

  lemma ConsumeMoves(cfg: Config, s: State, w: seq<Place>, now: int, s': State, v: seq<Place>)
    requires Consistent(s, w) && Enabled(cfg, s, Consume(now))
    requires s' == Consumed(cfg, s, now) && v == Put(w, s.inbox[0].tag, Destination(cfg, s, now))
    ensures Consistent(s', v)
  {
    if s.inbox[0].message.body.Garbage? {
      GarbageMoves(cfg, s, w, now);
    } else {
      CommandMoves(cfg, s, w, now, s', v);
    }
  }

  lemma MoverStepKeepsPlaces(cfg: Config, s: State, w: seq<Place>, e: Event, s': State, v: seq<Place>)
    requires Consistent(s, w) && Enabled(cfg, s, e) && s' == Step(cfg, s, e) && v == Moved(cfg, s, e, w)
    requires e.MoverTake? || e.MoverPublish? || e.MoverAck? || e.MoverHandBack? || e.MoverFinish?
    ensures Consistent(s', v)
  {
    match e
    case MoverTake => MoverTakeMoves(s, w);
    case MoverPublish(answer) => PublishStays(s, w, answer);
    case MoverAck => MoverSettles(s, s', w, AckOfCopied(s));
    case MoverHandBack => MoverSettles(s, s', w, Requeued);
    case MoverFinish => FinishStays(s, w);
  }

  lemma LaneStepKeepsPlaces(cfg: Config, s: State, w: seq<Place>, e: Event, s': State, v: seq<Place>)
    requires Consistent(s, w) && Enabled(cfg, s, e) && s' == Step(cfg, s, e) && v == Moved(cfg, s, e, w)
    requires e.LaneTake? || e.LaneFinish? || e.LaneExit? || e.HandBack?
    ensures Consistent(s', v)
  {
    match e
    case LaneTake(key) => LaneTakeMoves(cfg, s, w, key);
    case LaneFinish(key, how) => LaneFinishMoves(cfg, s, w, key, how);
    case LaneExit(key) => ExitStays(s, w, key);
    case HandBack => AllHandedBackMoves(s, w);
  }

  lemma LoopStepKeepsPlaces(cfg: Config, s: State, w: seq<Place>, e: Event, s': State, v: seq<Place>)
    requires Consistent(s, w) && Enabled(cfg, s, e) && s' == Step(cfg, s, e) && v == Moved(cfg, s, e, w)
    requires e.Arrive? || e.Deliver? || e.Consume? || e.Break? || e.CloseStream? || e.Stop?
    ensures Consistent(s', v)
  {
    match e
    case Deliver => DeliverKeeps(cfg, s, w);
    case Consume(now) => ConsumeMoves(cfg, s, w, now, s', v);
    case Arrive(m) => EnvironmentStays(s, w, s'.broker, s'.published, s.phase, s.broken);
    case Break => EnvironmentStays(s, w, s.broker, s.published, s.phase, true);
    case CloseStream => EnvironmentStays(s, w, s.broker, s.published, Draining, s.broken);
    case Stop => EnvironmentStays(s, w, s.broker, s.published, Stopping, s.broken);
  }

  lemma StepKeepsPlaces(cfg: Config, s: State, w: seq<Place>, e: Event, s': State, v: seq<Place>)
    requires Consistent(s, w) && Enabled(cfg, s, e) && s' == Step(cfg, s, e) && v == Moved(cfg, s, e, w)
    ensures Consistent(s', v)
  {
    if e.MoverTake? || e.MoverPublish? || e.MoverAck? || e.MoverHandBack? || e.MoverFinish? {
      MoverStepKeepsPlaces(cfg, s, w, e, s', v);
    } else if e.LaneTake? || e.LaneFinish? || e.LaneExit? || e.HandBack? {
      LaneStepKeepsPlaces(cfg, s, w, e, s', v);
    } else {
      LoopStepKeepsPlaces(cfg, s, w, e, s', v);
    }
  }
}
