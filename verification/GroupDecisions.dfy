/** What the consumer decides about each command, read off the run alone: which commands enter their lane,
    under which numbers the others wait, and when a spill counts as stalled. No assumption on the broker. */
module GroupDecisions {
  import opened Options
  import opened KeyedQueues
  import opened GroupOverflow
  import opened GroupConsumer
  import opened GroupPlaces
  import opened GroupConservation
  import opened GroupGuarantees
  import opened GroupOrder
  import Sequences

  /** What the run says of a channel's spill: how many numbers were given out, which copies entered the lane,
      and when the spill began or a copy of it last entered. It ends when all of them have entered. */
  datatype Track = Untracked | Tracked(given: nat, entered: set<int>, last: int)

  ghost predicate AllEntered(given: nat, entered: set<int>) {
    forall n :: 1 <= n <= given ==> n in entered
  }

  /** Every copy numbered before this one has entered. */
  ghost predicate IsNext(h: Track, number: int) {
    h.Tracked? && forall n :: 1 <= n < number ==> n in h.entered
  }

  /** The track after a command of the channel came up. */
  ghost function Noted(h: Track, stalled: bool, copy: Option<int>, entered: bool, now: int): Track {
    if h.Untracked? || stalled then
      if entered then Untracked else Tracked(1, {}, now)
    else if !entered then
      if copy.None? then h.(given := h.given + 1) else h
    else if copy.None? then h
    else if AllEntered(h.given, h.entered + {copy.value}) then Untracked
    else Tracked(h.given, h.entered + {copy.value}, now)
  }

  /** The number under which a command that does not enter waits for the mover. */
  function NumberOf(h: Track, stalled: bool, copy: Option<int>): int {
    if h.Untracked? || stalled then 1 else if copy.None? then h.given + 1 else copy.value
  }

  /** The delivery waits last for the mover, under this number and since this time. */
  predicate Waits(queue: seq<Item>, d: Delivery, number: int, now: int) {
    queue != [] && var item := queue[|queue| - 1]; item.delivery == d && item.number == number && item.at == now
  }

  /** The overflow's counters say what the track says. */
  ghost predicate Agrees(view: View, channel: string, h: Track) {
    if channel in view.channels then
      var spill := view.channels[channel];
      && h.Tracked? && spill.next == h.given + 1 && spill.lastProgress == h.last
      && 1 <= spill.expected <= h.given
      && forall n :: 1 <= n ==> (n in h.entered <==> n < spill.expected)
    else h.Untracked?
  }

  lemma NextIsExpected(view: View, channel: string, h: Track, number: int)
    requires Agrees(view, channel, h) && channel in view.channels
    ensures IsNext(h, number) <==> number <= view.channels[channel].expected
  {
    var expected := view.channels[channel].expected;
    if number > expected {
      assert expected !in h.entered;
    }
  }

  lemma LastEnters(view: View, channel: string, h: Track, number: int)
    requires Agrees(view, channel, h) && channel in view.channels && number <= view.channels[channel].expected
    ensures AllEntered(h.given, h.entered + {number})
       <==> number == view.channels[channel].expected && view.channels[channel].expected + 1 == view.channels[channel].next
  {
    var spill := view.channels[channel];
    if AllEntered(h.given, h.entered + {number}) {
      assert spill.expected in h.entered + {number};
      assert h.given in h.entered + {number};
    }
  }

  lemma AdmitsAgrees(view: View, channel: string, h: Track, m: Message, now: int, admits: bool, after: View)
    requires view.WellFormed() && Agrees(view, channel, h) && (admits, after) == view.Admits(channel, m, now)
    ensures var stalled := channel in view.channels && view.Stalled(channel, now);
            && (admits <==> h.Untracked? || stalled || (view.CopyNumber(m).Some? && IsNext(h, view.CopyNumber(m).value)))
            && Agrees(after, channel, if stalled then Untracked else h) && after.nonce == view.nonce
  {
    if channel in view.channels && view.CopyNumber(m).Some? {
      NextIsExpected(view, channel, h, view.CopyNumber(m).value);
    }
  }

  lemma AdmittedAgrees(view: View, channel: string, h: Track, m: Message, now: int)
    requires Agrees(view, channel, h)
    requires h.Tracked? ==> view.CopyNumber(m).Some? && IsNext(h, view.CopyNumber(m).value)
    ensures Agrees(view.Admitted(channel, m, now), channel, Noted(h, false, view.CopyNumber(m), true, now))
  {
    if channel in view.channels {
      NextIsExpected(view, channel, h, view.CopyNumber(m).value);
      LastEnters(view, channel, h, view.CopyNumber(m).value);
    }
  }

  lemma SendAgrees(view: View, channel: string, h: Track, d: Delivery, now: int)
    requires view.WellFormed() && Agrees(view, channel, h)
    ensures var copy, after := view.CopyNumber(d.message), view.Send(channel, d, now);
            && Agrees(after, channel, Noted(h, false, copy, false, now))
            && |after.queue| == |view.queue| + 1 && after.queue[..|view.queue|] == view.queue
            && Waits(after.queue, d, NumberOf(h, false, copy), now)
  {
  }

  /** One command of the channel, decided on the overflow's counters and on the track alike. */
  lemma DispatchDecides(cfg: Config, view: View, pending: map<string, seq<Delivery>>, key: string, d: Delivery, now: int,
                        h: Track, stalled: bool, r: Dispatched)
    requires view.WellFormed() && Agrees(view, key, h) && (stalled <==> key in view.channels && view.Stalled(key, now))
    requires r == Dispatch(cfg, view, pending, key, d, now)
    ensures var copy := view.CopyNumber(d.message);
            && (r.entered <==> |Waiting(pending, key)| < cfg.backlog
                               && (h.Untracked? || stalled || (copy.Some? && IsNext(h, copy.value))))
            && Agrees(r.overflow, key, Noted(h, stalled, copy, r.entered, now))
            && (!r.entered ==> Waits(r.overflow.queue, d, NumberOf(h, stalled, copy), now))
  {
    var (admits, after) := view.Admits(key, d.message, now);
    AdmitsAgrees(view, key, h, d.message, now, admits, after);
    var h1 := if stalled then Untracked else h;
    if admits && !Full(pending, Some(cfg.backlog), key) {
      AdmittedAgrees(after, key, h1, d.message, now);
    } else {
      SendAgrees(after, key, h1, d, now);
    }
  }

  lemma DispatchLeavesOthers(cfg: Config, view: View, pending: map<string, seq<Delivery>>, key: string, d: Delivery, now: int,
                             channel: string, h: Track, r: Dispatched)
    requires view.WellFormed() && key != channel && Agrees(view, channel, h) && r == Dispatch(cfg, view, pending, key, d, now)
    ensures Agrees(r.overflow, channel, h)
  {
    var (admits, after) := view.Admits(key, d.message, now);
    assert channel in after.channels <==> channel in view.channels;
  }

  // ---------------------------------------------------------------- over runs

  /** The mover has no item of the channel's spill, neither in the queue nor in hand. */
  ghost predicate NothingLeft(s: State, channel: string) {
    channel in s.overflow.channels ==>
      var id := s.overflow.channels[channel].id;
      && (forall i :: 0 <= i < |s.overflow.queue| ==> s.overflow.queue[i].spill != id)
      && (s.mover.Idle? || s.mover.item.spill != id)
  }

  /** No copy came back for more than 30 seconds. */
  ghost predicate IsStalled(s: State, channel: string, h: Track, now: int) {
    h.Tracked? && NothingLeft(s, channel) && now - h.last > 30_000
  }

  /** The number a message carries if it is a copy of this instance. */
  function NumberIn(s: State, m: Message): Option<int> {
    if m.nonce == s.overflow.nonce then m.number else None
  }

  predicate Comes(s: State, e: Event, channel: string) {
    e.Consume? && s.inbox != [] && s.inbox[0].message.body.Command? && s.inbox[0].message.body.channel == channel
  }

  /** One command more is recorded as admitted. */
  predicate Entered(s: State, s': State, channel: string) {
    |Waiting(s'.admitted, channel)| == |Waiting(s.admitted, channel)| + 1
  }

  ghost function Note(cfg: Config, s: State, e: Event, channel: string, h: Track): Track
    requires Enabled(cfg, s, e)
  {
    if Comes(s, e, channel) then
      Noted(h, IsStalled(s, channel, h, e.now), NumberIn(s, s.inbox[0].message), Entered(s, Step(cfg, s, e), channel), e.now)
    else h
  }

  /** What the events of a run say of the channel's spill. */
  ghost function Recall(cfg: Config, s: State, events: seq<Event>, channel: string, h: Track): Track
    requires IsRun(cfg, s, events)
    decreases |events|
  {
    if events == [] then h
    else Recall(cfg, Step(cfg, s, events[0]), events[1..], channel, Note(cfg, s, events[0], channel, h))
  }

  lemma StallIsSeen(s: State, channel: string, h: Track, now: int)
    requires AllCounted(s.overflow, s.mover) && Agrees(s.overflow, channel, h)
    ensures IsStalled(s, channel, h, now) <==> channel in s.overflow.channels && s.overflow.Stalled(channel, now)
  {
    if channel in s.overflow.channels {
      var id := s.overflow.channels[channel].id;
      assert Counted(s.overflow, s.mover, id);
      NoItems(s.overflow.queue, id);
    }
  }

  /** How the consumer decides on a command of the channel: it enters when fewer than `backlog` commands are
      admitted and not started, and it is the channel's turn; and what does not enter waits under its number. */
  ghost predicate Decided(cfg: Config, s: State, now: int, s': State, channel: string, h: Track)
    requires s.inbox != []
  {
    var d, stalled, copy := s.inbox[0], IsStalled(s, channel, h, now), NumberIn(s, s.inbox[0].message);
    var turn := h.Untracked? || stalled || (copy.Some? && IsNext(h, copy.value));
    var room := |Waiting(s.admitted, channel)| - |Waiting(s.started, channel)| < cfg.backlog;
    && (Entered(s, s', channel) <==> turn && room)
    && (!Entered(s, s', channel) ==> Waits(s'.overflow.queue, d, NumberOf(h, stalled, copy), now))
  }

  lemma ConsumeKnown(cfg: Config, s: State, now: int, s': State, channel: string, h: Track)
    requires Enabled(cfg, s, Consume(now)) && s' == Consumed(cfg, s, now) && Comes(s, Consume(now), channel)
    requires AllCounted(s.overflow, s.mover) && LaneInOrder(s, channel) && Agrees(s.overflow, channel, h)
    ensures Decided(cfg, s, now, s', channel, h)
    ensures Agrees(s'.overflow, channel, Noted(h, IsStalled(s, channel, h, now), NumberIn(s, s.inbox[0].message), Entered(s, s', channel), now))
  {
    var d := s.inbox[0];
    var r := Dispatch(cfg, s.overflow, s.pending, channel, d, now);
    StallIsSeen(s, channel, h, now);
    DispatchDecides(cfg, s.overflow, s.pending, channel, d, now, h, IsStalled(s, channel, h, now), r);
    assert s'.overflow == r.overflow;
    assert Entered(s, s', channel) <==> r.entered;
  }

  lemma OtherConsumeKnown(cfg: Config, s: State, now: int, s': State, channel: string, h: Track)
    requires Enabled(cfg, s, Consume(now)) && s' == Consumed(cfg, s, now) && !Comes(s, Consume(now), channel)
    requires Agrees(s.overflow, channel, h)
    ensures Agrees(s'.overflow, channel, h)
  {
    var d := s.inbox[0];
    if d.message.body.Command? {
      var key := d.message.body.channel;
      DispatchLeavesOthers(cfg, s.overflow, s.pending, key, d, now, channel, h, Dispatch(cfg, s.overflow, s.pending, key, d, now));
    }
  }

  /** Only the loop changes what is tracked. */
  lemma OthersTrackNothing(cfg: Config, s: State, e: Event, s': State, channel: string, h: Track)
    requires Enabled(cfg, s, e) && !e.Consume? && s' == Step(cfg, s, e) && Agrees(s.overflow, channel, h)
    ensures Agrees(s'.overflow, channel, h)
  {
    if e.LaneTake? || e.LaneFinish? || e.LaneExit? || e.HandBack? || e.Break? || e.CloseStream? || e.Stop? {
      LaneSamePipe(cfg, s, e, s');
    }
  }

  lemma StepKnown(cfg: Config, s: State, e: Event, s': State, channel: string, h: Track)
    requires Enabled(cfg, s, e) && s' == Step(cfg, s, e)
    requires AllCounted(s.overflow, s.mover) && LaneInOrder(s, channel) && Agrees(s.overflow, channel, h)
    ensures Agrees(s'.overflow, channel, Note(cfg, s, e, channel, h))
  {
    if Comes(s, e, channel) {
      ConsumeKnown(cfg, s, e.now, s', channel, h);
    } else if e.Consume? {
      OtherConsumeKnown(cfg, s, e.now, s', channel, h);
    } else {
      OthersTrackNothing(cfg, s, e, s', channel, h);
    }
  }

  lemma {:induction false} RunKnown(cfg: Config, s: State, events: seq<Event>, channel: string, h: Track)
    requires IsRun(cfg, s, events)
    requires AllCounted(s.overflow, s.mover) && LaneInOrder(s, channel) && Agrees(s.overflow, channel, h)
    ensures var s' := After(cfg, s, events);
            && AllCounted(s'.overflow, s'.mover) && LaneInOrder(s', channel)
            && Agrees(s'.overflow, channel, Recall(cfg, s, events, channel, h))
    decreases |events|
  {
    if events != [] {
      var e, s' := events[0], Step(cfg, s, events[0]);
      StepKnown(cfg, s, e, s', channel, h);
      StepCounted(cfg, s, e, s');
      StepKeepsLane(cfg, s, e, channel);
      RunKnown(cfg, s', events[1..], channel, Note(cfg, s, e, channel, h));
    }
  }

  /** In every run, whatever the broker does, a command enters its lane exactly when fewer than `backlog`
      commands of the channel are admitted and not started and it is the channel's turn: no spill is out, the
      spill has stalled, or the command is a copy all of whose predecessors in the spill have entered. What
      does not enter waits under 1 when it begins a spill, under the number it has, or under the next one. */
  lemma EntersExactly(cfg: Config, nonce: string, events: seq<Event>, now: int, channel: string)
    requires IsRun(cfg, Start(nonce), events) && Enabled(cfg, After(cfg, Start(nonce), events), Consume(now))
    requires Comes(After(cfg, Start(nonce), events), Consume(now), channel)
    ensures var s := After(cfg, Start(nonce), events);
            Decided(cfg, s, now, Step(cfg, s, Consume(now)), channel, Recall(cfg, Start(nonce), events, channel, Untracked))
  {
    RunKnown(cfg, Start(nonce), events, channel, Untracked);
    var s := After(cfg, Start(nonce), events);
    ConsumeKnown(cfg, s, now, Consumed(cfg, s, now), channel, Recall(cfg, Start(nonce), events, channel, Untracked));
  }

  /** The guard fires exactly when the mover has nothing left of the spill and the spill neither began nor had
      a copy enter within the last 30 seconds. */
  lemma StallsExactly(cfg: Config, nonce: string, events: seq<Event>, now: int, channel: string)
    requires IsRun(cfg, Start(nonce), events)
    ensures var s, h := After(cfg, Start(nonce), events), Recall(cfg, Start(nonce), events, channel, Untracked);
            && (channel in s.overflow.channels <==> h.Tracked?)
            && (channel in s.overflow.channels && s.overflow.channels[channel].id < |s.overflow.unpublished| ==>
                  (s.overflow.Stalled(channel, now) <==> NothingLeft(s, channel) && now - h.last > 30_000))
  {
    RunKnown(cfg, Start(nonce), events, channel, Untracked);
    var s, h := After(cfg, Start(nonce), events), Recall(cfg, Start(nonce), events, channel, Untracked);
    StallIsSeen(s, channel, h, now);
  }

  // ---------------------------------------------------------------- what cannot be decoded

  /** A delivery that cannot be decoded waits in the inbox or went to the dead letters. */
  ghost predicate GarbageAside(handed: seq<Message>, w: seq<Place>) {
    && |w| == |handed|
    && forall t :: 0 <= t < |w| && handed[t].body.Garbage? ==> w[t] == Inbox || w[t] == Settled(DeadLettered)
  }

  /** A delivery at the head of any other place is a command. */
  lemma HeadIsCommand(s: State, w: seq<Place>, p: Place)
    requires Consistent(s, w) && GarbageAside(s.handed, w) && !p.Settled? && p != Inbox && At(s, p) != []
    ensures At(s, p)[0].tag < |w| && s.handed[At(s, p)[0].tag].body.Command?
  {
    assert Holds(w, s.handed, p, At(s, p));
  }

  lemma PutAside(handed: seq<Message>, w: seq<Place>, t: nat, p: Place)
    requires GarbageAside(handed, w) && (t < |w| && handed[t].body.Garbage? ==> p == Settled(DeadLettered))
    ensures GarbageAside(handed, Put(w, t, p))
  {
  }

  lemma ConsumeAside(cfg: Config, s: State, w: seq<Place>, now: int)
    requires Consistent(s, w) && GarbageAside(s.handed, w) && Enabled(cfg, s, Consume(now))
    ensures GarbageAside(s.handed, Put(w, s.inbox[0].tag, Destination(cfg, s, now)))
  {
    assert Holds(w, s.handed, Inbox, At(s, Inbox));
    PutAside(s.handed, w, s.inbox[0].tag, Destination(cfg, s, now));
  }

  lemma MoverAside(cfg: Config, s: State, w: seq<Place>, e: Event)
    requires Consistent(s, w) && GarbageAside(s.handed, w) && Enabled(cfg, s, e)
    requires e.MoverTake? || e.MoverAck? || e.MoverHandBack?
    ensures GarbageAside(s.handed, Moved(cfg, s, e, w))
  {
    match e
    case MoverTake =>
      HeadIsCommand(s, w, Spilled);
      PutAside(s.handed, w, s.overflow.queue[0].delivery.tag, WithMover);
    case MoverAck =>
      HeadIsCommand(s, w, WithMover);
      PutAside(s.handed, w, s.mover.item.delivery.tag, Settled(AckOfCopied(s)));
    case MoverHandBack =>
      HeadIsCommand(s, w, WithMover);
      PutAside(s.handed, w, s.mover.item.delivery.tag, Settled(Requeued));
  }

  lemma LaneAside(cfg: Config, s: State, w: seq<Place>, e: Event)
    requires Consistent(s, w) && GarbageAside(s.handed, w) && Enabled(cfg, s, e) && (e.LaneTake? || e.LaneFinish?)
    ensures GarbageAside(s.handed, Moved(cfg, s, e, w))
  {
    match e
    case LaneTake(key) =>
      HeadIsCommand(s, w, Lane(key));
      PutAside(s.handed, w, s.pending[key][0].tag, Running(key));
    case LaneFinish(key, how) =>
      HeadIsCommand(s, w, Running(key));
      PutAside(s.handed, w, s.running[key].tag, if how == Requeued then ToRequeue else Settled(how));
  }

  lemma StepAside(cfg: Config, s: State, w: seq<Place>, e: Event, s': State)
    requires Consistent(s, w) && GarbageAside(s.handed, w) && Enabled(cfg, s, e) && s' == Step(cfg, s, e)
    requires e.Deliver? || s'.handed == s.handed
    ensures GarbageAside(s'.handed, Moved(cfg, s, e, w))
  {
    if e.Deliver? {
      assert s' == Delivered(s);
    } else if e.Consume? {
      ConsumeAside(cfg, s, w, e.now);
    } else if e.MoverTake? || e.MoverAck? || e.MoverHandBack? {
      MoverAside(cfg, s, w, e);
    } else if e.LaneTake? || e.LaneFinish? {
      LaneAside(cfg, s, w, e);
    }
  }

  lemma OnlyDeliverHands(cfg: Config, s: State, e: Event, s': State)
    requires Enabled(cfg, s, e) && !e.Deliver? && s' == Step(cfg, s, e)
    ensures s'.handed == s.handed
  {
    if e.Consume? {
      ConsumedOutside(cfg, s, e.now);
    }
  }

  lemma {:induction false} RunAside(cfg: Config, s: State, events: seq<Event>, w: seq<Place>) returns (v: seq<Place>)
    requires IsRun(cfg, s, events) && Consistent(s, w) && GarbageAside(s.handed, w)
    ensures var s' := After(cfg, s, events); Consistent(s', v) && GarbageAside(s'.handed, v)
    decreases |events|
  {
    v := w;
    if events != [] {
      var e, s' := events[0], Step(cfg, s, events[0]);
      StepKeepsPlaces(cfg, s, w, e, s', Moved(cfg, s, e, w));
      if !e.Deliver? {
        OnlyDeliverHands(cfg, s, e, s');
      }
      StepAside(cfg, s, w, e, s');
      v := RunAside(cfg, s', events[1..], Moved(cfg, s, e, w));
    }
  }

  /** In every run a delivery that cannot be decoded is settled by sending it to the dead letters, and it
      never reaches a lane, the overflow or the mover. */
  lemma GarbageIsDeadLettered(cfg: Config, nonce: string, events: seq<Event>, i: nat)
    requires IsRun(cfg, Start(nonce), events) && i < |After(cfg, Start(nonce), events).log|
    ensures var s := After(cfg, Start(nonce), events); var settled := s.log[i];
            settled.tag < |s.handed| && (s.handed[settled.tag].body.Garbage? ==> settled.how == DeadLettered)
  {
    StartConsistent(nonce);
    var w := RunAside(cfg, Start(nonce), events, []);
  }

  // ---------------------------------------------------------------- the record of the past

  /** What the step adds to the bodies that others published, to the copies kept without a confirm, and to the
      first arrivals of the channel. */
  function Publishes(e: Event): seq<Body> {
    if e.Arrive? then [e.message.body] else []
  }

  function KeepsLate(s: State, e: Event): seq<Body> {
    if e == MoverPublish(StoresUnconfirmed) && s.mover.Holding? then [s.mover.item.delivery.message.body] else []
  }

  function Arrives(s: State, e: Event, channel: string): seq<nat> {
    if Comes(s, e, channel) && NumberIn(s, s.inbox[0].message).None? then [s.inbox[0].message.body.id] else []
  }

  ghost predicate Adds(s: State, s': State, published: seq<Body>, late: seq<Body>, channel: string, arrived: seq<nat>) {
    && s'.published == s.published + published && s'.late == s.late + late
    && Waiting(s'.arrived, channel) == Waiting(s.arrived, channel) + arrived
  }

  function Past(s: State): (seq<Body>, seq<Body>, map<string, seq<nat>>, bool) {
    (s.published, s.late, s.arrived, s.broken)
  }

  lemma NothingRecorded(s: State, s': State, channel: string)
    requires s'.published == s.published && s'.late == s.late && s'.arrived == s.arrived
    ensures Adds(s, s', [], [], channel, [])
  {
    assert s.published + [] == s.published && s.late + [] == s.late;
    assert Waiting(s.arrived, channel) + [] == Waiting(s.arrived, channel);
  }

  lemma ArriveRecords(s: State, m: Message, s': State, channel: string)
    requires s' == Arrived(s, m)
    ensures Adds(s, s', [m.body], [], channel, [])
  {
    assert s.late + [] == s.late && Waiting(s.arrived, channel) + [] == Waiting(s.arrived, channel);
  }

  lemma PublishRecords(s: State, answer: Answer, s': State, channel: string)
    requires s.mover.Holding? && s' == MoverPublished(s, answer)
    ensures Adds(s, s', [], KeepsLate(s, MoverPublish(answer)), channel, [])
  {
    if answer == StoresUnconfirmed {
      assert s.published + [] == s.published && Waiting(s.arrived, channel) + [] == Waiting(s.arrived, channel);
    } else {
      NothingRecorded(s, s', channel);
    }
  }

  lemma ConsumeRecords(cfg: Config, s: State, now: int, s': State, channel: string)
    requires Enabled(cfg, s, Consume(now)) && s' == Consumed(cfg, s, now)
    ensures Adds(s, s', [], [], channel, Arrives(s, Consume(now), channel))
  {
    ConsumedOutside(cfg, s, now);
    assert s.published + [] == s.published && s.late + [] == s.late;
    assert Waiting(s.arrived, channel) + [] == Waiting(s.arrived, channel);
  }

  lemma OthersRecordNothing(cfg: Config, s: State, e: Event, s': State)
    requires Enabled(cfg, s, e) && !e.Arrive? && !e.MoverPublish? && !e.Consume? && !e.Break? && s' == Step(cfg, s, e)
    ensures Past(s') == Past(s)
  {
    match e
    case LaneTake(key) => TookLaneRecordsNothing(s, key);
    case LaneFinish(key, how) => FinishedLaneRecordsNothing(s, key, how);
    case LaneExit(key) => LeftLaneRecordsNothing(s, key);
    case Deliver => DeliverRecordsNothing(s);
    case HandBack => HandBackRecordsNothing(s);
    case _ =>
  }

  lemma TookLaneRecordsNothing(s: State, key: string)
    requires Waiting(s.pending, key) != []
    ensures Past(TookLane(s, key)) == Past(s)
  {
  }

  lemma FinishedLaneRecordsNothing(s: State, key: string, how: How)
    requires key in s.running
    ensures Past(FinishedLane(s, key, how)) == Past(s)
  {
  }

  lemma LeftLaneRecordsNothing(s: State, key: string)
    ensures Past(LeftLane(s, key)) == Past(s)
  {
  }

  lemma DeliverRecordsNothing(s: State)
    requires s.broker != []
    ensures Past(Delivered(s)) == Past(s)
  {
  }

  lemma HandBackRecordsNothing(s: State)
    ensures Past(AllHandedBack(s)) == Past(s)
  {
  }

  lemma StepRecords(cfg: Config, s: State, e: Event, s': State, channel: string)
    requires Enabled(cfg, s, e) && s' == Step(cfg, s, e)
    ensures Adds(s, s', Publishes(e), KeepsLate(s, e), channel, Arrives(s, e, channel))
  {
    if e.Arrive? {
      ArriveRecords(s, e.message, s', channel);
    } else if e.MoverPublish? {
      PublishRecords(s, e.answer, s', channel);
    } else if e.Consume? {
      ConsumeRecords(cfg, s, e.now, s', channel);
    } else {
      if !e.Break? {
        OthersRecordNothing(cfg, s, e, s');
      }
      NothingRecorded(s, s', channel);
    }
  }

  ghost function AllPublished(cfg: Config, s: State, events: seq<Event>): seq<Body>
    requires IsRun(cfg, s, events)
    decreases |events|
  {
    if events == [] then [] else Publishes(events[0]) + AllPublished(cfg, Step(cfg, s, events[0]), events[1..])
  }

  ghost function AllLate(cfg: Config, s: State, events: seq<Event>): seq<Body>
    requires IsRun(cfg, s, events)
    decreases |events|
  {
    if events == [] then [] else KeepsLate(s, events[0]) + AllLate(cfg, Step(cfg, s, events[0]), events[1..])
  }

  ghost function AllArrived(cfg: Config, s: State, events: seq<Event>, channel: string): seq<nat>
    requires IsRun(cfg, s, events)
    decreases |events|
  {
    if events == [] then [] else Arrives(s, events[0], channel) + AllArrived(cfg, Step(cfg, s, events[0]), events[1..], channel)
  }

  /** The record of the past is what the events say: the bodies published by others, the copies kept without a
      confirm, and the commands of the channel that came up without a number of this instance, in order. */
  lemma {:induction false} RecordsAreTheEvents(cfg: Config, s: State, events: seq<Event>, channel: string)
    requires IsRun(cfg, s, events)
    ensures Adds(s, After(cfg, s, events), AllPublished(cfg, s, events), AllLate(cfg, s, events), channel,
                     AllArrived(cfg, s, events, channel))
    decreases |events|
  {
    if events == [] {
      NothingRecorded(s, s, channel);
    } else {
      var e, s' := events[0], Step(cfg, s, events[0]);
      StepRecords(cfg, s, e, s', channel);
      RecordsAreTheEvents(cfg, s', events[1..], channel);
      Sequences.Regroup(s.published, Publishes(e), AllPublished(cfg, s', events[1..]));
      Sequences.Regroup(s.late, KeepsLate(s, e), AllLate(cfg, s', events[1..]));
      Sequences.Regroup(Waiting(s.arrived, channel), Arrives(s, e, channel), AllArrived(cfg, s', events[1..], channel));
    }
  }

  lemma StepBreaks(cfg: Config, s: State, e: Event, s': State)
    requires Enabled(cfg, s, e) && s' == Step(cfg, s, e)
    ensures s'.broken <==> s.broken || e.Break?
  {
    if e.Consume? {
      ConsumedOutside(cfg, s, e.now);
    } else if e.MoverPublish? {
      assert s' == MoverPublished(s, e.answer);
    } else if !e.Break? && !e.Arrive? {
      OthersRecordNothing(cfg, s, e, s');
    }
  }

  lemma {:induction false} BrokenExactly(cfg: Config, s: State, events: seq<Event>)
    requires IsRun(cfg, s, events)
    ensures After(cfg, s, events).broken <==> s.broken || Break in events
    decreases |events|
  {
    if events != [] {
      StepBreaks(cfg, s, events[0], Step(cfg, s, events[0]));
      BrokenExactly(cfg, Step(cfg, s, events[0]), events[1..]);
      assert events == [events[0]] + events[1..];
    }
  }

  /** The broker hears the ack of a copied original exactly when the channel did not break before. */
  lemma HeardExactlyWhileOpen(cfg: Config, nonce: string, events: seq<Event>)
    requires IsRun(cfg, Start(nonce), events) && Enabled(cfg, After(cfg, Start(nonce), events), MoverAck)
    ensures var s := After(cfg, Start(nonce), events);
            Step(cfg, s, MoverAck).log
            == s.log + [Settlement(s.mover.item.delivery.tag, if Break in events then Doubled else Copied)]
  {
    BrokenExactly(cfg, Start(nonce), events);
  }
}
