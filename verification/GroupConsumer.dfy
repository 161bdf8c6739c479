/** The consumer of group commands (internal/amqp/group_lanes.go) as a step relation.

    One loop takes deliveries from a FIFO queue; each channel has a bounded lane drained by one
    worker; a mover copies what does not fit to the queue's tail. Each event below is one critical
    section, or one exchange with the broker, of one of these goroutines; they interleave freely. */
module GroupConsumer {
  import opened Options
  import opened KeyedQueues
  import opened GroupOverflow

  /** What became of a delivery: acked after handling, nacked to the dead letters, nacked back to the
      queue, or acked because its copy is confirmed. Doubled: acked for its copy when the channel was
      already closed, so that the broker did not hear it and keeps the original beside the copy. */
  datatype How = Acked | DeadLettered | Requeued | Copied | Doubled

  datatype Settlement = Settlement(tag: nat, how: How)

  /** Holding: taken from the overflow queue. Confirmed: the copy is in the broker, the original not
      yet acked. Left: the original is settled, the spill's counter not yet brought down. */
  datatype Mover = Idle | Holding(item: Item) | Confirmed(item: Item) | Left(item: Item)

  /** Consuming; then, the delivery stream being closed, Draining what was delivered and the lanes;
      then Stopping the mover; then Finished, the requeue list handed back. */
  datatype Phase = Consuming | Draining | Stopping | Finished

  /** StoresUnconfirmed: the broker has the copy but the publish returned an error. */
  datatype Answer = Confirms | Refuses | StoresUnconfirmed

  datatype Config = Config(prefetch: nat, backlog: int)

  /** `handed[t]` is what the delivery with tag t carried. The last six fields only record the past:
      bodies published by others, copies the broker kept without a confirm, originals the mover handed
      back, and per channel the commands by first arrival, by entry into the lane and by start. */
  datatype State = State(
    broker: seq<Message>,
    inbox: seq<Delivery>,
    overflow: View,
    mover: Mover,
    pending: map<string, seq<Delivery>>,
    running: map<string, Delivery>,
    requeue: seq<Delivery>,
    log: seq<Settlement>,
    handed: seq<Message>,
    phase: Phase,
    broken: bool,
    published: seq<Body>,
    late: seq<Body>,
    handedBack: seq<Item>,
    arrived: map<string, seq<nat>>,
    admitted: map<string, seq<nat>>,
    started: map<string, seq<nat>>)

  datatype Event =
    | Arrive(message: Message)
    | Deliver
    | Consume(now: int)
    | MoverTake
    | MoverPublish(answer: Answer)
    | MoverAck
    | MoverHandBack
    | MoverFinish
    | LaneTake(key: string)
    | LaneFinish(key: string, how: How)
    | LaneExit(key: string)
    | Break
    | CloseStream
    | Stop
    | HandBack

  function Start(nonce: string): State {
    State([], [], View(nonce, map[], [], []), Idle, map[], map[], [], [], [], Consuming, false,
          [], [], [], map[], map[], map[])
  }

  /** Deliveries the broker still waits an answer for. */
  function Unsettled(s: State): int {
    |s.handed| - |s.log|
  }

  /** `WellFormed` and the bound on spill identities hold in every reachable state (ReachableIsSound). */
  ghost predicate Enabled(cfg: Config, s: State, e: Event) {
    match e
    case Arrive(m) => m.nonce != s.overflow.nonce
    case Deliver => s.phase == Consuming && !s.broken && s.broker != [] && Unsettled(s) < cfg.prefetch
    case Consume(_) => s.inbox != [] && s.overflow.WellFormed()
    case MoverTake => s.mover.Idle? && s.overflow.queue != []
    case MoverPublish(answer) => s.mover.Holding? && (s.broken ==> answer == Refuses)
    case MoverAck => s.mover.Confirmed?
    case MoverHandBack => s.mover.Holding? && (s.broken || s.phase == Stopping)
    case MoverFinish => s.mover.Left? && s.mover.item.spill < |s.overflow.unpublished|
    case LaneTake(key) => Waiting(s.pending, key) != [] && key !in s.running
    case LaneFinish(key, how) => key in s.running && how != Copied && how != Doubled
    case LaneExit(key) => key in s.pending && s.pending[key] == [] && key !in s.running
    case Break => true
    case CloseStream => s.phase == Consuming
    case Stop => s.phase == Draining && s.inbox == [] && s.pending == map[] && s.running == map[]
    case HandBack => s.phase == Stopping && s.mover.Idle? && s.overflow.queue == []
  }

  /** The loop body of consumePerChannel on a decoded command: what it does to overflow and lanes. */
  function Dispatch(cfg: Config, overflow: View, pending: map<string, seq<Delivery>>, key: string, d: Delivery, now: int)
    : (r: Dispatched)
    requires overflow.WellFormed()
  {
    var (admits, after) := overflow.Admits(key, d.message, now);
    if admits && !Full(pending, Some(cfg.backlog), key) then
      Dispatched(true, after.Admitted(key, d.message, now), Append(pending, key, d))
    else
      Dispatched(false, after.Send(key, d, now), pending)
  }

  datatype Dispatched = Dispatched(entered: bool, overflow: View, pending: map<string, seq<Delivery>>)

  function DeadLetter(s: State): State
    requires s.inbox != []
  {
    s.(inbox := s.inbox[1..], log := s.log + [Settlement(s.inbox[0].tag, DeadLettered)])
  }

  /** The state after a command, given what the dispatch did with it. */
  function Took(s: State, key: string, id: nat, isNew: bool, r: Dispatched): State
    requires s.inbox != []
  {
    s.(inbox := s.inbox[1..], overflow := r.overflow, pending := r.pending,
       arrived := if isNew then Append(s.arrived, key, id) else s.arrived,
       admitted := if r.entered then Append(s.admitted, key, id) else s.admitted)
  }

  function Consumed(cfg: Config, s: State, now: int): State
    requires s.inbox != [] && s.overflow.WellFormed()
  {
    var d := s.inbox[0];
    match d.message.body
    case Garbage => DeadLetter(s)
    case Command(key, id) =>
      Took(s, key, id, s.overflow.CopyNumber(d.message).None?, Dispatch(cfg, s.overflow, s.pending, key, d, now))
  }

  /** What the loop body never touches. */
  ghost predicate SameOutside(s: State, s': State) {
    && s'.broker == s.broker && s'.mover == s.mover && s'.running == s.running && s'.requeue == s.requeue
    && s'.handed == s.handed && s'.phase == s.phase && s'.broken == s.broken && s'.published == s.published
    && s'.late == s.late && s'.handedBack == s.handedBack && s'.started == s.started
    && s.inbox != [] && s'.inbox == s.inbox[1..]
  }

  lemma TookOutside(s: State, key: string, id: nat, isNew: bool, r: Dispatched)
    requires s.inbox != []
    ensures SameOutside(s, Took(s, key, id, isNew, r)) && Took(s, key, id, isNew, r).log == s.log
  {
  }

  lemma ConsumedOutside(cfg: Config, s: State, now: int)
    requires s.inbox != [] && s.overflow.WellFormed()
    ensures SameOutside(s, Consumed(cfg, s, now))
  {
    var d := s.inbox[0];
    if d.message.body.Command? {
      TookOutside(s, d.message.body.channel, d.message.body.id, s.overflow.CopyNumber(d.message).None?,
                  Dispatch(cfg, s.overflow, s.pending, d.message.body.channel, d, now));
    }
  }

  function CommandId(d: Delivery): nat {
    if d.message.body.Command? then d.message.body.id else 0
  }

  function TookLane(s: State, key: string): State
    requires Waiting(s.pending, key) != []
  {
    var d := s.pending[key][0];
    s.(pending := s.pending[key := s.pending[key][1..]],
       running := s.running[key := d],
       started := Append(s.started, key, CommandId(d)))
  }

  function FinishedLane(s: State, key: string, how: How): State
    requires key in s.running
  {
    var d := s.running[key];
    if how == Requeued then
      s.(running := s.running - {key}, requeue := s.requeue + [d])
    else
      s.(running := s.running - {key}, log := s.log + [Settlement(d.tag, how)])
  }

  function LeftLane(s: State, key: string): State {
    s.(pending := s.pending - {key})
  }

  function Arrived(s: State, m: Message): State {
    s.(broker := s.broker + [m], published := s.published + [m.body])
  }

  function Delivered(s: State): State
    requires s.broker != []
  {
    s.(broker := s.broker[1..], handed := s.handed + [s.broker[0]],
       inbox := s.inbox + [Delivery(|s.handed|, s.broker[0])])
  }

  function MoverTook(s: State): State
    requires s.overflow.queue != []
  {
    s.(mover := Holding(s.overflow.queue[0]), overflow := s.overflow.(queue := s.overflow.queue[1..]))
  }

  function MoverPublished(s: State, answer: Answer): State
    requires s.mover.Holding?
  {
    var copy := s.overflow.CopyOf(s.mover.item);
    match answer
    case Confirms => s.(broker := s.broker + [copy], mover := Confirmed(s.mover.item))
    case Refuses => s
    case StoresUnconfirmed => s.(broker := s.broker + [copy], late := s.late + [copy.body])
  }

  /** What the broker makes of the ack of a copied original. */
  function AckOfCopied(s: State): How {
    if s.broken then Doubled else Copied
  }

  function MoverAcked(s: State): State
    requires s.mover.Confirmed?
  {
    s.(mover := Left(s.mover.item), log := s.log + [Settlement(s.mover.item.delivery.tag, AckOfCopied(s))])
  }

  function MoverHandedBack(s: State): State
    requires s.mover.Holding?
  {
    s.(mover := Left(s.mover.item), handedBack := s.handedBack + [s.mover.item],
       log := s.log + [Settlement(s.mover.item.delivery.tag, Requeued)])
  }

  function MoverFinished(s: State): State
    requires s.mover.Left? && s.mover.item.spill < |s.overflow.unpublished|
  {
    s.(mover := Idle, overflow := s.overflow.Finish(s.mover.item.spill))
  }

  function AllHandedBack(s: State): State {
    s.(phase := Finished, requeue := [], log := s.log + Returned(SortByTag(s.requeue)))
  }

  ghost function Step(cfg: Config, s: State, e: Event): State
    requires Enabled(cfg, s, e)
  {
    match e
    case Arrive(m) => Arrived(s, m)
    case Deliver => Delivered(s)
    case Consume(now) => Consumed(cfg, s, now)
    case MoverTake => MoverTook(s)
    case MoverPublish(answer) => MoverPublished(s, answer)
    case MoverAck => MoverAcked(s)
    case MoverHandBack => MoverHandedBack(s)
    case MoverFinish => MoverFinished(s)
    case LaneTake(key) => TookLane(s, key)
    case LaneFinish(key, how) => FinishedLane(s, key, how)
    case LaneExit(key) => LeftLane(s, key)
    case Break => s.(broken := true)
    case CloseStream => s.(phase := Draining)
    case Stop => s.(phase := Stopping)
    case HandBack => AllHandedBack(s)
  }

  /** What the lanes, and the hand-back at the end, never touch. */
  function OutsideLanes(s: State): (seq<Message>, seq<Delivery>, View, Mover, seq<Item>, map<string, seq<nat>>, map<string, seq<nat>>) {
    (s.broker, s.inbox, s.overflow, s.mover, s.handedBack, s.arrived, s.admitted)
  }

  lemma TookLaneOutside(s: State, key: string)
    requires Waiting(s.pending, key) != []
    ensures OutsideLanes(TookLane(s, key)) == OutsideLanes(s)
  {
  }

  lemma FinishedLaneOutside(s: State, key: string, how: How)
    requires key in s.running
    ensures OutsideLanes(FinishedLane(s, key, how)) == OutsideLanes(s)
  {
  }

  lemma LeftLaneOutside(s: State, key: string)
    ensures OutsideLanes(LeftLane(s, key)) == OutsideLanes(s)
  {
  }

  lemma AllHandedBackOutside(s: State)
    ensures OutsideLanes(AllHandedBack(s)) == OutsideLanes(s)
  {
  }

  /** A run: events each enabled in the state the earlier ones lead to. */
  ghost predicate IsRun(cfg: Config, s: State, events: seq<Event>)
    decreases |events|
  {
    events != [] ==> Enabled(cfg, s, events[0]) && IsRun(cfg, Step(cfg, s, events[0]), events[1..])
  }

  ghost function After(cfg: Config, s: State, events: seq<Event>): State
    requires IsRun(cfg, s, events)
    decreases |events|
  {
    if events == [] then s else After(cfg, Step(cfg, s, events[0]), events[1..])
  }

  // ---------------------------------------------------------------- handing back in tag order

  function Returned(ds: seq<Delivery>): (r: seq<Settlement>)
    ensures |r| == |ds| && forall i :: 0 <= i < |ds| ==> r[i] == Settlement(ds[i].tag, Requeued)
  {
    seq(|ds|, i requires 0 <= i < |ds| => Settlement(ds[i].tag, Requeued))
  }

  ghost predicate InTagOrder(ds: seq<Delivery>) {
    forall i, j :: 0 <= i < j < |ds| ==> ds[i].tag <= ds[j].tag
  }

  function Insert(d: Delivery, ds: seq<Delivery>): (r: seq<Delivery>)
    ensures multiset(r) == multiset(ds) + multiset{d}
  {
    if ds == [] then [d]
    else if d.tag <= ds[0].tag then [d] + ds
    else
      assert ds == [ds[0]] + ds[1..];
      [ds[0]] + Insert(d, ds[1..])
  }

  /** slices.SortFunc by delivery tag. */
  function SortByTag(ds: seq<Delivery>): (r: seq<Delivery>)
    ensures multiset(r) == multiset(ds)
  {
    if ds == [] then []
    else
      assert ds == [ds[0]] + ds[1..];
      Insert(ds[0], SortByTag(ds[1..]))
  }

  lemma {:induction false} InsertKeepsTagOrder(d: Delivery, ds: seq<Delivery>)
    requires InTagOrder(ds)
    ensures InTagOrder(Insert(d, ds))
  {
    if ds != [] && ds[0].tag < d.tag {
      InsertKeepsTagOrder(d, ds[1..]);
      var rest := Insert(d, ds[1..]);
      forall i | 0 <= i < |rest|
        ensures ds[0].tag <= rest[i].tag
      {
        assert rest[i] in multiset(rest);
        assert rest[i] == d || rest[i] in ds[1..];
      }
    }
  }

  lemma {:induction false} SortIsInTagOrder(ds: seq<Delivery>)
    ensures InTagOrder(SortByTag(ds))
  {
    if ds != [] {
      SortIsInTagOrder(ds[1..]);
      InsertKeepsTagOrder(ds[0], SortByTag(ds[1..]));
    }
  }
}
