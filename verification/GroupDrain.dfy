/** A spill drains: with no new publishes, and room in the lane whenever the expected copy comes up, the
    consumer and the mover can only take a bounded number of steps before the channel is untracked. */
module GroupDrain {
  import opened Options
  import opened KeyedQueues
  import opened GroupOverflow
  import opened GroupConsumer
  import opened GroupOrder

  /** Consumer and mover steps that get something done. */
  predicate Productive(e: Event) {
    e.Deliver? || e.Consume? || e.MoverTake? || e == MoverPublish(Confirms) || e.MoverAck? || e.MoverFinish?
  }

  /** What may interleave with them: refused publishes and anything the lanes do. */
  predicate Idling(e: Event) {
    e == MoverPublish(Refuses) || e.LaneTake? || e.LaneFinish? || e.LaneExit?
  }

  predicate OfChannel(e: Entry, channel: string) {
    e.body.Command? && e.body.channel == channel
  }

  predicate IsCopy(e: Entry, channel: string, number: int) {
    OfChannel(e, channel) && e.number == Some(number)
  }

  /** Commands of the channel still in the pipe, numbered or not yet. */
  function Commands(es: seq<Entry>, channel: string): nat {
    if es == [] then 0 else (if OfChannel(es[0], channel) then 1 else 0) + Commands(es[1..], channel)
  }

  /** How many entries come before the copy. */
  function Position(es: seq<Entry>, channel: string, number: int): (p: nat)
    ensures p <= |es|
    ensures p < |es| ==> IsCopy(es[p], channel, number)
    ensures forall i :: 0 <= i < p ==> !IsCopy(es[i], channel, number)
  {
    if es == [] || IsCopy(es[0], channel, number) then 0 else 1 + Position(es[1..], channel, number)
  }

  /** Commands admitted to the lane and not started yet. */
  function Unstarted(s: State, channel: string): int {
    |Waiting(s.admitted, channel)| - |Waiting(s.started, channel)|
  }

  lemma UnstartedAreQueued(s: State, channel: string)
    requires LaneInOrder(s, channel)
    ensures Unstarted(s, channel) == |Waiting(s.pending, channel)|
  {
  }

  /** The lane has room when the expected copy is next. */
  ghost predicate HasRoom(cfg: Config, s: State, e: Event, channel: string) {
    (e.Consume? && s.inbox != [] && channel in s.overflow.channels
     && IsCopy(Coming(s.overflow, s.inbox[0].message), channel, s.overflow.channels[channel].expected))
    ==> Unstarted(s, channel) < cfg.backlog
  }

  ghost predicate Draining(cfg: Config, s: State, e: Event, channel: string) {
    Enabled(cfg, s, e) && Orderly(s, e) && (Productive(e) || Idling(e)) && HasRoom(cfg, s, e, channel)
  }

  function MoverWork(mover: Mover): nat {
    match mover
    case Idle => 0
    case Holding(_) => 4
    case Confirmed(_) => 2
    case Left(_) => 1
  }

  /** Steps until everything in the pipe is in the inbox. */
  function Work(s: State): nat {
    5 * |s.overflow.queue| + MoverWork(s.mover) + |s.broker|
  }

  /** (c, p), compared by c first, as one number; p is at most l. */
  function AsOne(c: nat, l: nat, p: nat): nat {
    c * (l + 1) + p
  }

  /** (commands of the channel, position of the expected copy). */
  ghost function Distance(s: State, channel: string): nat
    requires channel in s.overflow.channels
  {
    var pipe := Pipe(s);
    AsOne(Commands(pipe, channel), |pipe|, Position(pipe, channel, s.overflow.channels[channel].expected))
  }

  /** An upper bound on the productive steps left while the channel is tracked. */
  ghost function Rank(s: State, channel: string): nat {
    if channel in s.overflow.channels then 6 * Distance(s, channel) + Work(s) else 0
  }

  // ---------------------------------------------------------------- positions

  lemma {:induction false} CommandsConcat(a: seq<Entry>, b: seq<Entry>, channel: string)
    ensures Commands(a + b, channel) == Commands(a, channel) + Commands(b, channel)
  {
    if a == [] {
      assert a + b == b;
    } else {
      assert (a + b)[1..] == a[1..] + b;
      CommandsConcat(a[1..], b, channel);
    }
  }

  lemma {:induction false} CopyInPipe(es: seq<Entry>, channel: string, x: Numbered)
    requires x in Copies(es, channel)
    ensures Position(es, channel, x.number) < |es|
  {
    if !IsCopy(es[0], channel, x.number) {
      assert x !in AsCopy(es[0], channel);
      CopyInPipe(es[1..], channel, x);
    }
  }

  /** With the head gone and something else at the end, the copy is one place nearer. */
  lemma PositionNearer(es: seq<Entry>, sent: seq<Entry>, channel: string, number: int)
    requires es != [] && !IsCopy(es[0], channel, number) && Position(es, channel, number) < |es|
    ensures Position(es[1..] + sent, channel, number) == Position(es, channel, number) - 1
  {
    var p, rest := Position(es, channel, number), es[1..] + sent;
    assert rest[p - 1] == es[p];
    forall i | 0 <= i < p - 1
      ensures !IsCopy(rest[i], channel, number)
    {
      assert rest[i] == es[i + 1];
    }
  }

  /** While a channel is tracked, its expected copy is somewhere in the pipe. */
  lemma ExpectedIsComing(s: State, channel: string)
    requires Ordered(s, channel) && channel in s.overflow.channels && s.handedBack == []
    ensures Position(Pipe(s), channel, s.overflow.channels[channel].expected) < |Pipe(s)|
    ensures Commands(Pipe(s), channel) > 0
  {
    var w := WindowOf(s.overflow, channel).value;
    var ids := Waiting(s.arrived, channel)[|Waiting(s.admitted, channel)|..];
    var x := Numbers(w.expected, ids)[0];
    assert x in multiset(Numbers(w.expected, ids));
    assert x in Outstanding(s, channel);
    CopyInPipe(Pipe(s), channel, x);
    CountsIfPresent(Pipe(s), channel, Position(Pipe(s), channel, w.expected));
  }

  lemma {:induction false} CountsIfPresent(es: seq<Entry>, channel: string, i: nat)
    requires i < |es| && OfChannel(es[i], channel)
    ensures Commands(es, channel) > 0
  {
    if i > 0 {
      CountsIfPresent(es[1..], channel, i - 1);
    }
  }

  // ---------------------------------------------------------------- one step

  lemma Smaller(c: nat, l: nat, p: nat, c': nat, l': nat, p': nat)
    requires l' <= l && p' <= l'
    requires (c' == c && p' < p) || c' < c
    ensures AsOne(c', l', p') < AsOne(c, l, p)
  {
    assert c' * (l' + 1) <= c' * (l + 1) by {
    }
    if c' < c {
      assert c' * (l + 1) + (l + 1) == (c' + 1) * (l + 1);
    }
  }

  /** The copies out, split into the head of the inbox and `rest`, are in order. */
  ghost predicate Ahead(s: State, channel: string, rest: multiset<Numbered>) {
    s.inbox != [] &&
    InOrder(Waiting(s.arrived, channel), Waiting(s.admitted, channel), WindowOf(s.overflow, channel),
            AsCopy(Coming(s.overflow, s.inbox[0].message), channel) + rest)
  }

  lemma OrderedAhead(s: State, s': State, channel: string, sent: seq<Entry>)
    requires SameOutside(s, s') && s'.overflow.nonce == s.overflow.nonce
    requires ItemEntries(s'.overflow.queue) == ItemEntries(s.overflow.queue) + sent
    requires Ordered(s, channel)
    ensures exists rest :: Ahead(s, channel, rest)
  {
    OutstandingAfterCommand(s, s', channel, sent);
    assert Ahead(s, channel, Copies(Pipe(s)[1..], channel) + Copies(ItemEntries(s.handedBack), channel));
  }

  /** If the head is not the expected copy, the same copy stays expected and a command of the channel
      that heads the pipe goes back to its end. */
  lemma OtherKeepsExpected(s: State, key: string, id: nat, r: Dispatched, number: int, channel: string)
    requires s.inbox != [] && s.inbox[0].message.body == Command(key, id)
    requires Routed(s.overflow, key, s.inbox[0], r, number)
    requires channel in s.overflow.channels && channel in r.overflow.channels
    requires !IsCopy(Coming(s.overflow, s.inbox[0].message), channel, s.overflow.channels[channel].expected)
    requires exists rest :: Ahead(s, channel, rest)
    ensures r.overflow.channels[channel].expected == s.overflow.channels[channel].expected
    ensures channel == key ==> !r.entered
  {
    if channel == key {
      var copy := s.overflow.CopyNumber(s.inbox[0].message);
      if copy.Some? {
        var x := Numbered(copy.value, id);
        var rest :| Ahead(s, channel, rest);
        var out := AsCopy(Coming(s.overflow, s.inbox[0].message), channel) + rest;
        assert x in out;
        CopyIsOurs(Waiting(s.arrived, channel), Waiting(s.admitted, channel), WindowOf(s.overflow, channel), out, x);
      }
    } else {
      assert SameChannel(s.overflow, r.overflow, channel);
    }
  }

  /** A command that is not the expected copy: the expected copy is one place nearer. */
  lemma OtherComesNearer(s: State, s': State, key: string, id: nat, r: Dispatched, number: int, channel: string)
    requires SameOutside(s, s') && s'.overflow == r.overflow
    requires s.inbox[0].message.body == Command(key, id)
    requires Routed(s.overflow, key, s.inbox[0], r, number)
    requires Ordered(s, channel) && s.handedBack == []
    requires channel in s.overflow.channels && channel in s'.overflow.channels
    requires !IsCopy(Coming(s.overflow, s.inbox[0].message), channel, s.overflow.channels[channel].expected)
    ensures Distance(s', channel) < Distance(s, channel)
  {
    var pipe, sent := Pipe(s), Sent(key, id, r, number);
    PipeAfterCommand(s, s', sent);
    OrderedAhead(s, s', channel, sent);
    OtherKeepsExpected(s, key, id, r, number, channel);
    ExpectedIsComing(s, channel);
    ShiftedNearer(pipe, sent, channel, s.overflow.channels[channel].expected);
  }

  lemma ShiftedNearer(es: seq<Entry>, sent: seq<Entry>, channel: string, number: int)
    requires es != [] && !IsCopy(es[0], channel, number) && Position(es, channel, number) < |es|
    requires |sent| <= 1 && Commands(sent, channel) == if OfChannel(es[0], channel) then 1 else 0
    ensures var rest := es[1..] + sent;
            AsOne(Commands(rest, channel), |rest|, Position(rest, channel, number))
            < AsOne(Commands(es, channel), |es|, Position(es, channel, number))
  {
    var rest := es[1..] + sent;
    CommandsConcat(es[1..], sent, channel);
    PositionNearer(es, sent, channel, number);
    Smaller(Commands(es, channel), |es|, Position(es, channel, number),
            Commands(rest, channel), |rest|, Position(rest, channel, number));
  }

  /** The expected copy enters the lane: one command of the channel less in the pipe. */
  lemma ExpectedLeavesPipe(s: State, s': State, key: string, id: nat, r: Dispatched, number: int, channel: string)
    requires SameOutside(s, s') && s'.overflow == r.overflow
    requires s.inbox[0].message.body == Command(key, id)
    requires Routed(s.overflow, key, s.inbox[0], r, number) && r.entered
    requires channel in s.overflow.channels && channel in s'.overflow.channels
    requires IsCopy(Coming(s.overflow, s.inbox[0].message), channel, s.overflow.channels[channel].expected)
    ensures Distance(s', channel) < Distance(s, channel)
  {
    PipeAfterCommand(s, s', []);
    var pipe, pipe' := Pipe(s), Pipe(s');
    assert pipe' == pipe[1..];
    Smaller(Commands(pipe, channel), |pipe|, Position(pipe, channel, s.overflow.channels[channel].expected),
            Commands(pipe', channel), |pipe'|, Position(pipe', channel, s'.overflow.channels[channel].expected));
  }

  lemma GarbageComesNearer(s: State, s': State, channel: string)
    requires s.inbox != [] && s.inbox[0].message.body.Garbage? && s' == DeadLetter(s)
    requires Ordered(s, channel) && channel in s.overflow.channels && s.handedBack == []
    ensures Distance(s', channel) < Distance(s, channel)
  {
    PipeAfterCommand(s, s', []);
    ExpectedIsComing(s, channel);
    ShiftedNearer(Pipe(s), [], channel, s.overflow.channels[channel].expected);
  }

  lemma TookComesNearer(s: State, key: string, id: nat, r: Dispatched, number: int, channel: string)
    requires s.inbox != [] && s.inbox[0].message.body == Command(key, id)
    requires Routed(s.overflow, key, s.inbox[0], r, number)
    requires Ordered(s, channel) && s.handedBack == [] && channel in s.overflow.channels
    requires IsCopy(Coming(s.overflow, s.inbox[0].message), channel, s.overflow.channels[channel].expected) ==> r.entered
    ensures var s' := Took(s, key, id, s.overflow.CopyNumber(s.inbox[0].message).None?, r);
            channel in s'.overflow.channels ==> Distance(s', channel) < Distance(s, channel)
  {
    var isNew := s.overflow.CopyNumber(s.inbox[0].message).None?;
    var s' := Took(s, key, id, isNew, r);
    TookOutside(s, key, id, isNew, r);
    if channel in s'.overflow.channels {
      if IsCopy(Coming(s.overflow, s.inbox[0].message), channel, s.overflow.channels[channel].expected) {
        ExpectedLeavesPipe(s, s', key, id, r, number, channel);
      } else {
        OtherComesNearer(s, s', key, id, r, number, channel);
      }
    }
  }

  lemma ConsumeComesNearer(cfg: Config, s: State, now: int, channel: string)
    requires Draining(cfg, s, Consume(now), channel) && LaneInOrder(s, channel)
    requires Ordered(s, channel) && s.handedBack == [] && channel in s.overflow.channels
    ensures var s' := Consumed(cfg, s, now);
            channel in s'.overflow.channels ==> Distance(s', channel) < Distance(s, channel)
  {
    var d := s.inbox[0];
    match d.message.body
    case Garbage => GarbageComesNearer(s, DeadLetter(s), channel);
    case Command(key, id) =>
      DispatchRoutes(cfg, s.overflow, s.pending, key, d, now);
      var r := Dispatch(cfg, s.overflow, s.pending, key, d, now);
      var number :| Routed(s.overflow, key, d, r, number);
      UnstartedAreQueued(s, channel);
      TookComesNearer(s, key, id, r, number, channel);
  }

  // ---------------------------------------------------------------- rank

  lemma DispatchSendsOne(cfg: Config, view: View, pending: map<string, seq<Delivery>>, key: string, d: Delivery, now: int)
    requires view.WellFormed()
    ensures |Dispatch(cfg, view, pending, key, d, now).overflow.queue| <= |view.queue| + 1
  {
  }

  lemma ConsumeWork(cfg: Config, s: State, now: int, s': State)
    requires s.inbox != [] && s.overflow.WellFormed() && s' == Consumed(cfg, s, now)
    ensures Work(s') <= Work(s) + 5 && s'.handedBack == s.handedBack
  {
    var d := s.inbox[0];
    if d.message.body.Command? {
      DispatchSendsOne(cfg, s.overflow, s.pending, d.message.body.channel, d, now);
    }
    ConsumedOutside(cfg, s, now);
  }

  /** Steps of the mover and deliveries leave the pipe as it is and get one piece of work done. */
  lemma MoverRank(cfg: Config, s: State, e: Event, channel: string)
    requires Enabled(cfg, s, e) && Productive(e) && !e.Consume? && channel in s.overflow.channels
    ensures var s' := Step(cfg, s, e);
            && Pipe(s') == Pipe(s) && Work(s') == Work(s) - 1
            && s'.overflow.channels == s.overflow.channels && s'.handedBack == s.handedBack
  {
    match e
    case Deliver => DeliverPipe(s);
    case MoverTake => MoverTakePipe(s);
    case MoverPublish(_) => ConfirmPipe(s);
    case MoverAck =>
    case MoverFinish => FinishPipe(s);
  }

  lemma IdlingOutside(cfg: Config, s: State, e: Event, s': State)
    requires Enabled(cfg, s, e) && Idling(e) && s' == Step(cfg, s, e)
    ensures OutsideLanes(s') == OutsideLanes(s)
  {
    match e
    case LaneTake(key) => TookLaneOutside(s, key);
    case LaneFinish(key, how) => FinishedLaneOutside(s, key, how);
    case LaneExit(key) => LeftLaneOutside(s, key);
    case MoverPublish(_) => assert s' == s;
  }

  /** Each productive step brings the rank down, until the channel is untracked; the rest leave it. */
  lemma StepRank(cfg: Config, s: State, e: Event, channel: string)
    requires Draining(cfg, s, e, channel) && Ordered(s, channel) && LaneInOrder(s, channel) && s.handedBack == []
    requires channel in s.overflow.channels
    ensures var s' := Step(cfg, s, e);
            && s'.handedBack == []
            && (channel in s'.overflow.channels ==> Rank(s', channel) + (if Productive(e) then 1 else 0) <= Rank(s, channel))
  {
    if e.Consume? {
      ConsumeComesNearer(cfg, s, e.now, channel);
      ConsumeWork(cfg, s, e.now, Step(cfg, s, e));
    } else if Productive(e) {
      MoverRank(cfg, s, e, channel);
    } else {
      IdlingOutside(cfg, s, e, Step(cfg, s, e));
    }
  }

  /** A run of draining steps during which the channel stays tracked. */
  ghost predicate StaysTracked(cfg: Config, s: State, events: seq<Event>, channel: string)
    decreases |events|
  {
    channel in s.overflow.channels &&
    (events != [] ==>
       Draining(cfg, s, events[0], channel) && StaysTracked(cfg, Step(cfg, s, events[0]), events[1..], channel))
  }

  function ProductiveSteps(events: seq<Event>): nat {
    if events == [] then 0 else (if Productive(events[0]) then 1 else 0) + ProductiveSteps(events[1..])
  }

  /** A spill drains: from any ordered state, however consumer, mover and lanes interleave, at most Rank
      productive steps can be taken before every command of the channel that is out is in its lane. */
  lemma {:induction false} SpillDrains(cfg: Config, s: State, events: seq<Event>, channel: string)
    requires Ordered(s, channel) && LaneInOrder(s, channel) && s.handedBack == [] && StaysTracked(cfg, s, events, channel)
    ensures ProductiveSteps(events) <= Rank(s, channel)
    decreases |events|
  {
    if events != [] {
      var e := events[0];
      StepKeepsOrder(cfg, s, e, channel);
      StepKeepsLane(cfg, s, e, channel);
      StepRank(cfg, s, e, channel);
      SpillDrains(cfg, Step(cfg, s, e), events[1..], channel);
    }
  }

  /** A time at which the head of the inbox does not find its channel stalled. */
  ghost function Timely(s: State): int
    requires s.inbox != []
  {
    var body := s.inbox[0].message.body;
    if body.Command? && body.channel in s.overflow.channels then s.overflow.channels[body.channel].lastProgress else 0
  }

  /** The expected copy is next and its lane has no room: all that is left is for the lane to run. */
  ghost predicate WaitsForLane(cfg: Config, s: State, channel: string)
    requires channel in s.overflow.channels
  {
    && s.mover.Idle? && s.overflow.queue == [] && s.inbox != []
    && IsCopy(Coming(s.overflow, s.inbox[0].message), channel, s.overflow.channels[channel].expected)
    && Unstarted(s, channel) >= cfg.backlog
  }

  /** And it cannot get stuck half-way: while a channel is tracked, consumer or mover has a step that
      brings it nearer, unless only the lanes can go on: the prefetch is used up by deliveries that they
      have to settle, or the expected copy is next and its lane is full. */
  lemma NeverStuck(cfg: Config, s: State, channel: string)
    requires Ordered(s, channel) && s.handedBack == [] && channel in s.overflow.channels
    requires s.phase == Consuming && !s.broken && s.overflow.WellFormed()
    requires s.mover.Left? ==> s.mover.item.spill < |s.overflow.unpublished|
    ensures (exists e :: Productive(e) && Draining(cfg, s, e, channel))
         || (s.inbox == [] && s.mover.Idle? && s.overflow.queue == [] && Unsettled(s) >= cfg.prefetch)
         || WaitsForLane(cfg, s, channel)
  {
    ExpectedIsComing(s, channel);
    if !s.mover.Idle? {
      var e := if s.mover.Holding? then MoverPublish(Confirms) else if s.mover.Confirmed? then MoverAck else MoverFinish;
      assert Productive(e) && Draining(cfg, s, e, channel);
    } else if s.overflow.queue != [] {
      assert Productive(MoverTake) && Draining(cfg, s, MoverTake, channel);
    } else if s.inbox != [] {
      if !WaitsForLane(cfg, s, channel) {
        var e := Consume(Timely(s));
        assert Productive(e) && Draining(cfg, s, e, channel);
      }
    } else if Unsettled(s) < cfg.prefetch {
      assert s.broker != [];
      assert Productive(Deliver) && Draining(cfg, s, Deliver, channel);
    }
  }

  /** The width of the window alone is no measure: a plain command of the channel that comes up makes it
      one wider, although the spill drains. */
  lemma PlainCommandWidens(cfg: Config, s: State, now: int, channel: string, id: nat)
    requires Draining(cfg, s, Consume(now), channel) && channel in s.overflow.channels
    requires s.inbox[0].message.body == Command(channel, id) && s.overflow.CopyNumber(s.inbox[0].message).None?
    ensures var before, after := WindowOf(s.overflow, channel), WindowOf(Step(cfg, s, Consume(now)).overflow, channel);
            before.Some? && after == Some(before.value.(next := before.value.next + 1))
  {
  }
}
