/** Commands of one channel enter its lane, and are started, in exactly the order they first arrived.

    The environment of the theorem: a publish that returns an error enqueued nothing, and the stall
    guard does not fire. Both give order up on purpose. */
module GroupOrder {
  import opened Options
  import opened KeyedQueues
  import opened GroupOverflow
  import opened GroupConsumer
  import Sequences

  /** A message on its way to the consumer, with the number it has or will have on arrival. */
  datatype Entry = Entry(body: Body, number: Option<int>)

  datatype Numbered = Numbered(number: int, id: nat)

  function Coming(view: View, m: Message): Entry {
    Entry(m.body, view.CopyNumber(m))
  }

  function InboxEntries(view: View, ds: seq<Delivery>): (r: seq<Entry>)
    ensures |r| == |ds|
  {
    if ds == [] then [] else [Coming(view, ds[0].message)] + InboxEntries(view, ds[1..])
  }

  function QueueEntries(view: View, ms: seq<Message>): (r: seq<Entry>)
    ensures |r| == |ms|
  {
    if ms == [] then [] else [Coming(view, ms[0])] + QueueEntries(view, ms[1..])
  }

  function ItemEntry(item: Item): Entry {
    Entry(item.delivery.message.body, Some(item.number))
  }

  function ItemEntries(items: seq<Item>): (r: seq<Entry>)
    ensures |r| == |items|
  {
    if items == [] then [] else [ItemEntry(items[0])] + ItemEntries(items[1..])
  }

  function MoverEntries(mover: Mover): seq<Entry> {
    if mover.Holding? then [ItemEntry(mover.item)] else []
  }

  /** Everything still to be consumed, in the order it will be: what was delivered, the broker's queue,
      then what the mover holds and what waits for it, which will follow at the queue's tail. */
  function Pipe(s: State): seq<Entry> {
    InboxEntries(s.overflow, s.inbox) + QueueEntries(s.overflow, s.broker)
    + MoverEntries(s.mover) + ItemEntries(s.overflow.queue)
  }

  /** The copy an entry is for the channel, if it is one. */
  function AsCopy(e: Entry, channel: string): multiset<Numbered> {
    if e.number.Some? && e.body.Command? && e.body.channel == channel
    then multiset{Numbered(e.number.value, e.body.id)} else multiset{}
  }

  /** The numbered copies of a channel. */
  function Copies(es: seq<Entry>, channel: string): multiset<Numbered> {
    if es == [] then multiset{} else AsCopy(es[0], channel) + Copies(es[1..], channel)
  }

  /** ids[0] under number `from`, ids[1] under from + 1, and so on. */
  function Numbers(from: int, ids: seq<nat>): (r: seq<Numbered>)
    ensures |r| == |ids| && forall i :: 0 <= i < |ids| ==> r[i] == Numbered(from + i, ids[i])
  {
    seq(|ids|, i requires 0 <= i < |ids| => Numbered(from + i, ids[i]))
  }

  function IdsOf(ds: seq<Delivery>): (r: seq<nat>)
    ensures |r| == |ds| && forall i :: 0 <= i < |ds| ==> r[i] == CommandId(ds[i])
  {
    seq(|ds|, i requires 0 <= i < |ds| => CommandId(ds[i]))
  }

  /** The copies of a channel that are still out: on their way, or handed back by the mover at the end. */
  function Outstanding(s: State, channel: string): multiset<Numbered> {
    Copies(Pipe(s), channel) + Copies(ItemEntries(s.handedBack), channel)
  }

  /** The numbers [expected, next) of a tracked spill. */
  datatype Window = Window(expected: int, next: int)

  function WindowOf(view: View, channel: string): Option<Window> {
    if channel in view.channels then
      Some(Window(view.channels[channel].expected, view.channels[channel].next))
    else
      None
  }

  /** arrivals = admitted ++ outstanding copies sorted by number, one copy per number in
      [expected, next), and no copy at all when no spill is tracked. */
  ghost predicate InOrder(arrived: seq<nat>, admitted: seq<nat>, window: Option<Window>, out: multiset<Numbered>) {
    admitted <= arrived &&
    match window
    case None => arrived == admitted && out == multiset{}
    case Some(w) =>
      && 0 < |arrived| - |admitted| == w.next - w.expected
      && out == multiset(Numbers(w.expected, arrived[|admitted|..]))
  }

  ghost predicate Ordered(s: State, channel: string) {
    InOrder(Waiting(s.arrived, channel), Waiting(s.admitted, channel), WindowOf(s.overflow, channel),
            Outstanding(s, channel))
  }

  /** What entered the lane was started, in that order, or still waits there. */
  ghost predicate LaneInOrder(s: State, channel: string) {
    Waiting(s.admitted, channel) == Waiting(s.started, channel) + IdsOf(Waiting(s.pending, channel))
  }

  /** The two things the environment must not do. */
  ghost predicate Orderly(s: State, e: Event) {
    && e != MoverPublish(StoresUnconfirmed)
    && (e.Consume? && s.inbox != [] && s.inbox[0].message.body.Command? && s.overflow.WellFormed() ==>
          var key := s.inbox[0].message.body.channel;
          key in s.overflow.channels ==> !s.overflow.Stalled(key, e.now))
  }

  // ---------------------------------------------------------------- the pipe, step by step

  lemma {:induction false} CopiesConcat(a: seq<Entry>, b: seq<Entry>, channel: string)
    ensures Copies(a + b, channel) == Copies(a, channel) + Copies(b, channel)
  {
    if a == [] {
      assert a + b == b;
    } else {
      assert (a + b)[1..] == a[1..] + b;
      CopiesConcat(a[1..], b, channel);
    }
  }

  lemma {:induction false} InboxConcat(view: View, a: seq<Delivery>, b: seq<Delivery>)
    ensures InboxEntries(view, a + b) == InboxEntries(view, a) + InboxEntries(view, b)
  {
    if a == [] {
      assert a + b == b;
    } else {
      assert (a + b)[1..] == a[1..] + b;
      InboxConcat(view, a[1..], b);
    }
  }

  lemma {:induction false} QueueConcat(view: View, a: seq<Message>, b: seq<Message>)
    ensures QueueEntries(view, a + b) == QueueEntries(view, a) + QueueEntries(view, b)
  {
    if a == [] {
      assert a + b == b;
    } else {
      assert (a + b)[1..] == a[1..] + b;
      QueueConcat(view, a[1..], b);
    }
  }

  lemma {:induction false} ItemsConcat(a: seq<Item>, b: seq<Item>)
    ensures ItemEntries(a + b) == ItemEntries(a) + ItemEntries(b)
  {
    if a == [] {
      assert a + b == b;
    } else {
      assert (a + b)[1..] == a[1..] + b;
      ItemsConcat(a[1..], b);
    }
  }

  /** Entries depend on the nonce only. */
  lemma {:induction false} SameNonceInbox(view: View, other: View, ds: seq<Delivery>)
    requires view.nonce == other.nonce
    ensures InboxEntries(view, ds) == InboxEntries(other, ds)
  {
    if ds != [] {
      SameNonceInbox(view, other, ds[1..]);
    }
  }

  lemma {:induction false} SameNonceQueue(view: View, other: View, ms: seq<Message>)
    requires view.nonce == other.nonce
    ensures QueueEntries(view, ms) == QueueEntries(other, ms)
  {
    if ms != [] {
      SameNonceQueue(view, other, ms[1..]);
    }
  }

  lemma DeliverPipe(s: State)
    requires s.broker != []
    ensures Pipe(Delivered(s)) == Pipe(s)
  {
    var d := Delivery(|s.handed|, s.broker[0]);
    InboxConcat(s.overflow, s.inbox, [d]);
    assert InboxEntries(s.overflow, [d]) == [Coming(s.overflow, s.broker[0])];
    assert QueueEntries(s.overflow, s.broker) == [Coming(s.overflow, s.broker[0])] + QueueEntries(s.overflow, s.broker[1..]);
    assert InboxEntries(s.overflow, s.inbox) + QueueEntries(s.overflow, s.broker)
        == InboxEntries(s.overflow, s.inbox + [d]) + QueueEntries(s.overflow, s.broker[1..]);
  }

  lemma MoverTakePipe(s: State)
    requires s.mover.Idle? && s.overflow.queue != []
    ensures Pipe(MoverTook(s)) == Pipe(s)
  {
    var s' := MoverTook(s);
    SameNonceInbox(s.overflow, s'.overflow, s.inbox);
    SameNonceQueue(s.overflow, s'.overflow, s.broker);
    assert ItemEntries(s.overflow.queue) == MoverEntries(s'.mover) + ItemEntries(s'.overflow.queue);
  }

  /** A confirmed copy takes, at the tail of the broker's queue, the place its item had. */
  lemma ConfirmPipe(s: State)
    requires s.mover.Holding?
    ensures Pipe(MoverPublished(s, Confirms)) == Pipe(s)
  {
    var copy := s.overflow.CopyOf(s.mover.item);
    QueueConcat(s.overflow, s.broker, [copy]);
    assert QueueEntries(s.overflow, [copy]) == MoverEntries(s.mover);
    JoinsTheTail(InboxEntries(s.overflow, s.inbox), QueueEntries(s.overflow, s.broker), MoverEntries(s.mover),
                 ItemEntries(s.overflow.queue));
  }

  lemma JoinsTheTail(a: seq<Entry>, b: seq<Entry>, c: seq<Entry>, d: seq<Entry>)
    ensures a + (b + c) + [] + d == a + b + c + d
  {
    assert a + (b + c) + [] == a + b + c;
  }

  lemma FinishPipe(s: State)
    requires s.mover.Left? && s.mover.item.spill < |s.overflow.unpublished|
    ensures Pipe(MoverFinished(s)) == Pipe(s)
  {
    SameNonceInbox(s.overflow, MoverFinished(s).overflow, s.inbox);
    SameNonceQueue(s.overflow, MoverFinished(s).overflow, s.broker);
  }

  /** A message of somebody else adds no copy of ours. */
  lemma ArriveCopies(s: State, m: Message, channel: string)
    requires m.nonce != s.overflow.nonce
    ensures Copies(Pipe(Arrived(s, m)), channel) == Copies(Pipe(s), channel)
  {
    QueueConcat(s.overflow, s.broker, [m]);
    NoCopy(s.overflow, m, channel);
    InsertedNothing(InboxEntries(s.overflow, s.inbox), QueueEntries(s.overflow, s.broker), QueueEntries(s.overflow, [m]),
                    MoverEntries(s.mover), ItemEntries(s.overflow.queue), channel);
  }

  lemma NoCopy(view: View, m: Message, channel: string)
    requires m.nonce != view.nonce
    ensures Copies(QueueEntries(view, [m]), channel) == multiset{}
  {
    assert [m][1..] == [];
  }

  lemma InsertedNothing(a: seq<Entry>, b: seq<Entry>, added: seq<Entry>, c: seq<Entry>, d: seq<Entry>, channel: string)
    requires Copies(added, channel) == multiset{}
    ensures Copies(a + (b + added) + c + d, channel) == Copies(a + b + c + d, channel)
  {
    ThreeParts(a + b, c, d, channel);
    ThreeParts(a + (b + added), c, d, channel);
    CopiesConcat(a, b, channel);
    CopiesConcat(a, b + added, channel);
    CopiesConcat(b, added, channel);
  }

  lemma HandBackOutstanding(s: State, channel: string)
    requires s.mover.Holding?
    ensures Outstanding(MoverHandedBack(s), channel) == Outstanding(s, channel)
  {
    var front := InboxEntries(s.overflow, s.inbox) + QueueEntries(s.overflow, s.broker);
    var held, rest := MoverEntries(s.mover), ItemEntries(s.overflow.queue);
    assert Pipe(s) == front + held + rest;
    assert Pipe(MoverHandedBack(s)) == front + [] + rest == front + rest;
    ThreeParts(front, held, rest, channel);
    CopiesConcat(front, rest, channel);
    ItemsConcat(s.handedBack, [s.mover.item]);
    assert ItemEntries([s.mover.item]) == held;
    CopiesConcat(ItemEntries(s.handedBack), held, channel);
  }

  lemma ThreeParts(a: seq<Entry>, b: seq<Entry>, c: seq<Entry>, channel: string)
    ensures Copies(a + b + c, channel) == Copies(a, channel) + Copies(b, channel) + Copies(c, channel)
  {
    CopiesConcat(a + b, c, channel);
    CopiesConcat(a, b, channel);
  }

  // ---------------------------------------------------------------- the loop body

  ghost predicate SameChannel(view: View, after: View, channel: string) {
    && (channel in after.channels <==> channel in view.channels)
    && (channel in view.channels ==>
          && after.channels[channel].next == view.channels[channel].next
          && after.channels[channel].expected == view.channels[channel].expected)
  }

  /** What the loop body does when the guard does not fire, without the bookkeeping of times and counters.
      `number` is the number under which the command is sent to the overflow, if it is. */
  ghost predicate Routed(view: View, key: string, d: Delivery, r: Dispatched, number: int) {
    var copy := view.CopyNumber(d.message);
    && r.overflow.nonce == view.nonce
    && (forall c :: c != key ==> SameChannel(view, r.overflow, c))
    && ItemEntries(r.overflow.queue)
       == ItemEntries(view.queue) + (if r.entered then [] else [Entry(d.message.body, Some(number))])
    && if key !in view.channels then
         if r.entered then key !in r.overflow.channels
         else number == 1 && key in r.overflow.channels
              && r.overflow.channels[key].expected == 1 && r.overflow.channels[key].next == 2
       else
         var spill := view.channels[key];
         if copy.None? then
           && !r.entered && number == spill.next && key in r.overflow.channels
           && r.overflow.channels[key].expected == spill.expected && r.overflow.channels[key].next == spill.next + 1
         else if !r.entered then
           number == copy.value && SameChannel(view, r.overflow, key)
         else if copy.value != spill.expected then
           copy.value < spill.expected && SameChannel(view, r.overflow, key)
         else if spill.expected + 1 == spill.next then
           key !in r.overflow.channels
         else
           && key in r.overflow.channels
           && r.overflow.channels[key].expected == spill.expected + 1 && r.overflow.channels[key].next == spill.next
  }

  lemma SendRoutes(view: View, pending: map<string, seq<Delivery>>, key: string, d: Delivery, now: int)
    requires view.WellFormed()
    ensures exists number :: Routed(view, key, d, Dispatched(false, view.Send(key, d, now), pending), number)
  {
    var after := view.Send(key, d, now);
    var item := after.queue[|after.queue| - 1];
    ItemsConcat(view.queue, [item]);
    assert ItemEntries([item]) == [ItemEntry(item)];
    assert after.queue == view.queue + [item];
    assert Routed(view, key, d, Dispatched(false, after, pending), item.number);
  }

  lemma DispatchRoutes(cfg: Config, view: View, pending: map<string, seq<Delivery>>, key: string, d: Delivery, now: int)
    requires view.WellFormed() && (key in view.channels ==> !view.Stalled(key, now))
    ensures exists number :: Routed(view, key, d, Dispatch(cfg, view, pending, key, d, now), number)
  {
    var r := Dispatch(cfg, view, pending, key, d, now);
    if r.entered {
      assert Routed(view, key, d, r, 0);
    } else {
      SendRoutes(view, pending, key, d, now);
    }
  }

  /** A command that does not fit is the first of a new spill. */
  lemma FirstSpilled(arrived: seq<nat>, id: nat, out: multiset<Numbered>)
    requires out == multiset{}
    ensures InOrder(arrived + [id], arrived, Some(Window(1, 2)), out + multiset{Numbered(1, id)})
  {
    assert (arrived + [id])[|arrived|..] == [id];
    assert Numbers(1, [id]) == [Numbered(1, id)];
  }

  /** A new command behind tracked ones takes the next number. */
  lemma NewBehindSpill(arrived: seq<nat>, admitted: seq<nat>, w: Window, out: multiset<Numbered>, id: nat)
    requires InOrder(arrived, admitted, Some(w), out)
    ensures InOrder(arrived + [id], admitted, Some(w.(next := w.next + 1)), out + multiset{Numbered(w.next, id)})
  {
    var ids := arrived[|admitted|..];
    assert (arrived + [id])[|admitted|..] == ids + [id];
    assert Numbers(w.expected, ids + [id]) == Numbers(w.expected, ids) + [Numbered(w.next, id)];
  }

  /** The number of a copy that is out is in the window, and stands for the command it carries. */
  lemma CopyIsOurs(arrived: seq<nat>, admitted: seq<nat>, w: Option<Window>, out: multiset<Numbered>, x: Numbered)
    requires InOrder(arrived, admitted, w, out) && x in out
    ensures w.Some? && w.value.expected <= x.number < w.value.next
    ensures x.id == arrived[|admitted| + x.number - w.value.expected]
  {
    assert x in Numbers(w.value.expected, arrived[|admitted|..]);
  }

  lemma RestOut(ids: seq<nat>, expected: int, x: Numbered, rest: multiset<Numbered>)
    requires multiset{x} + rest == multiset(Numbers(expected, ids)) && ids != [] && x == Numbered(expected, ids[0])
    ensures rest == multiset(Numbers(expected + 1, ids[1..]))
  {
    NumbersHead(expected, ids);
    FirstOut(x, rest, Numbers(expected + 1, ids[1..]));
  }

  lemma NextEnters(arrived: seq<nat>, admitted: seq<nat>, expected: int, rest: multiset<Numbered>)
    requires admitted <= arrived && |admitted| < |arrived|
    requires rest == multiset(Numbers(expected + 1, arrived[|admitted|..][1..]))
    ensures var more := admitted + [arrived[|admitted|]];
            InOrder(arrived, more, if |arrived| == |more| then None else Some(Window(expected + 1, expected + |arrived| - |admitted|)), rest)
  {
    NextAdmitted(arrived, admitted, arrived[|admitted|]);
    InOrderFrom(arrived, admitted + [arrived[|admitted|]], expected + 1, rest);
  }

  /** The expected copy enters the lane: it is the next command by arrival. */
  lemma ExpectedEnters(arrived: seq<nat>, admitted: seq<nat>, w: Window, x: Numbered, rest: multiset<Numbered>)
    requires InOrder(arrived, admitted, Some(w), multiset{x} + rest) && x.number <= w.expected
    ensures x.number == w.expected
    ensures InOrder(arrived, admitted + [x.id],
                    if w.expected + 1 == w.next then None else Some(w.(expected := w.expected + 1)), rest)
  {
    CopyIsOurs(arrived, admitted, Some(w), multiset{x} + rest, x);
    RestOut(arrived[|admitted|..], w.expected, x, rest);
    NextEnters(arrived, admitted, w.expected, rest);
  }

  /** What is in order after the admitted ones, all of which carry numbers below `expected`. */
  lemma InOrderFrom(arrived: seq<nat>, admitted: seq<nat>, expected: int, out: multiset<Numbered>)
    requires admitted <= arrived && out == multiset(Numbers(expected, arrived[|admitted|..]))
    ensures InOrder(arrived, admitted,
                    if |arrived| == |admitted| then None else Some(Window(expected, expected + |arrived| - |admitted|)), out)
  {
    if |arrived| == |admitted| {
      assert Numbers(expected, arrived[|admitted|..]) == [];
    }
  }

  lemma NumbersHead(from: int, ids: seq<nat>)
    requires ids != []
    ensures Numbers(from, ids) == [Numbered(from, ids[0])] + Numbers(from + 1, ids[1..])
  {
  }

  lemma NextAdmitted(arrived: seq<nat>, admitted: seq<nat>, id: nat)
    requires admitted <= arrived && |admitted| < |arrived| && arrived[|admitted|] == id
    ensures admitted + [id] <= arrived && arrived[|admitted + [id]|..] == arrived[|admitted|..][1..]
  {
  }

  lemma FirstOut(x: Numbered, rest: multiset<Numbered>, others: seq<Numbered>)
    requires multiset{x} + rest == multiset([x] + others)
    ensures rest == multiset(others)
  {
    assert multiset([x] + others) == multiset{x} + multiset(others);
    assert rest == multiset{x} + rest - multiset{x};
  }

  /** The head left the pipe; a command that did not enter joined its end. */
  lemma PipeAfterCommand(s: State, s': State, sent: seq<Entry>)
    requires SameOutside(s, s') && s'.overflow.nonce == s.overflow.nonce
    requires ItemEntries(s'.overflow.queue) == ItemEntries(s.overflow.queue) + sent
    ensures Pipe(s) != [] && Pipe(s)[0] == Coming(s.overflow, s.inbox[0].message)
    ensures Pipe(s') == Pipe(s)[1..] + sent
  {
    SameNonceInbox(s.overflow, s'.overflow, s.inbox[1..]);
    SameNonceQueue(s.overflow, s'.overflow, s.broker);
    var head, a := Coming(s.overflow, s.inbox[0].message), InboxEntries(s.overflow, s.inbox[1..]);
    assert InboxEntries(s.overflow, s.inbox) == [head] + a;
    HeadLeaves(head, a, QueueEntries(s.overflow, s.broker), MoverEntries(s.mover), ItemEntries(s.overflow.queue), sent);
  }

  lemma HeadLeaves(head: Entry, a: seq<Entry>, b: seq<Entry>, c: seq<Entry>, q: seq<Entry>, sent: seq<Entry>)
    ensures var all := [head] + a + b + c + q;
            all != [] && all[0] == head && a + b + c + (q + sent) == all[1..] + sent
  {
    assert ([head] + a + b + c + q)[1..] == a + b + c + q;
  }

  lemma OutstandingAfterCommand(s: State, s': State, channel: string, sent: seq<Entry>)
    requires SameOutside(s, s') && s'.overflow.nonce == s.overflow.nonce
    requires ItemEntries(s'.overflow.queue) == ItemEntries(s.overflow.queue) + sent
    ensures Pipe(s) != []
    ensures var rest := Copies(Pipe(s)[1..], channel) + Copies(ItemEntries(s.handedBack), channel);
            && Outstanding(s, channel) == AsCopy(Coming(s.overflow, s.inbox[0].message), channel) + rest
            && Outstanding(s', channel) == Copies(sent, channel) + rest
  {
    PipeAfterCommand(s, s', sent);
    CopiesConcat(Pipe(s)[1..], sent, channel);
  }

  // ---------------------------------------------------------------- one command, one channel

  /** A command that is new to the channel. `rest` are the copies out besides the head and what is sent. */
  lemma NewKeepsOrder(view: View, key: string, id: nat, d: Delivery, r: Dispatched, number: int,
                      arrived: seq<nat>, admitted: seq<nat>, rest: multiset<Numbered>)
    requires Routed(view, key, d, r, number) && d.message.body == Command(key, id) && view.CopyNumber(d.message).None?
    requires InOrder(arrived, admitted, WindowOf(view, key), rest)
    ensures InOrder(arrived + [id], if r.entered then admitted + [id] else admitted, WindowOf(r.overflow, key),
                    if r.entered then rest else rest + multiset{Numbered(number, id)})
  {
    var w := WindowOf(view, key);
    if w.Some? {
      NewBehindSpill(arrived, admitted, w.value, rest, id);
    } else if r.entered {
      assert WindowOf(r.overflow, key) == None;
    } else {
      FirstSpilled(arrived, id, rest);
      assert WindowOf(r.overflow, key) == Some(Window(1, 2));
    }
  }

  /** A copy of this instance is the expected one, or goes round once more. */
  lemma CopyKeepsOrder(view: View, key: string, id: nat, d: Delivery, r: Dispatched, number: int, x: Numbered,
                       arrived: seq<nat>, admitted: seq<nat>, rest: multiset<Numbered>)
    requires Routed(view, key, d, r, number) && d.message.body == Command(key, id)
    requires view.CopyNumber(d.message) == Some(x.number) && x.id == id
    requires InOrder(arrived, admitted, WindowOf(view, key), multiset{x} + rest)
    ensures InOrder(arrived, if r.entered then admitted + [id] else admitted, WindowOf(r.overflow, key),
                    if r.entered then rest else multiset{x} + rest)
    ensures !r.entered ==> number == x.number
  {
    var w := WindowOf(view, key);
    CopyIsOurs(arrived, admitted, w, multiset{x} + rest, x);
    if r.entered {
      ExpectedEnters(arrived, admitted, w.value, x, rest);
    } else {
      assert WindowOf(r.overflow, key) == w;
    }
  }

  /** The channel of the command. */
  lemma RoutedKeepsOrder(view: View, key: string, id: nat, d: Delivery, r: Dispatched, number: int,
                         arrived: seq<nat>, admitted: seq<nat>, rest: multiset<Numbered>)
    requires Routed(view, key, d, r, number) && d.message.body == Command(key, id)
    requires InOrder(arrived, admitted, WindowOf(view, key), AsCopy(Coming(view, d.message), key) + rest)
    ensures InOrder(if view.CopyNumber(d.message).None? then arrived + [id] else arrived,
                    if r.entered then admitted + [id] else admitted,
                    WindowOf(r.overflow, key),
                    (if r.entered then multiset{} else multiset{Numbered(number, id)}) + rest)
  {
    var copy := view.CopyNumber(d.message);
    assert multiset{} + rest == rest;
    if copy.None? {
      NewKeepsOrder(view, key, id, d, r, number, arrived, admitted, rest);
      assert rest + multiset{Numbered(number, id)} == multiset{Numbered(number, id)} + rest;
    } else {
      CopyKeepsOrder(view, key, id, d, r, number, Numbered(copy.value, id), arrived, admitted, rest);
    }
  }

  /** What a command that did not enter its lane adds to the end of the pipe. */
  function Sent(key: string, id: nat, r: Dispatched, number: int): seq<Entry> {
    if r.entered then [] else [Entry(Command(key, id), Some(number))]
  }

  /** Another channel is not touched. */
  lemma OtherChannelKept(s: State, s': State, key: string, id: nat, r: Dispatched, number: int, channel: string)
    requires SameOutside(s, s') && s'.overflow == r.overflow && channel != key
    requires s.inbox[0].message.body == Command(key, id)
    requires Routed(s.overflow, key, s.inbox[0], r, number)
    requires Waiting(s'.arrived, channel) == Waiting(s.arrived, channel)
    requires Waiting(s'.admitted, channel) == Waiting(s.admitted, channel)
    requires Ordered(s, channel)
    ensures Ordered(s', channel)
  {
    OutstandingAfterCommand(s, s', channel, Sent(key, id, r, number));
    assert SameChannel(s.overflow, r.overflow, channel);
    assert WindowOf(r.overflow, channel) == WindowOf(s.overflow, channel);
    assert Copies(Sent(key, id, r, number), channel) == multiset{};
    assert AsCopy(Coming(s.overflow, s.inbox[0].message), channel) == multiset{};
    assert Outstanding(s', channel) == Outstanding(s, channel);
  }

  lemma SentCopies(key: string, id: nat, r: Dispatched, number: int)
    ensures Copies(Sent(key, id, r, number), key) == if r.entered then multiset{} else multiset{Numbered(number, id)}
  {
    if !r.entered {
      var sent := Sent(key, id, r, number);
      assert sent[1..] == [];
      assert Copies(sent, key) == AsCopy(sent[0], key) + Copies(sent[1..], key);
    }
  }

  lemma CommandKeepsOrder(s: State, s': State, key: string, id: nat, r: Dispatched, number: int)
    requires SameOutside(s, s') && s'.overflow == r.overflow
    requires s.inbox[0].message.body == Command(key, id)
    requires Routed(s.overflow, key, s.inbox[0], r, number)
    requires Waiting(s'.arrived, key)
             == if s.overflow.CopyNumber(s.inbox[0].message).None? then Waiting(s.arrived, key) + [id] else Waiting(s.arrived, key)
    requires Waiting(s'.admitted, key) == if r.entered then Waiting(s.admitted, key) + [id] else Waiting(s.admitted, key)
    requires Ordered(s, key)
    ensures Ordered(s', key)
  {
    OutstandingAfterCommand(s, s', key, Sent(key, id, r, number));
    SentCopies(key, id, r, number);
    var rest := Copies(Pipe(s)[1..], key) + Copies(ItemEntries(s.handedBack), key);
    RoutedKeepsOrder(s.overflow, key, id, s.inbox[0], r, number, Waiting(s.arrived, key), Waiting(s.admitted, key), rest);
  }

  lemma GarbageKeepsOrder(s: State, channel: string)
    requires s.inbox != [] && s.inbox[0].message.body.Garbage? && Ordered(s, channel)
    ensures Ordered(DeadLetter(s), channel)
  {
    OutstandingAfterCommand(s, DeadLetter(s), channel, []);
  }

  lemma TookKeepsOrder(s: State, key: string, id: nat, r: Dispatched, number: int, channel: string)
    requires s.inbox != [] && s.inbox[0].message.body == Command(key, id)
    requires Routed(s.overflow, key, s.inbox[0], r, number) && Ordered(s, channel)
    ensures Ordered(Took(s, key, id, s.overflow.CopyNumber(s.inbox[0].message).None?, r), channel)
  {
    var isNew := s.overflow.CopyNumber(s.inbox[0].message).None?;
    var s' := Took(s, key, id, isNew, r);
    TookOutside(s, key, id, isNew, r);
    if channel == key {
      CommandKeepsOrder(s, s', key, id, r, number);
    } else {
      OtherChannelKept(s, s', key, id, r, number, channel);
    }
  }

  lemma ConsumeKeepsOrder(cfg: Config, s: State, now: int, channel: string)
    requires Enabled(cfg, s, Consume(now)) && Orderly(s, Consume(now)) && Ordered(s, channel)
    ensures Ordered(Consumed(cfg, s, now), channel)
  {
    var d := s.inbox[0];
    match d.message.body
    case Garbage => GarbageKeepsOrder(s, channel);
    case Command(key, id) =>
      DispatchRoutes(cfg, s.overflow, s.pending, key, d, now);
      var r := Dispatch(cfg, s.overflow, s.pending, key, d, now);
      var number :| Routed(s.overflow, key, d, r, number);
      TookKeepsOrder(s, key, id, r, number, channel);
  }

  /** A step that leaves the copies out, the windows and the record of arrivals and admissions as they were. */
  lemma QuietKeepsOrder(s: State, s': State, channel: string)
    requires Ordered(s, channel)
    requires s'.arrived == s.arrived && s'.admitted == s.admitted
    requires s'.overflow.channels == s.overflow.channels
    requires Outstanding(s', channel) == Outstanding(s, channel)
    ensures Ordered(s', channel)
  {
  }

  lemma ArriveKeepsOrder(s: State, m: Message, channel: string)
    requires Ordered(s, channel) && m.nonce != s.overflow.nonce
    ensures Ordered(Arrived(s, m), channel)
  {
    ArriveCopies(s, m, channel);
    QuietKeepsOrder(s, Arrived(s, m), channel);
  }

  lemma DeliverKeepsOrder(s: State, channel: string)
    requires Ordered(s, channel) && s.broker != []
    ensures Ordered(Delivered(s), channel)
  {
    DeliverPipe(s);
    QuietKeepsOrder(s, Delivered(s), channel);
  }

  lemma MoverTakeKeepsOrder(s: State, channel: string)
    requires Ordered(s, channel) && s.mover.Idle? && s.overflow.queue != []
    ensures Ordered(MoverTook(s), channel)
  {
    MoverTakePipe(s);
    QuietKeepsOrder(s, MoverTook(s), channel);
  }

  lemma PublishKeepsOrder(s: State, answer: Answer, channel: string)
    requires Ordered(s, channel) && s.mover.Holding? && answer != StoresUnconfirmed
    ensures Ordered(MoverPublished(s, answer), channel)
  {
    if answer == Confirms {
      ConfirmPipe(s);
    }
    QuietKeepsOrder(s, MoverPublished(s, answer), channel);
  }

  lemma AckKeepsOrder(s: State, channel: string)
    requires Ordered(s, channel) && s.mover.Confirmed?
    ensures Ordered(MoverAcked(s), channel)
  {
    assert Pipe(MoverAcked(s)) == Pipe(s);
    QuietKeepsOrder(s, MoverAcked(s), channel);
  }

  lemma HandBackKeepsOrder(s: State, channel: string)
    requires Ordered(s, channel) && s.mover.Holding?
    ensures Ordered(MoverHandedBack(s), channel)
  {
    HandBackOutstanding(s, channel);
    QuietKeepsOrder(s, MoverHandedBack(s), channel);
  }

  lemma FinishKeepsOrder(s: State, channel: string)
    requires Ordered(s, channel) && s.mover.Left? && s.mover.item.spill < |s.overflow.unpublished|
    ensures Ordered(MoverFinished(s), channel)
  {
    FinishPipe(s);
    QuietKeepsOrder(s, MoverFinished(s), channel);
  }

  lemma MoverKeepsOrder(cfg: Config, s: State, e: Event, channel: string)
    requires Enabled(cfg, s, e) && Orderly(s, e) && Ordered(s, channel)
    requires e.MoverTake? || e.MoverPublish? || e.MoverAck? || e.MoverHandBack? || e.MoverFinish?
    ensures Ordered(Step(cfg, s, e), channel)
  {
    match e
    case MoverTake => MoverTakeKeepsOrder(s, channel);
    case MoverPublish(answer) => PublishKeepsOrder(s, answer, channel);
    case MoverAck => AckKeepsOrder(s, channel);
    case MoverHandBack => HandBackKeepsOrder(s, channel);
    case MoverFinish => FinishKeepsOrder(s, channel);
  }

  /** Lanes, phases and the final hand-back do not touch the pipe. */
  lemma OutsideKeepsOrder(s: State, s': State, channel: string)
    requires Ordered(s, channel) && OutsideLanes(s') == OutsideLanes(s)
    ensures Ordered(s', channel)
  {
  }

  lemma LaneSamePipe(cfg: Config, s: State, e: Event, s': State)
    requires Enabled(cfg, s, e) && s' == Step(cfg, s, e)
    requires e.LaneTake? || e.LaneFinish? || e.LaneExit? || e.HandBack? || e.Break? || e.CloseStream? || e.Stop?
    ensures OutsideLanes(s') == OutsideLanes(s)
  {
    match e
    case LaneTake(key) => TookLaneOutside(s, key);
    case LaneFinish(key, how) => FinishedLaneOutside(s, key, how);
    case LaneExit(key) => LeftLaneOutside(s, key);
    case HandBack => AllHandedBackOutside(s);
    case Break =>
    case CloseStream =>
    case Stop =>
  }

  lemma LaneKeepsOrder(cfg: Config, s: State, e: Event, channel: string)
    requires Enabled(cfg, s, e) && Ordered(s, channel)
    requires e.LaneTake? || e.LaneFinish? || e.LaneExit? || e.HandBack? || e.Break? || e.CloseStream? || e.Stop?
    ensures Ordered(Step(cfg, s, e), channel)
  {
    LaneSamePipe(cfg, s, e, Step(cfg, s, e));
    OutsideKeepsOrder(s, Step(cfg, s, e), channel);
  }

  lemma StepKeepsOrder(cfg: Config, s: State, e: Event, channel: string)
    requires Enabled(cfg, s, e) && Orderly(s, e) && Ordered(s, channel)
    ensures Ordered(Step(cfg, s, e), channel)
  {
    match e
    case Arrive(m) => ArriveKeepsOrder(s, m, channel);
    case Deliver => DeliverKeepsOrder(s, channel);
    case Consume(now) => ConsumeKeepsOrder(cfg, s, now, channel);
    case _ =>
      if e.MoverTake? || e.MoverPublish? || e.MoverAck? || e.MoverHandBack? || e.MoverFinish? {
        MoverKeepsOrder(cfg, s, e, channel);
      } else {
        LaneKeepsOrder(cfg, s, e, channel);
      }
  }

  // ---------------------------------------------------------------- the lane

  lemma ConsumeKeepsLane(cfg: Config, s: State, now: int, channel: string)
    requires Enabled(cfg, s, Consume(now)) && LaneInOrder(s, channel)
    ensures LaneInOrder(Consumed(cfg, s, now), channel)
  {
    ConsumedOutside(cfg, s, now);
    var d := s.inbox[0];
    if d.message.body.Command? {
      DispatchLane(cfg, s.overflow, s.pending, d.message.body.channel, d, now);
      assert IdsOf(Waiting(s.pending, channel) + [d]) == IdsOf(Waiting(s.pending, channel)) + [CommandId(d)];
    }
  }

  lemma DispatchLane(cfg: Config, view: View, pending: map<string, seq<Delivery>>, key: string, d: Delivery, now: int)
    requires view.WellFormed()
    ensures var r := Dispatch(cfg, view, pending, key, d, now);
            r.pending == if r.entered then Append(pending, key, d) else pending
  {
  }

  lemma IdsHead(ds: seq<Delivery>)
    requires ds != []
    ensures IdsOf(ds) == [CommandId(ds[0])] + IdsOf(ds[1..])
  {
  }

  lemma TakeMovesOne(admitted: seq<nat>, started: seq<nat>, ds: seq<Delivery>)
    requires ds != [] && admitted == started + IdsOf(ds)
    ensures admitted == started + [CommandId(ds[0])] + IdsOf(ds[1..])
  {
    IdsHead(ds);
    Sequences.Regroup(started, [CommandId(ds[0])], IdsOf(ds[1..]));
  }

  lemma TakeKeepsLane(s: State, key: string, channel: string, s': State)
    requires Waiting(s.pending, key) != [] && LaneInOrder(s, channel) && s' == TookLane(s, key)
    ensures LaneInOrder(s', channel)
  {
    if key == channel {
      TakeMovesOne(Waiting(s.admitted, channel), Waiting(s.started, channel), s.pending[key]);
    }
  }

  ghost predicate SameLanes(s: State, s': State, channel: string) {
    s'.admitted == s.admitted && s'.started == s.started && Waiting(s'.pending, channel) == Waiting(s.pending, channel)
  }

  lemma PublishSameLane(s: State, answer: Answer, channel: string)
    requires s.mover.Holding?
    ensures SameLanes(s, MoverPublished(s, answer), channel)
  {
  }

  lemma MoverSameLane(cfg: Config, s: State, e: Event, s': State, channel: string)
    requires Enabled(cfg, s, e) && s' == Step(cfg, s, e)
    requires e.MoverTake? || e.MoverPublish? || e.MoverAck? || e.MoverHandBack? || e.MoverFinish?
    ensures SameLanes(s, s', channel)
  {
    match e
    case MoverTake => assert s' == MoverTook(s);
    case MoverPublish(answer) => PublishSameLane(s, answer, channel);
    case MoverAck => assert s' == MoverAcked(s);
    case MoverHandBack => assert s' == MoverHandedBack(s);
    case MoverFinish => assert s' == MoverFinished(s);
  }

  lemma FinishSameLane(s: State, key: string, how: How, channel: string)
    requires key in s.running
    ensures SameLanes(s, FinishedLane(s, key, how), channel)
  {
  }

  lemma ExitSameLane(s: State, key: string, channel: string)
    requires Waiting(s.pending, key) == []
    ensures SameLanes(s, LeftLane(s, key), channel)
  {
  }

  lemma HandBackSameLane(s: State, channel: string)
    ensures SameLanes(s, AllHandedBack(s), channel)
  {
  }

  lemma ArriveSameLane(s: State, m: Message, channel: string)
    ensures SameLanes(s, Arrived(s, m), channel)
  {
  }

  lemma DeliverSameLane(s: State, channel: string)
    requires s.broker != []
    ensures SameLanes(s, Delivered(s), channel)
  {
  }

  lemma OtherStepsSameLane(cfg: Config, s: State, e: Event, s': State, channel: string)
    requires Enabled(cfg, s, e) && !e.Consume? && !e.LaneTake? && s' == Step(cfg, s, e)
    ensures SameLanes(s, s', channel)
  {
    match e
    case Arrive(m) => ArriveSameLane(s, m, channel);
    case Deliver => DeliverSameLane(s, channel);
    case LaneFinish(key, how) => FinishSameLane(s, key, how, channel);
    case LaneExit(key) => ExitSameLane(s, key, channel);
    case Break =>
    case CloseStream =>
    case Stop =>
    case HandBack => HandBackSameLane(s, channel);
    case _ => MoverSameLane(cfg, s, e, s', channel);
  }

  lemma StepKeepsLane(cfg: Config, s: State, e: Event, channel: string)
    requires Enabled(cfg, s, e) && LaneInOrder(s, channel)
    ensures LaneInOrder(Step(cfg, s, e), channel)
  {
    if e.Consume? {
      ConsumeKeepsLane(cfg, s, e.now, channel);
    } else if e.LaneTake? {
      TakeKeepsLane(s, e.key, channel, Step(cfg, s, e));
    } else {
      OtherStepsSameLane(cfg, s, e, Step(cfg, s, e), channel);
    }
  }

  // ---------------------------------------------------------------- whole runs

  ghost predicate IsOrderlyRun(cfg: Config, s: State, events: seq<Event>)
    decreases |events|
  {
    events != [] ==>
      Enabled(cfg, s, events[0]) && Orderly(s, events[0]) && IsOrderlyRun(cfg, Step(cfg, s, events[0]), events[1..])
  }

  lemma {:induction false} RunKeepsOrder(cfg: Config, s: State, events: seq<Event>, channel: string)
    requires IsOrderlyRun(cfg, s, events) && Ordered(s, channel) && LaneInOrder(s, channel)
    ensures IsRun(cfg, s, events)
    ensures Ordered(After(cfg, s, events), channel) && LaneInOrder(After(cfg, s, events), channel)
    decreases |events|
  {
    if events != [] {
      StepKeepsOrder(cfg, s, events[0], channel);
      StepKeepsLane(cfg, s, events[0], channel);
      RunKeepsOrder(cfg, Step(cfg, s, events[0]), events[1..], channel);
    }
  }

  /** In every orderly run, at every moment: the commands of a channel that entered its lane are exactly the
      first ones to arrive, in order; those that did not are out as copies, one per number, in order; and the
      ones started so far are the first to arrive. */
  lemma ArrivalOrder(cfg: Config, nonce: string, events: seq<Event>, channel: string)
    requires IsOrderlyRun(cfg, Start(nonce), events)
    ensures IsRun(cfg, Start(nonce), events)
    ensures var s := After(cfg, Start(nonce), events);
            && Ordered(s, channel) && LaneInOrder(s, channel)
            && Waiting(s.started, channel) <= Waiting(s.arrived, channel)
  {
    RunKeepsOrder(cfg, Start(nonce), events, channel);
  }
}
