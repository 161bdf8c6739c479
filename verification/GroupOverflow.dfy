/** The overflow of internal/amqp/group_overflow.go: a command whose lane is full is numbered,
    and a mover copies it to the tail of the broker queue and acknowledges the original.

    The first half gives each operation as a function on a value (`View`); the class below
    updates its fields in place and is proved against those functions. */
module GroupOverflow {
  import opened Options

  // Milliseconds.
  const STALL_AFTER := 30_000
  const RETRY_FIRST := 200
  const RETRY_MAX := 5_000

  datatype Body = Garbage | Command(channel: string, id: nat)

  /** A broker message. A missing nonce header reads as "", a missing number as None. */
  datatype Message = Message(body: Body, nonce: string, number: Option<int>)

  datatype Delivery = Delivery(tag: nat, message: Message)

  /** One tracked spill. `id` stands for the identity of the object: the mover keeps a
      reference to a spill that the consumer has already forgotten. */
  datatype Spill = Spill(id: nat, next: int, expected: int, lastProgress: int)

  datatype Item = Item(delivery: Delivery, number: int, at: int, spill: nat)

  /** `unpublished[id]` is the atomic counter of spill `id`. */
  datatype View = View(nonce: string, channels: map<string, Spill>, unpublished: seq<int>, queue: seq<Item>) {
    ghost predicate WellFormed() {
      && (forall c :: c in channels ==> channels[c].id < |unpublished|)
      && (forall i :: 0 <= i < |queue| ==> queue[i].spill < |unpublished|)
    }

    function CopyNumber(m: Message): Option<int> {
      if m.nonce != nonce then None else m.number
    }

    /** The stall guard: nothing of this channel is still to be published, and no copy came back for long. */
    predicate Stalled(channel: string, now: int)
      requires channel in channels && channels[channel].id < |unpublished|
    {
      unpublished[channels[channel].id] == 0 && now - channels[channel].lastProgress > STALL_AFTER
    }

    function Admits(channel: string, m: Message, now: int): (r: (bool, View))
      requires WellFormed()
    {
      if channel !in channels then
        (true, this)
      else if Stalled(channel, now) then
        (true, Without(channel))
      else
        var copied := CopyNumber(m);
        (copied.Some? && copied.value <= channels[channel].expected, this)
    }

    function Admitted(channel: string, m: Message, now: int): View {
      var copied := CopyNumber(m);
      if channel !in channels || copied.None? then
        this
      else if copied.value != channels[channel].expected then
        Progressed(channel, now)
      else
        Progressed(channel, now).Advanced(channel)
    }

    function Progressed(channel: string, now: int): View
      requires channel in channels
    {
      this.(channels := channels[channel := channels[channel].(lastProgress := now)])
    }

    /** The expected copy is in: the next one is expected, or nothing is tracked any more. */
    function Advanced(channel: string): View
      requires channel in channels
    {
      var spill := channels[channel];
      if spill.expected + 1 == spill.next then Without(channel) else Expecting(channel)
    }

    function Expecting(channel: string): View
      requires channel in channels
    {
      var spill := channels[channel];
      this.(channels := channels[channel := spill.(expected := spill.expected + 1)])
    }

    function Without(channel: string): View {
      this.(channels := channels - {channel})
    }

    lemma ForgetsTheExpected(channel: string)
      requires channel in channels
      ensures Expecting(channel).Without(channel) == Without(channel)
    {
    }

    function Send(channel: string, d: Delivery, now: int): View
      requires WellFormed()
    {
      if channel !in channels then
        Tracked(channel, now).Numbered(channel, d, now)
      else if CopyNumber(d.message).None? then
        Numbered(channel, d, now)
      else
        Pushed(channels[channel].id, d, CopyNumber(d.message).value, now)
    }

    function Tracked(channel: string, now: int): View {
      this.(channels := channels[channel := Spill(|unpublished|, 1, 1, now)], unpublished := unpublished + [0])
    }

    /** A command without a number of this instance takes the spill's next one. */
    function Numbered(channel: string, d: Delivery, now: int): View
      requires channel in channels && channels[channel].id < |unpublished|
    {
      var spill := channels[channel];
      Renumbered(channel).Pushed(spill.id, d, spill.next, now)
    }

    function Renumbered(channel: string): View
      requires channel in channels
    {
      var spill := channels[channel];
      this.(channels := channels[channel := spill.(next := spill.next + 1)])
    }

    function Pushed(spill: nat, d: Delivery, number: int, now: int): View
      requires spill < |unpublished|
    {
      this.(unpublished := unpublished[spill := unpublished[spill] + 1],
            queue := queue + [Item(d, number, now, spill)])
    }

    function Finish(spill: nat): View
      requires spill < |unpublished|
    {
      this.(unpublished := unpublished[spill := unpublished[spill] - 1])
    }

    /** The message the mover publishes: the original with this instance's two headers set. */
    function CopyOf(item: Item): Message {
      item.delivery.message.(nonce := nonce, number := Some(item.number))
    }
  }

  /** How one publish of the mover ends: confirmed; with an error, although the broker stored the copy; with
      an error and nothing stored; or with the error of a closed channel. */
  datatype Outcome = StoredConfirmed | StoredUnconfirmed | Refused | ChannelClosed

  class ChannelSpill {
    var next: int
    var expected: int
    var lastProgress: int
    var unpublished: int
    ghost const id: nat
    ghost const channel: string

    constructor (now: int, ghost id: nat, ghost channel: string)
      ensures next == 1 && expected == 1 && lastProgress == now && unpublished == 0
      ensures this.id == id && this.channel == channel
    {
      next, expected, lastProgress, unpublished := 1, 1, now, 0;
      this.id, this.channel := id, channel;
    }

    ghost function Value(): Spill
      reads this`next, this`expected, this`lastProgress
    {
      Spill(id, next, expected, lastProgress)
    }
  }

  datatype QueuedItem = QueuedItem(delivery: Delivery, number: int, at: int, spill: ChannelSpill) {
    ghost function Value(): Item {
      Item(delivery, number, at, spill.id)
    }
  }

  class Overflow {
    const nonce: string
    var channels: map<string, ChannelSpill>
    var queue: seq<QueuedItem>
    ghost var spills: seq<ChannelSpill>
    ghost var contents: View

    ghost predicate Valid()
      reads this`channels, this`queue, this`spills, this`contents
      reads spills`next, spills`expected, spills`lastProgress, spills`unpublished
    {
      && contents.nonce == nonce
      && Identified() && Counts(contents.unpublished) && Tracks(contents.channels) && Queues(contents.queue)
    }

    ghost predicate Identified()
      reads this`spills
    {
      forall i :: 0 <= i < |spills| ==> spills[i].id == i
    }

    ghost predicate Counts(unpublished: seq<int>)
      reads this`spills, spills`unpublished
    {
      |unpublished| == |spills| && forall i :: 0 <= i < |spills| ==> unpublished[i] == spills[i].unpublished
    }

    ghost predicate Tracks(values: map<string, Spill>)
      reads this`spills, this`channels, spills`next, spills`expected, spills`lastProgress
    {
      && (forall c :: c in values <==> c in channels)
      && (forall c :: c in channels ==> Known(channels[c]) && channels[c].channel == c && values[c] == channels[c].Value())
    }

    ghost predicate Queues(items: seq<Item>)
      reads this`spills, this`queue
    {
      |items| == |queue| && forall i :: 0 <= i < |queue| ==> Known(queue[i].spill) && items[i] == queue[i].Value()
    }

    ghost predicate Known(spill: ChannelSpill)
      reads this`spills
    {
      spill.id < |spills| && spills[spill.id] == spill
    }

    constructor (nonce: string)
      ensures Valid() && contents == View(nonce, map[], [], []) && spills == []
    {
      this.nonce := nonce;
      channels, queue, spills := map[], [], [];
      contents := View(nonce, map[], [], []);
    }

    function CopyNumber(m: Message): Option<int> {
      if m.nonce != nonce then None else m.number
    }

    method Admits(channel: string, d: Delivery, now: int) returns (admits: bool)
      requires Valid()
      modifies this`channels, this`contents
      ensures Valid()
      ensures (admits, contents) == old(contents).Admits(channel, d.message, now)
    {
      if channel !in channels {
        return true;
      }
      var spill := channels[channel];
      if spill.unpublished == 0 && now - spill.lastProgress > STALL_AFTER {
        Forget(channel);
        return true;
      }
      var copied := CopyNumber(d.message);
      return copied.Some? && copied.value <= spill.expected;
    }

    method Admitted(channel: string, d: Delivery, now: int)
      requires Valid()
      modifies this`channels, this`contents, spills`lastProgress, spills`expected
      ensures Valid() && spills == old(spills)
      ensures contents == old(contents).Admitted(channel, d.message, now)
    {
      var copied := CopyNumber(d.message);
      if channel in channels && copied.Some? {
        var spill := channels[channel];
        Progress(channel, spill, now);
        if copied.value == spill.expected {
          Advance(channel, spill);
        }
      }
    }

    method Progress(ghost channel: string, spill: ChannelSpill, now: int)
      requires Valid() && channel in channels && channels[channel] == spill
      modifies this`contents, spill`lastProgress
      ensures Valid()
      ensures contents == old(contents).Progressed(channel, now)
    {
      assert forall c :: c in channels && c != channel ==> channels[c] != spill;
      spill.lastProgress := now;
      contents := contents.Progressed(channel, now);
    }

    method Advance(channel: string, spill: ChannelSpill)
      requires Valid() && channel in channels && channels[channel] == spill
      modifies this`channels, this`contents, spill`expected
      ensures Valid()
      ensures contents == old(contents).Advanced(channel)
    {
      ghost var before := contents;
      Expect(channel, spill);
      if spill.expected == spill.next {
        Forget(channel);
        before.ForgetsTheExpected(channel);
      }
    }

    method Expect(ghost channel: string, spill: ChannelSpill)
      requires Valid() && channel in channels && channels[channel] == spill
      modifies this`contents, spill`expected
      ensures Valid()
      ensures contents == old(contents).Expecting(channel)
    {
      assert forall c :: c in channels && c != channel ==> channels[c] != spill;
      spill.expected := spill.expected + 1;
      contents := contents.Expecting(channel);
    }

    method Forget(channel: string)
      requires Valid() && channel in channels
      modifies this`channels, this`contents
      ensures Valid()
      ensures contents == old(contents).Without(channel)
    {
      channels := channels - {channel};
      contents := contents.Without(channel);
    }

    method Send(channel: string, d: Delivery, now: int)
      requires Valid()
      modifies this`channels, this`queue, this`spills, this`contents, spills`next, spills`unpublished
      ensures Valid() && |old(spills)| <= |spills| <= |old(spills)| + 1 && spills[..|old(spills)|] == old(spills)
      ensures |spills| > |old(spills)| ==> fresh(spills[|old(spills)|])
      ensures contents == old(contents).Send(channel, d, now)
    {
      var copied := CopyNumber(d.message);
      if channel !in channels {
        Track(channel, now);
        copied := None;
      }
      var spill := channels[channel];
      if copied.None? {
        var number := Number(channel, spill);
        Push(spill, d, number, now);
      } else {
        Push(spill, d, copied.value, now);
      }
    }

    /** Takes the spill's next number. */
    method Number(ghost channel: string, spill: ChannelSpill) returns (number: int)
      requires Valid() && channel in channels && channels[channel] == spill
      modifies this`contents, spill`next
      ensures Valid() && number == old(contents).channels[channel].next
      ensures contents == old(contents).Renumbered(channel)
    {
      assert forall c :: c in channels && c != channel ==> channels[c] != spill;
      number := spill.next;
      spill.next := spill.next + 1;
      contents := contents.Renumbered(channel);
    }

    method Push(spill: ChannelSpill, d: Delivery, number: int, now: int)
      requires Valid() && Known(spill)
      modifies this`queue, this`contents, spill`unpublished
      ensures Valid()
      ensures contents == old(contents).Pushed(spill.id, d, number, now)
    {
      spill.unpublished := spill.unpublished + 1;
      queue := queue + [QueuedItem(d, number, now, spill)];
      contents := contents.Pushed(spill.id, d, number, now);
    }

    method Track(channel: string, now: int)
      requires Valid() && channel !in channels
      modifies this`channels, this`spills, this`contents
      ensures Valid() && channel in channels && |spills| == |old(spills)| + 1
      ensures spills[..|old(spills)|] == old(spills) && fresh(spills[|old(spills)|])
      ensures contents == old(contents).Tracked(channel, now)
    {
      var spill := new ChannelSpill(now, |spills|, channel);
      Register(channel, spill);
    }

    method Register(channel: string, spill: ChannelSpill)
      requires Valid() && channel !in channels
      requires spill.id == |spills| && spill.channel == channel && spill.unpublished == 0
      requires spill.next == 1 && spill.expected == 1
      modifies this`channels, this`spills, this`contents
      ensures Valid() && channel in channels && spills == old(spills) + [spill]
      ensures contents == old(contents).Tracked(channel, spill.lastProgress)
    {
      channels := channels[channel := spill];
      contents := contents.Tracked(channel, spill.lastProgress);
      spills := spills + [spill];
      assert forall i :: 0 <= i < |old(spills)| ==> spills[i] == old(spills)[i];
      assert Counts(contents.unpublished);
    }

    /** The mover takes the oldest item. */
    method Take() returns (item: QueuedItem)
      requires Valid() && queue != []
      modifies this`queue, this`contents
      ensures Valid() && Known(item.spill)
      ensures item.Value() == old(contents).queue[0]
      ensures contents == old(contents).(queue := old(contents).queue[1..])
    {
      item := queue[0];
      queue := queue[1..];
      contents := contents.(queue := contents.queue[1..]);
    }

    /** The mover has settled the item: it no longer counts against its spill. */
    method Finish(item: QueuedItem)
      requires Valid() && Known(item.spill)
      modifies this`contents, item.spill`unpublished
      ensures Valid()
      ensures contents == old(contents).Finish(item.spill.id)
    {
      item.spill.unpublished := item.spill.unpublished - 1;
      contents := contents.Finish(item.spill.id);
    }
  }

  /** The delay before retry `n`: 200 ms doubled each time, never more than 5 s. */
  function Backoff(n: nat): (wait: int)
    ensures RETRY_FIRST <= wait <= RETRY_MAX
  {
    if n == 0 then RETRY_FIRST else Min(Backoff(n - 1) * 2, RETRY_MAX)
  }

  function Twofold(n: nat): (r: int)
    ensures r >= 1
  {
    if n == 0 then 1 else 2 * Twofold(n - 1)
  }

  /** In closed form, in milliseconds. */
  lemma {:induction false} BackoffDoubles(n: nat)
    ensures Backoff(n) == if 200 * Twofold(n) < 5_000 then 200 * Twofold(n) else 5_000
  {
    if n > 0 {
      BackoffDoubles(n - 1);
    }
  }

  function Min(a: int, b: int): int {
    if a < b then a else b
  }

  /** The mover tries again after an error that is not of a closed channel, whatever the broker did. */
  predicate Retried(outcome: Outcome) {
    outcome == Refused || outcome == StoredUnconfirmed
  }

  ghost predicate AllRetried(publish: nat -> Outcome, n: nat) {
    forall k: nat :: k < n ==> Retried(publish(k))
  }

  /** Attempt `n` is reached when every earlier one is to be retried and the stop had not been seen.
      The stop is looked at once before the first attempt (the hold), then before and after each one. */
  ghost predicate Reached(publish: nat -> Outcome, stopAt: nat, n: nat) {
    1 + 2 * n < stopAt && AllRetried(publish, n)
  }

  ghost predicate NoneConfirmed(publish: nat -> Outcome, stopAt: nat) {
    forall n: nat :: Reached(publish, stopAt, n) ==> publish(n) != StoredConfirmed
  }

  /** No later attempt is reached once the stop is seen or the channel is closed. */
  lemma EndsUnconfirmed(publish: nat -> Outcome, stopAt: nat, n: nat)
    requires AllRetried(publish, n) && (stopAt <= 1 + 2 * n || publish(n) == ChannelClosed)
    ensures NoneConfirmed(publish, stopAt)
  {
    forall k: nat | Reached(publish, stopAt, k)
      ensures publish(k) != StoredConfirmed
    {
      assert k <= n;
    }
  }

  /** One run of moveToTail. `publish(n)` is the broker's answer to attempt n, and the stop is
      seen from look number `stopAt` on. True: the original was acked; false: it was handed back. */
  method MoveToTail(publish: nat -> Outcome, stopAt: nat) returns (acked: bool, waits: seq<int>)
    ensures acked ==> Reached(publish, stopAt, |waits|) && publish(|waits|) == StoredConfirmed
    ensures !acked ==> NoneConfirmed(publish, stopAt)
    ensures forall n :: 0 <= n < |waits| ==> waits[n] == Backoff(n)
  {
    waits := [];
    if stopAt == 0 {
      EndsUnconfirmed(publish, stopAt, 0);
      return false, waits;
    }
    var n, wait := 0, RETRY_FIRST;
    while true
      invariant 2 * n < stopAt
      invariant |waits| == n && wait == Backoff(n)
      invariant forall k :: 0 <= k < n ==> waits[k] == Backoff(k)
      invariant AllRetried(publish, n)
      decreases stopAt - n
    {
      if stopAt <= 1 + 2 * n {
        EndsUnconfirmed(publish, stopAt, n);
        return false, waits;
      }
      if publish(n) == StoredConfirmed {
        return true, waits;
      }
      if publish(n) == ChannelClosed {
        EndsUnconfirmed(publish, stopAt, n);
        return false, waits;
      }
      waits := waits + [wait];
      if stopAt <= 2 + 2 * n {
        EndsUnconfirmed(publish, stopAt, n + 1);
        return false, waits;
      }
      wait := Min(wait * 2, RETRY_MAX);
      n := n + 1;
    }
  }
}
