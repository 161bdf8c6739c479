// The cooldown of automatic replies (internal/call/autoreply.go): a caller, under any of its known
// identities, is answered once per window on a channel.
module Cooldown {
  import opened Options

  // ---- Keys ----

  function KeyOf(channel: string, caller: string): string {
    channel + "|" + caller
  }

  function Keys(channel: string, callers: seq<string>): seq<string> {
    if callers == [] then []
    else (if callers[0] != "" then [KeyOf(channel, callers[0])] else []) + Keys(channel, callers[1..])
  }

  // Channels without the separator in their id never share a key, and neither do callers of one channel.
  lemma {:induction false} KeysTellApart(channel: string, caller: string, channel': string, caller': string)
    requires '|' !in channel && '|' !in channel'
    ensures KeyOf(channel, caller) == KeyOf(channel', caller') <==> channel == channel' && caller == caller'
  {
    var k, k' := KeyOf(channel, caller), KeyOf(channel', caller');
    assert k[|channel|] == '|' && k'[|channel'|] == '|';
    assert |channel| < |channel'| ==> k'[|channel|] in channel';
    assert |channel'| < |channel| ==> k[|channel'|] in channel;
    if k == k' {
      assert channel == k[..|channel|] && channel' == k'[..|channel'|];
      assert caller == k[|channel| + 1..] && caller' == k'[|channel'| + 1..];
    }
  }

  // A key for every identity of the caller that is known, and no other.
  lemma {:induction false} KeysAreTheCallers(channel: string, callers: seq<string>, key: string)
    ensures key in Keys(channel, callers) <==> exists caller :: caller in callers && caller != "" && key == channel + "|" + caller
  {
    if callers != [] {
      KeysAreTheCallers(channel, callers[1..], key);
      assert callers == [callers[0]] + callers[1..];
    }
  }

  // Two channels can share a key exactly when one of them begins with the other and a bar.
  lemma ChannelsCollideExactly(channel: string, channel': string)
    requires channel != channel'
    ensures (exists caller, caller' :: KeyOf(channel, caller) == KeyOf(channel', caller'))
       <==> channel + "|" <= channel' || channel' + "|" <= channel
  {
    if caller, caller' :| KeyOf(channel, caller) == KeyOf(channel', caller') {
      if |channel| <= |channel'| {
        ShorterIsPrefix(channel, caller, channel', caller');
      } else {
        ShorterIsPrefix(channel', caller', channel, caller);
      }
    }
    if channel + "|" <= channel' {
      Collide(channel, channel');
    }
    if channel' + "|" <= channel {
      Collide(channel', channel);
    }
  }

  lemma ShorterIsPrefix(channel: string, caller: string, longer: string, caller': string)
    requires channel != longer && |channel| <= |longer| && KeyOf(channel, caller) == KeyOf(longer, caller')
    ensures channel + "|" <= longer
  {
    var k := KeyOf(channel, caller);
    assert channel == k[..|channel|] && longer == k[..|longer|];
    assert k[|channel|] == '|';
  }

  lemma Collide(channel: string, longer: string)
    requires channel + "|" <= longer
    ensures KeyOf(channel, longer[|channel| + 1..] + "|") == KeyOf(longer, "")
  {
    assert longer == channel + "|" + longer[|channel| + 1..];
  }

  // ---- The cooldown on values ----

  datatype Held = Held(at: int, token: nat)

  datatype Reservation = Reservation(keys: seq<string>, token: nat)

  datatype Book = Book(last: map<string, Held>, counter: nat)

  function Purged(last: map<string, Held>, window: int, now: int): map<string, Held> {
    map k | k in last && now - last[k].at < window :: last[k]
  }

  predicate Cooling(last: map<string, Held>, keys: seq<string>) {
    exists i :: 0 <= i < |keys| && keys[i] in last
  }

  function Reserved(last: map<string, Held>, keys: seq<string>, held: Held): map<string, Held> {
    last + map k | k in keys :: held
  }

  lemma ReservedOneMore(last: map<string, Held>, keys: seq<string>, i: nat, held: Held)
    requires i < |keys|
    ensures Reserved(last, keys[..i + 1], held) == Reserved(last, keys[..i], held)[keys[i] := held]
  {
    assert keys[..i + 1] == keys[..i] + [keys[i]];
  }

  function Freed(last: map<string, Held>, held: Reservation): map<string, Held> {
    map k | k in last && !(k in held.keys && last[k].token == held.token) :: last[k]
  }

  function Allowed(b: Book, window: int, keys: seq<string>, now: int): (Book, Option<Reservation>) {
    if keys == [] then (b, None)
    else
      var last := Purged(b.last, window, now);
      if Cooling(last, keys) then (b.(last := last), None)
      else
        var token := b.counter + 1;
        (Book(Reserved(last, keys, Held(now, token)), token), Some(Reservation(keys, token)))
  }

  // ---- The cooldown as an object ----

  method CooldownKeys(channel: string, callers: seq<string>) returns (keys: seq<string>)
    ensures keys == Keys(channel, callers)
  {
    keys := [];
    assert callers[0..] == callers;
    for i := 0 to |callers|
      invariant keys + Keys(channel, callers[i..]) == Keys(channel, callers)
    {
      assert callers[i..][1..] == callers[i + 1..];
      if callers[i] != "" {
        keys := keys + [KeyOf(channel, callers[i])];
      }
    }
  }

  class Cooldown {
    const window: int
    var last: map<string, Held>
    var counter: nat

    constructor (window: int)
      ensures this.window == window && Contents() == Book(map[], 0)
    {
      this.window := window;
      last, counter := map[], 0;
    }

    function Contents(): Book
      reads this
    {
      Book(last, counter)
    }

    method Purge(now: int)
      modifies this`last
      ensures last == Purged(old(last), window, now)
    {
      ghost var before := last;
      var keys := last.Keys;
      while keys != {}
        invariant keys <= before.Keys
        invariant last == map k | k in before && (k in keys || now - before[k].at < window) :: before[k]
        decreases keys
      {
        var k :| k in keys;
        if now - last[k].at >= window {
          last := last - {k};
        }
        keys := keys - {k};
      }
    }

    method Allow(channel: string, callers: seq<string>, now: int) returns (held: Option<Reservation>)
      modifies this
      ensures (Contents(), held) == Allowed(old(Contents()), window, Keys(channel, callers), now)
    {
      var keys := CooldownKeys(channel, callers);
      if |keys| == 0 {
        return None;
      }
      Purge(now);
      var cooling := AnyCooling(keys);
      if cooling {
        return None;
      }
      counter := counter + 1;
      Reserve(keys, Held(now, counter));
      held := Some(Reservation(keys, counter));
    }

    method AnyCooling(keys: seq<string>) returns (cooling: bool)
      ensures cooling == Cooling(last, keys)
    {
      for i := 0 to |keys|
        invariant forall j :: 0 <= j < i ==> keys[j] !in last
      {
        if keys[i] in last {
          return true;
        }
      }
      cooling := false;
    }

    method Reserve(keys: seq<string>, held: Held)
      modifies this`last
      ensures last == Reserved(old(last), keys, held)
    {
      ghost var before := last;
      for i := 0 to |keys|
        invariant last == Reserved(before, keys[..i], held)
      {
        ReservedOneMore(before, keys, i, held);
        last := last[keys[i] := held];
      }
      assert keys[..|keys|] == keys;
    }

    method Release(held: Reservation)
      modifies this`last
      ensures last == Freed(old(last), held)
    {
      ghost var before := last;
      for i := 0 to |held.keys|
        invariant last == Freed(before, held.(keys := held.keys[..i]))
      {
        var key := held.keys[i];
        assert held.keys[..i + 1] == held.keys[..i] + [key];
        if key in last && last[key].token == held.token {
          last := last - {key};
        }
      }
      assert held.keys[..|held.keys|] == held.keys;
    }
  }

  // ---- Runs ----

  // What was granted, when, and how many grants there were when it was released, if it was.
  datatype Grant = Grant(keys: seq<string>, at: int, released: Option<nat>)

  // The book, the grants so far in order, and the latest time any request read.
  datatype State = State(book: Book, grants: seq<Grant>, clock: int)

  // A release is made with a reservation that was handed out, at any time and any number of times.
  datatype Event = Ask(keys: seq<string>, now: int) | Free(token: nat)

  predicate Enabled(s: State, e: Event) {
    match e
    case Ask(_, now) => now >= s.clock
    case Free(token) => 1 <= token <= |s.grants|
  }

  function AskStep(s: State, window: int, keys: seq<string>, now: int): State {
    var answer := Allowed(s.book, window, keys, now);
    State(answer.0, if answer.1.Some? then s.grants + [Grant(keys, now, None)] else s.grants, now)
  }

  function FreeStep(s: State, token: nat): State
    requires 1 <= token <= |s.grants|
  {
    var g := s.grants[token - 1];
    var released := if g.released.Some? then g.released else Some(|s.grants|);
    State(s.book.(last := Freed(s.book.last, Reservation(g.keys, token))), s.grants[token - 1 := g.(released := released)], s.clock)
  }

  function Step(s: State, window: int, e: Event): State
    requires Enabled(s, e)
  {
    match e
    case Ask(keys, now) => AskStep(s, window, keys, now)
    case Free(token) => FreeStep(s, token)
  }

  ghost predicate IsRun(s: State, window: int, events: seq<Event>)
    decreases |events|
  {
    events == [] || (Enabled(s, events[0]) && IsRun(Step(s, window, events[0]), window, events[1..]))
  }

  ghost function After(s: State, window: int, events: seq<Event>): State
    requires IsRun(s, window, events)
    decreases |events|
  {
    if events == [] then s else After(Step(s, window, events[0]), window, events[1..])
  }

  function Start(clock: int): State {
    State(Book(map[], 0), [], clock)
  }

  // ---- What every step keeps ----

  // A grant still blocks its keys at a time.
  predicate Blocks(g: Grant, window: int, now: int) {
    g.released.None? && now - g.at < window
  }

  // The entry of a key is that of a grant which was not released.
  ghost predicate EntryIsGrant(s: State, key: string)
    requires key in s.book.last
  {
    var held := s.book.last[key];
    && 1 <= held.token <= |s.grants|
    && var g := s.grants[held.token - 1];
       key in g.keys && g.at == held.at && g.released.None?
  }

  // A grant that still blocks has its entries.
  ghost predicate GrantHasEntry(s: State, window: int, i: nat, key: string)
    requires i < |s.grants|
  {
    Blocks(s.grants[i], window, s.clock) && key in s.grants[i].keys ==> key in s.book.last && s.book.last[key] == Held(s.grants[i].at, i + 1)
  }

  predicate Share(g: Grant, h: Grant) {
    exists i, j :: 0 <= i < |g.keys| && 0 <= j < |h.keys| && g.keys[i] == h.keys[j]
  }

  ghost predicate Apart(s: State, window: int, i: nat, j: nat)
    requires i < j < |s.grants|
  {
    var g, h := s.grants[i], s.grants[j];
    Share(g, h) ==> h.at - g.at >= window || (g.released.Some? && g.released.value <= j)
  }

  // A release was noted when no more grants existed than now.
  ghost predicate ReleasedInTime(s: State, i: nat)
    requires i < |s.grants|
  {
    s.grants[i].released.Some? ==> s.grants[i].released.value <= |s.grants|
  }

  ghost predicate Sound(s: State, window: int) {
    && s.book.counter == |s.grants|
    && (forall i: nat :: i < |s.grants| ==> ReleasedInTime(s, i))
    && (forall key :: key in s.book.last ==> EntryIsGrant(s, key))
    && (forall i: nat, key :: i < |s.grants| ==> GrantHasEntry(s, window, i, key))
    && (forall i: nat, j: nat :: i < j < |s.grants| ==> Apart(s, window, i, j))
  }

  ghost predicate Blocked(s: State, window: int, keys: seq<string>, now: int) {
    exists i: nat, k: nat :: i < |s.grants| && k < |keys| && Blocks(s.grants[i], window, now) && keys[k] in s.grants[i].keys
  }

  // The reference: a request is answered exactly when it has a key and no grant that was not released
  // shares one with it from less than a window ago. Nothing here knows of purging or tokens.
  lemma AnswerIsReference(s: State, window: int, keys: seq<string>, now: int)
    requires Sound(s, window) && now >= s.clock
    ensures Allowed(s.book, window, keys, now).1.Some? <==> keys != [] && !Blocked(s, window, keys, now)
  {
    var last := Purged(s.book.last, window, now);
    if Cooling(last, keys) {
      var k :| 0 <= k < |keys| && keys[k] in last;
      assert EntryIsGrant(s, keys[k]);
      var i := s.book.last[keys[k]].token - 1;
      assert Blocks(s.grants[i], window, now) && keys[k] in s.grants[i].keys;
    }
    if Blocked(s, window, keys, now) {
      var i: nat, k: nat :| i < |s.grants| && k < |keys| && Blocks(s.grants[i], window, now) && keys[k] in s.grants[i].keys;
      assert GrantHasEntry(s, window, i, keys[k]);
      assert keys[k] in last;
    }
  }

  lemma KeepsReleases(s: State, s': State)
    requires s.grants <= s'.grants
    requires forall i: nat :: i < |s.grants| ==> ReleasedInTime(s, i)
    requires forall i: nat :: |s.grants| <= i < |s'.grants| ==> s'.grants[i].released.None?
    ensures forall i: nat :: i < |s'.grants| ==> ReleasedInTime(s', i)
  {
    forall i: nat | i < |s'.grants|
      ensures ReleasedInTime(s', i)
    {
      assert i < |s.grants| ==> ReleasedInTime(s, i);
    }
  }

  lemma RefusedKeeps(s: State, window: int, keys: seq<string>, now: int)
    requires Sound(s, window) && now >= s.clock && Allowed(s.book, window, keys, now).1.None?
    ensures Sound(AskStep(s, window, keys, now), window)
  {
    var s' := AskStep(s, window, keys, now);
    KeepsReleases(s, s');
    forall key | key in s'.book.last
      ensures EntryIsGrant(s', key)
    {
      assert EntryIsGrant(s, key);
    }
    forall i: nat, key | i < |s'.grants|
      ensures GrantHasEntry(s', window, i, key)
    {
      assert GrantHasEntry(s, window, i, key);
    }
    forall i: nat, j: nat | i < j < |s'.grants|
      ensures Apart(s', window, i, j)
    {
      assert Apart(s, window, i, j);
    }
  }

  lemma GrantedEntries(s: State, window: int, keys: seq<string>, now: int)
    requires Sound(s, window) && now >= s.clock && Allowed(s.book, window, keys, now).1.Some?
    ensures var s' := AskStep(s, window, keys, now);
      && (forall key :: key in s'.book.last ==> EntryIsGrant(s', key))
      && (forall i: nat, key :: i < |s'.grants| ==> GrantHasEntry(s', window, i, key))
  {
    var s' := AskStep(s, window, keys, now);
    AnswerIsReference(s, window, keys, now);
    forall key | key in s'.book.last
      ensures EntryIsGrant(s', key)
    {
      if key !in keys {
        assert EntryIsGrant(s, key);
      }
    }
    forall i: nat, key | i < |s'.grants|
      ensures GrantHasEntry(s', window, i, key)
    {
      if i < |s.grants| {
        assert GrantHasEntry(s, window, i, key);
        if key in keys && key in s.grants[i].keys {
          var k :| 0 <= k < |keys| && keys[k] == key;
          assert !Blocks(s.grants[i], window, now);
        }
      }
    }
  }

  lemma GrantedKeeps(s: State, window: int, keys: seq<string>, now: int)
    requires Sound(s, window) && now >= s.clock && Allowed(s.book, window, keys, now).1.Some?
    ensures Sound(AskStep(s, window, keys, now), window)
  {
    var s' := AskStep(s, window, keys, now);
    GrantedEntries(s, window, keys, now);
    AnswerIsReference(s, window, keys, now);
    KeepsReleases(s, s');
    forall i: nat, j: nat | i < j < |s'.grants|
      ensures Apart(s', window, i, j)
    {
      if j < |s.grants| {
        assert Apart(s, window, i, j);
      } else if Share(s'.grants[i], s'.grants[j]) {
        var m, k :| 0 <= m < |s.grants[i].keys| && 0 <= k < |keys| && s.grants[i].keys[m] == keys[k];
        assert !Blocks(s.grants[i], window, now);
        if s.grants[i].released.Some? {
          assert ReleasedInTime(s, i);
        }
      }
    }
  }

  lemma FreeKeeps(s: State, window: int, token: nat)
    requires Sound(s, window) && 1 <= token <= |s.grants|
    ensures Sound(FreeStep(s, token), window)
  {
    var s' := FreeStep(s, token);
    forall i: nat | i < |s'.grants|
      ensures ReleasedInTime(s', i)
    {
      assert ReleasedInTime(s, i);
    }
    forall key | key in s'.book.last
      ensures EntryIsGrant(s', key)
    {
      assert EntryIsGrant(s, key);
    }
    forall i: nat, key | i < |s'.grants|
      ensures GrantHasEntry(s', window, i, key)
    {
      assert GrantHasEntry(s, window, i, key);
    }
    forall i: nat, j: nat | i < j < |s'.grants|
      ensures Apart(s', window, i, j)
    {
      assert Apart(s, window, i, j);
      assert Share(s'.grants[i], s'.grants[j]) ==> Share(s.grants[i], s.grants[j]);
    }
  }

  lemma StepKeeps(s: State, window: int, e: Event)
    requires Sound(s, window) && Enabled(s, e)
    ensures Sound(Step(s, window, e), window)
  {
    match e
    case Ask(keys, now) =>
      if Allowed(s.book, window, keys, now).1.Some? {
        GrantedKeeps(s, window, keys, now);
      } else {
        RefusedKeeps(s, window, keys, now);
      }
    case Free(token) => FreeKeeps(s, window, token);
  }

  lemma {:induction false} RunKeeps(s: State, window: int, events: seq<Event>)
    requires Sound(s, window) && IsRun(s, window, events)
    ensures Sound(After(s, window, events), window)
    decreases |events|
  {
    if events != [] {
      StepKeeps(s, window, events[0]);
      RunKeeps(Step(s, window, events[0]), window, events[1..]);
    }
  }

  // ---- Main results ----

  // While the clock does not go back, two grants that share a key are at least a window apart, unless
  // the earlier one was released before the later one was made.
  lemma GrantsKeepApart(clock: int, window: int, events: seq<Event>, i: nat, j: nat)
    requires IsRun(Start(clock), window, events)
    requires i < j < |After(Start(clock), window, events).grants|
    ensures var s := After(Start(clock), window, events); var g, h := s.grants[i], s.grants[j];
      Share(g, h) ==> h.at - g.at >= window || (g.released.Some? && g.released.value <= j)
  {
    RunKeeps(Start(clock), window, events);
    assert Apart(After(Start(clock), window, events), window, i, j);
  }

  // In every reachable state the answer is that of the reference.
  lemma AnswersAreReference(clock: int, window: int, events: seq<Event>, keys: seq<string>, now: int)
    requires IsRun(Start(clock), window, events) && now >= After(Start(clock), window, events).clock
    ensures var s := After(Start(clock), window, events);
      Allowed(s.book, window, keys, now).1.Some? <==> keys != [] && !Blocked(s, window, keys, now)
  {
    RunKeeps(Start(clock), window, events);
    AnswerIsReference(After(Start(clock), window, events), window, keys, now);
  }

  // A release takes away the entries of its own grant alone: whatever a newer one holds stays.
  lemma ReleaseSparesOthers(clock: int, window: int, events: seq<Event>, token: nat, key: string)
    requires IsRun(Start(clock), window, events)
    requires var s := After(Start(clock), window, events); 1 <= token <= |s.grants| && key in s.book.last
    ensures var s := After(Start(clock), window, events); var s' := FreeStep(s, token);
      && (key in s'.book.last <==> s.book.last[key].token != token)
      && (key in s'.book.last ==> s'.book.last[key] == s.book.last[key])
  {
    RunKeeps(Start(clock), window, events);
    var s := After(Start(clock), window, events);
    assert EntryIsGrant(s, key);
  }

  // With a clock that goes back the law fails: a request in between has purged an entry by a later time.
  lemma ClockMustNotGoBack()
    ensures var b1 := Allowed(Book(map[], 0), 5, ["a"], 10).0;
      var b2 := Allowed(b1, 5, ["b"], 20).0;
      Allowed(b1, 5, ["a"], 12).1.None? && Allowed(b2, 5, ["a"], 12).1.Some?
  {
    var b1 := Allowed(Book(map[], 0), 5, ["a"], 10).0;
    assert ["a"][0] in b1.last;
    var b2 := Allowed(b1, 5, ["b"], 20).0;
    assert ["a"][0] in Purged(b1.last, 5, 12);
    assert "a"[0] != "b"[0];
  }

  // ---- Calls ----

  // A call of a caller under the identities known of it, on a channel.
  datatype Call = Call(channel: string, callers: seq<string>, now: int) | GiveBack(token: nat)

  function EventOf(c: Call): Event {
    match c
    case Call(channel, callers, now) => Ask(Keys(channel, callers), now)
    case GiveBack(token) => Free(token)
  }

  ghost predicate AreCalls(s: State, window: int, calls: seq<Call>)
    decreases |calls|
  {
    calls == [] || (Enabled(s, EventOf(calls[0])) && AreCalls(Step(s, window, EventOf(calls[0])), window, calls[1..]))
  }

  ghost function AfterCalls(s: State, window: int, calls: seq<Call>): State
    requires AreCalls(s, window, calls)
    decreases |calls|
  {
    if calls == [] then s else AfterCalls(Step(s, window, EventOf(calls[0])), window, calls[1..])
  }

  // The calls that were answered, in order: those after which there is one grant more.
  ghost function Answered(s: State, window: int, calls: seq<Call>, before: seq<Call>): seq<Call>
    requires AreCalls(s, window, calls)
    decreases |calls|
  {
    if calls == [] then before
    else
      var s' := Step(s, window, EventOf(calls[0]));
      Answered(s', window, calls[1..], if |s'.grants| > |s.grants| then before + [calls[0]] else before)
  }

  // Each grant is that of its call.
  ghost predicate GrantsAreCalls(s: State, answered: seq<Call>) {
    && |s.grants| == |answered|
    && forall i :: 0 <= i < |answered| ==>
         answered[i].Call? && s.grants[i].keys == Keys(answered[i].channel, answered[i].callers) && s.grants[i].at == answered[i].now
  }

  lemma {:induction false} CallsAreSound(s: State, window: int, calls: seq<Call>, before: seq<Call>)
    requires AreCalls(s, window, calls) && Sound(s, window) && GrantsAreCalls(s, before)
    ensures Sound(AfterCalls(s, window, calls), window)
    ensures GrantsAreCalls(AfterCalls(s, window, calls), Answered(s, window, calls, before))
    decreases |calls|
  {
    if calls != [] {
      var s' := Step(s, window, EventOf(calls[0]));
      StepKeeps(s, window, EventOf(calls[0]));
      CallsAreSound(s', window, calls[1..], if |s'.grants| > |s.grants| then before + [calls[0]] else before);
    }
  }

  // An answered call still stands against a call of the same caller.
  ghost predicate Recent(s: State, window: int, answered: seq<Call>, i: nat, channel: string, caller: string, now: int)
    requires |answered| == |s.grants|
  {
    && i < |answered| && answered[i].Call? && answered[i].channel == channel && caller in answered[i].callers
    && s.grants[i].released.None? && now - answered[i].now < window
  }

  ghost predicate AnyRecent(s: State, window: int, answered: seq<Call>, channel: string, callers: seq<string>, now: int)
    requires |answered| == |s.grants|
  {
    exists i: nat, caller :: caller in callers && caller != "" && Recent(s, window, answered, i, channel, caller, now)
  }

  lemma HasKey(channel: string, callers: seq<string>)
    ensures Keys(channel, callers) != [] <==> exists caller :: caller in callers && caller != ""
  {
    if Keys(channel, callers) != [] {
      KeysAreTheCallers(channel, callers, Keys(channel, callers)[0]);
    }
    if caller :| caller in callers && caller != "" {
      KeysAreTheCallers(channel, callers, channel + "|" + caller);
    }
  }

  // A grant counts as released exactly when its reservation was given back in the run.
  lemma {:induction false} ReleasedExactly(s: State, window: int, calls: seq<Call>, i: nat)
    requires AreCalls(s, window, calls)
    ensures var s' := AfterCalls(s, window, calls);
      && |s.grants| <= |s'.grants|
      && (i < |s'.grants| ==>
            (s'.grants[i].released.Some? <==> (i < |s.grants| && s.grants[i].released.Some?) || GiveBack(i + 1) in calls))
    decreases |calls|
  {
    if calls != [] {
      ReleasedExactly(Step(s, window, EventOf(calls[0])), window, calls[1..], i);
      assert calls == [calls[0]] + calls[1..];
    }
  }

  // No answered call was on a channel with a bar in its id.
  ghost predicate Plain(answered: seq<Call>) {
    forall i :: 0 <= i < |answered| && answered[i].Call? ==> '|' !in answered[i].channel
  }

  lemma BlockedIsRecent(s: State, window: int, answered: seq<Call>, channel: string, callers: seq<string>, now: int)
    requires GrantsAreCalls(s, answered) && '|' !in channel && Plain(answered) && Blocked(s, window, Keys(channel, callers), now)
    ensures AnyRecent(s, window, answered, channel, callers, now)
  {
    var keys := Keys(channel, callers);
    var i: nat, k: nat :| i < |s.grants| && k < |keys| && Blocks(s.grants[i], window, now) && keys[k] in s.grants[i].keys;
    SharedKey(channel, callers, answered[i].channel, answered[i].callers, keys[k]);
    var caller :| caller in callers && caller in answered[i].callers && caller != "" && keys[k] == KeyOf(channel, caller);
    assert Recent(s, window, answered, i, channel, caller, now);
  }

  lemma RecentIsBlocked(s: State, window: int, answered: seq<Call>, channel: string, callers: seq<string>, now: int)
    requires GrantsAreCalls(s, answered) && AnyRecent(s, window, answered, channel, callers, now)
    ensures Blocked(s, window, Keys(channel, callers), now)
  {
    var keys := Keys(channel, callers);
    var i: nat, caller :| caller in callers && caller != "" && Recent(s, window, answered, i, channel, caller, now);
    KeysAreTheCallers(channel, callers, KeyOf(channel, caller));
    KeysAreTheCallers(channel, answered[i].callers, KeyOf(channel, caller));
    var k :| 0 <= k < |keys| && keys[k] == KeyOf(channel, caller);
    assert Blocks(s.grants[i], window, now) && keys[k] in s.grants[i].keys;
  }

  // In every run of calls, on channels without a bar in their ids: a call is answered exactly when one of
  // the caller's identities is known and under none of them a call on this channel was answered within the
  // last window, other than one whose reservation was given back.
  lemma AnsweredExactly(clock: int, window: int, calls: seq<Call>, channel: string, callers: seq<string>, now: int)
    requires AreCalls(Start(clock), window, calls) && now >= AfterCalls(Start(clock), window, calls).clock
    requires '|' !in channel && Plain(Answered(Start(clock), window, calls, []))
    ensures var s, answered := AfterCalls(Start(clock), window, calls), Answered(Start(clock), window, calls, []);
      && |answered| == |s.grants|
      && (Allowed(s.book, window, Keys(channel, callers), now).1.Some? <==>
            (exists caller :: caller in callers && caller != "") && !AnyRecent(s, window, answered, channel, callers, now))
      && (forall i: nat :: i < |answered| ==> (s.grants[i].released.Some? <==> GiveBack(i + 1) in calls))
  {
    forall i: nat | i < |AfterCalls(Start(clock), window, calls).grants|
      ensures AfterCalls(Start(clock), window, calls).grants[i].released.Some? <==> GiveBack(i + 1) in calls
    {
      ReleasedExactly(Start(clock), window, calls, i);
    }
    CallsAreSound(Start(clock), window, calls, []);
    var s, answered := AfterCalls(Start(clock), window, calls), Answered(Start(clock), window, calls, []);
    AnswerIsReference(s, window, Keys(channel, callers), now);
    HasKey(channel, callers);
    if Blocked(s, window, Keys(channel, callers), now) {
      BlockedIsRecent(s, window, answered, channel, callers, now);
    }
    if AnyRecent(s, window, answered, channel, callers, now) {
      RecentIsBlocked(s, window, answered, channel, callers, now);
    }
  }

  // A key of two calls is that of one caller on one channel.
  lemma SharedKey(channel: string, callers: seq<string>, channel': string, callers': seq<string>, key: string)
    requires '|' !in channel && '|' !in channel' && key in Keys(channel, callers) && key in Keys(channel', callers')
    ensures channel == channel'
    ensures exists caller :: caller in callers && caller in callers' && caller != "" && key == KeyOf(channel, caller)
  {
    KeysAreTheCallers(channel, callers, key);
    KeysAreTheCallers(channel', callers', key);
    var caller :| caller in callers && caller != "" && key == channel + "|" + caller;
    var caller' :| caller' in callers' && caller' != "" && key == channel' + "|" + caller';
    KeysTellApart(channel, caller, channel', caller');
    assert caller in callers';
  }
}
