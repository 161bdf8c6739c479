// The loop that writes to the registry until it gets an answer or has tried often enough
// (internal/history/importer.go), as it counts a batch. Run on the registry itself, with nobody else at
// the row, it is the counting steps of the protocol one after the other.
module ImportWrites {
  import opened Database
  import opened ImportProtocol
  import opened ImportRegistry
  import opened Options

  predicate IsCounting(s: State) {
    s.run.On? && s.run.pc.Counting?
  }

  // The counting steps of one batch, for as long as it is being counted.
  function Drive(s: State, replies: seq<Reply>): State
    decreases |replies|
  {
    if replies == [] || !IsCounting(s) then s
    else Drive(CountStep(s, s.run.pc.attempt, s.run.pc.applied, s.run.l, replies[0]), replies[1..])
  }

  function NextWith(l: Local, total: nat, drift: int): Run {
    Next(l.(n := l.n + 1, total := total, drift := drift))
  }

  // The run goes on after this batch with the given total.
  ghost predicate GoesOnWith(s: State, l: Local, total: nat) {
    exists drift :: s.run == NextWith(l, total, drift)
  }

  method CountBatch(registry: Registry, channel: string, now: int, id: ImportId, published: nat, replies: seq<Reply>, ghost s: State)
      returns (total: Option<nat>)
    requires |replies| >= STORE_ATTEMPTS
    requires s.run.On? && s.run.pc == Counting(1, 0) && s.run.l.active.importId == id && s.run.l.total == published
    requires s.row == registry.At(channel) && s.now == now
    modifies registry
    ensures registry.At(channel) == Drive(s, replies).row && registry.OnlyChanged(channel)
    ensures total.None? ==> Drive(s, replies).run == Idle
    ensures total.Some? ==> GoesOnWith(Drive(s, replies), s.run.l, total.value)
  {
    var attempt := 1;
    ghost var s' := s;
    assert replies[0..] == replies;
    while true
      invariant 1 <= attempt <= STORE_ATTEMPTS
      invariant IsCounting(s') && s'.run.pc.attempt == attempt && s'.run.l == s.run.l && s'.now == now
      invariant Drive(s', replies[attempt - 1..]) == Drive(s, replies)
      invariant registry.At(channel) == s'.row && registry.OnlyChanged(channel)
      decreases STORE_ATTEMPTS - attempt
    {
      var reply := replies[attempt - 1];
      var counted := registry.CountHistoryBatch(channel, id, now, reply);
      ghost var s1 := CountStep(s', attempt, s'.run.pc.applied, s'.run.l, reply);
      if counted != Unknown || attempt == STORE_ATTEMPTS {
        LeavesCounting(s', reply, counted, attempt);
        return match counted case Answer(value) => Some(value) case NoImport => None case Unknown => Some(published + 1);
      }
      s' := s1;
      attempt := attempt + 1;
    }
  }

  // With an answer, or after the last attempt, the batch is no longer being counted.
  lemma LeavesCounting(s: State, reply: Reply, counted: Found<nat>, attempt: nat)
    requires IsCounting(s) && s.run.pc.attempt == attempt
    requires counted == if !reply.Stored? then Unknown
                        else if Accepts(s.row, s.run.l.active.importId, s.now) then Answer(s.row.value.batches + 1)
                        else NoImport
    requires counted != Unknown || attempt == STORE_ATTEMPTS
    ensures var s1 := CountStep(s, attempt, s.run.pc.applied, s.run.l, reply);
      && !IsCounting(s1)
      && (forall more :: Drive(s1, more) == s1)
      && (if counted.NoImport? then s1.run == Idle
          else GoesOnWith(s1, s.run.l, if counted.Answer? then counted.value else s.run.l.total + 1))
  {
    var l := s.run.l;
    var s1 := CountStep(s, attempt, s.run.pc.applied, l, reply);
    if counted.Answer? {
      var t := TallyOf(s, l.active.importId);
      var drift := t.extra + s.run.pc.applied - t.missed - t.refused;
      assert s1.run == NextWith(l, counted.value, drift);
    } else if counted.Unknown? {
      assert s1.run == NextWith(l, l.total + 1, l.drift);
    }
  }
}
