// What holds of the pairing sessions of a channel over every interleaving.
module PairingGuarantees {
  import opened Options
  import opened PairingMachine

  // ---- The refcounted lock ----

  // The lock object a request counts as a holder of.
  function LockRef(pc: Pc): Option<LockId> {
    match pc
    case Waiting(l) => Some(l)
    case Looking(l) => Some(l)
    case Found(l, _) => Some(l)
    case Unlinking(l, _) => Some(l)
    case Renewing(l) => Some(l)
    case Leaving(l, _) => Some(l)
    case Left(l, _) => Some(l)
    case _ => None
  }

  ghost function Holders(s: State): set<Tid> {
    set t | t in s.threads && LockRef(s.threads[t].pc).Some?
  }

  ghost predicate SameLock(s: State, t: Tid)
    requires t in s.threads
  {
    LockRef(s.threads[t].pc).Some? ==> s.entry == LockRef(s.threads[t].pc)
  }

  ghost predicate Inside(s: State, t: Tid) {
    t in s.threads && InSection(s.threads[t].pc)
  }

  ghost predicate LockSound(s: State) {
    && (forall t :: t in s.threads ==> SameLock(s, t))
    && (s.entry.Some? ==>
          var l := s.entry.value;
          && l in s.locks && s.locks[l].holders == |Holders(s)| && Holders(s) != {}
          && (forall t: Tid :: s.locks[l].held == Some(t) <==> Inside(s, t)))
  }

  // A step that leaves the lock alone.
  lemma LockAlone(s: State, s': State, t: Tid)
    requires LockSound(s) && t in s.threads
    requires s'.entry == s.entry && s'.locks == s.locks
    requires t in s'.threads && s'.threads == s.threads[t := s'.threads[t]]
    requires LockRef(s'.threads[t].pc) == LockRef(s.threads[t].pc)
    requires InSection(s'.threads[t].pc) == InSection(s.threads[t].pc)
    ensures LockSound(s')
  {
    assert Holders(s') == Holders(s);
    forall u: Tid
      ensures Inside(s', u) <==> Inside(s, u)
    {
    }
    forall u | u in s'.threads
      ensures SameLock(s', u)
    {
      assert SameLock(s, u);
    }
  }

  lemma FirstHolderKeeps(s: State, t: Tid, input: Input)
    requires LockSound(s) && t in s.threads && s.threads[t].pc.Start? && Ready(s, t, input) && s.entry.None?
    ensures LockSound(Lock1(s, t, input))
  {
    var s' := Lock1(s, t, input);
    forall u | u in s.threads
      ensures LockRef(s.threads[u].pc).None?
    {
      assert SameLock(s, u);
    }
    assert Holders(s') == {t};
    forall u: Tid
      ensures !Inside(s', u)
    {
      assert Inside(s', u) ==> LockRef(s'.threads[u].pc).Some?;
    }
  }

  lemma NextHolderKeeps(s: State, t: Tid, input: Input)
    requires LockSound(s) && t in s.threads && s.threads[t].pc.Start? && s.entry.Some?
    ensures LockSound(Lock1(s, t, input))
  {
    var s' := Lock1(s, t, input);
    assert t !in Holders(s);
    assert Holders(s') == Holders(s) + {t};
    forall u: Tid
      ensures Inside(s', u) <==> Inside(s, u)
    {
    }
    forall u | u in s'.threads
      ensures SameLock(s', u)
    {
      assert SameLock(s, u);
    }
  }

  lemma Lock1Keeps(s: State, t: Tid, input: Input)
    requires LockSound(s) && t in s.threads && s.threads[t].pc.Start? && Ready(s, t, input)
    ensures LockSound(Lock1(s, t, input))
  {
    if s.entry.None? {
      FirstHolderKeeps(s, t, input);
    } else {
      NextHolderKeeps(s, t, input);
    }
  }

  lemma Lock2Keeps(s: State, t: Tid, l: LockId)
    requires LockSound(s) && t in s.threads && s.threads[t].pc == Waiting(l) && l in s.locks && s.locks[l].held.None?
    ensures LockSound(Lock2(s, t, l))
  {
    var s' := Lock2(s, t, l);
    assert SameLock(s, t);
    assert Holders(s') == Holders(s);
    forall u: Tid
      ensures s'.locks[l].held == Some(u) <==> Inside(s', u)
    {
      assert !Inside(s, u);
    }
    forall u | u in s'.threads
      ensures SameLock(s', u)
    {
      assert SameLock(s, u);
    }
  }

  lemma Unlock1Keeps(s: State, t: Tid, l: LockId, then_: Then)
    requires LockSound(s) && t in s.threads && s.threads[t].pc == Leaving(l, then_) && l in s.locks
    ensures LockSound(Unlock1(s, t, l, then_))
  {
    var s' := Unlock1(s, t, l, then_);
    assert SameLock(s, t);
    assert Holders(s') == Holders(s);
    assert Inside(s, t);
    forall u: Tid
      ensures !Inside(s', u)
    {
      if u != t && Inside(s', u) {
        assert Inside(s, u);
      }
    }
    forall u | u in s'.threads
      ensures SameLock(s', u)
    {
      assert SameLock(s, u);
    }
  }

  lemma Unlock2Keeps(s: State, t: Tid, l: LockId, then_: Then)
    requires LockSound(s) && t in s.threads && s.threads[t].pc == Left(l, then_) && l in s.locks && s.locks[l].holders > 0
    ensures LockSound(Unlock2(s, t, l, then_))
  {
    var s' := Unlock2(s, t, l, then_);
    assert SameLock(s, t);
    assert t in Holders(s);
    assert Holders(s') == Holders(s) - {t};
    forall u | u in s'.threads
      ensures SameLock(s', u)
    {
      assert SameLock(s, u);
      if u != t && LockRef(s'.threads[u].pc).Some? {
        assert u in Holders(s') && |Holders(s')| == |Holders(s)| - 1;
      }
    }
    forall u: Tid
      ensures Inside(s', u) <==> Inside(s, u)
    {
    }
    if s.locks[l].holders > 1 {
      assert |Holders(s')| > 0;
    }
  }

  // The steps that count, take or give up the lock.
  predicate AtLock(pc: Pc) {
    pc.Start? || pc.Waiting? || pc.Leaving? || pc.Left?
  }

  // A step of this request that neither counts, takes nor gives up the lock.
  ghost predicate LockAside(s: State, s': State, t: Tid)
    requires t in s.threads
  {
    && s'.entry == s.entry && s'.locks == s.locks && t in s'.threads && s'.threads == s.threads[t := s'.threads[t]]
    && LockRef(s'.threads[t].pc) == LockRef(s.threads[t].pc) && InSection(s'.threads[t].pc) == InSection(s.threads[t].pc)
  }

  // A step of a request that owns no pairing and does not begin one leaves the pairings alone.
  ghost predicate AloneStep(s: State, s': State, t: Tid)
    requires t in s.threads
  {
    && s'.current == s.current && s'.pairings == s.pairings && s.linked.Keys <= s'.linked.Keys
    && (s'.session == s.session || s'.session.None? || (s'.session.value in s'.linked && s'.session.value !in s.linked))
    && t in s'.threads && s'.threads == s.threads[t := s'.threads[t]] && s'.threads[t].kind == s.threads[t].kind
    && Owned(s'.threads[t].pc).None?
    && (ForPairsOnly(s'.threads[t].pc) ==> s.threads[t].kind.Pairs?)
    && (ClientOf(s'.threads[t].pc).Some? ==> ClientOf(s'.threads[t].pc).value in s'.linked)
  }

  // A step inside the locked section concerns neither the lock nor the pairings.
  ghost predicate Inner(s: State, s': State, t: Tid)
    requires t in s.threads
  {
    LockAside(s, s', t) && (KnowsClients(s, t) ==> AloneStep(s, s', t))
  }

  predicate KnowsClients(s: State, t: Tid)
    requires t in s.threads
  {
    && (ForPairsOnly(s.threads[t].pc) ==> s.threads[t].kind.Pairs?)
    && (ClientOf(s.threads[t].pc).Some? ==> ClientOf(s.threads[t].pc).value in s.linked)
    && (s.session.Some? ==> s.session.value in s.linked)
  }

  lemma FindClientIsInner(s: State, t: Tid, l: LockId, input: Input)
    requires t in s.threads && s.threads[t].pc == Looking(l) && Ready(s, t, input)
    ensures Inner(s, FindClient(s, t, l, input), t)
  {
  }

  lemma LookAtDeviceIsInner(s: State, t: Tid, l: LockId, c: ClientId, input: Input)
    requires t in s.threads && s.threads[t].pc == Found(l, c)
    ensures Inner(s, LookAtDevice(s, t, l, c, input), t)
  {
  }

  lemma UnlinkIsInner(s: State, t: Tid, l: LockId, c: ClientId, input: Input)
    requires t in s.threads && s.threads[t].pc == Unlinking(l, c)
    ensures Inner(s, Unlink(s, t, l, c, input), t)
  {
  }

  lemma RenewIsInner(s: State, t: Tid, l: LockId, input: Input)
    requires t in s.threads && s.threads[t].pc == Renewing(l) && Ready(s, t, input)
    ensures Inner(s, Renew(s, t, l, input), t)
  {
  }

  lemma SectionStepIsInner(s: State, t: Tid, input: Input)
    requires t in s.threads && InSection(s.threads[t].pc) && !s.threads[t].pc.Leaving? && Ready(s, t, input)
    ensures Inner(s, SectionStep(s, t, input), t)
  {
    match s.threads[t].pc
    case Looking(l) => FindClientIsInner(s, t, l, input);
    case Found(l, c) => LookAtDeviceIsInner(s, t, l, c, input);
    case Unlinking(l, c) => UnlinkIsInner(s, t, l, c, input);
    case Renewing(l) => RenewIsInner(s, t, l, input);
    case _ =>
  }

  lemma OpenStepAside(s: State, t: Tid, input: Input)
    requires t in s.threads && IsOpen(s.threads[t].pc) && WellKnown(s, s.threads[t].pc)
    ensures LockAside(s, OpenStep(s, t, input), t)
  {
  }

  lemma EndStepAside(s: State, t: Tid)
    requires t in s.threads && Owned(s.threads[t].pc).Some? && !IsOpen(s.threads[t].pc) && WellKnown(s, s.threads[t].pc)
    ensures LockAside(s, EndStep(s, t), t)
  {
  }

  lemma AdvanceAwayFromLock(s: State, t: Tid, input: Input)
    requires t in s.threads && Ready(s, t, input) && Grounded(s, t) && !AtLock(s.threads[t].pc)
    ensures LockAside(s, Advance(s, t, input), t)
  {
    var pc := s.threads[t].pc;
    if InSection(pc) {
      SectionStepIsInner(s, t, input);
    } else if IsOpen(pc) {
      OpenStepAside(s, t, input);
    } else if Owned(pc).Some? {
      EndStepAside(s, t);
    }
  }

  lemma AdvanceKeepsLock(s: State, t: Tid, input: Input)
    requires LockSound(s) && t in s.threads && Ready(s, t, input) && Grounded(s, t)
    ensures LockSound(Advance(s, t, input))
  {
    match s.threads[t].pc
    case Start => Lock1Keeps(s, t, input);
    case Waiting(l) => Lock2Keeps(s, t, l);
    case Leaving(l, then_) => Unlock1Keeps(s, t, l, then_);
    case Left(l, then_) => Unlock2Keeps(s, t, l, then_);
    case _ =>
      AdvanceAwayFromLock(s, t, input);
      LockAlone(s, Advance(s, t, input), t);
  }

  lemma LockStep(s: State, e: Event)
    requires LockSound(s) && Enabled(s, e)
    ensures LockSound(Step(s, e))
  {
    match e
    case Turn(t, input) => AdvanceKeepsLock(s, t, input);
    case Arrive(t, kind) => ArriveKeepsLock(s, t, kind);
    case _ =>
  }

  lemma ArriveKeepsLock(s: State, t: Tid, kind: Kind)
    requires LockSound(s) && t !in s.threads
    ensures LockSound(Step(s, Arrive(t, kind)))
  {
    var s' := Step(s, Arrive(t, kind));
    assert Holders(s') == Holders(s);
    forall u: Tid
      ensures Inside(s', u) <==> Inside(s, u)
    {
    }
    forall u | u in s'.threads
      ensures SameLock(s', u)
    {
      assert u in s.threads ==> SameLock(s, u);
    }
  }

  // ---- Pairings ----

  // The pairing a request began and has not closed yet.
  function Owned(pc: Pc): Option<PairingId> {
    match pc
    case Opening(p) => Some(p)
    case Slotting(p) => Some(p)
    case Connecting(p) => Some(p)
    case Looping(p) => Some(p)
    case Ending(p) => Some(p)
    case Checking(p) => Some(p)
    case Dropping(p) => Some(p)
    case Releasing(p) => Some(p)
    case Closing(p) => Some(p)
    case _ => None
  }

  // The client a request found and has yet to use.
  function ClientOf(pc: Pc): Option<ClientId> {
    match pc
    case Found(_, c) => Some(c)
    case Leaving(_, ToBegin(c)) => Some(c)
    case Left(_, ToBegin(c)) => Some(c)
    case Beginning(c) => Some(c)
    case _ => None
  }

  predicate ForPairsOnly(pc: Pc) {
    match pc
    case Leaving(_, then_) => then_.ToBegin?
    case Left(_, then_) => then_.ToBegin?
    case Renewing(_) => true
    case Beginning(_) => true
    case _ => Owned(pc).Some?
  }

  // The client of an ended pairing is not the channel's session any more, unless it was linked when the
  // pairing ended.
  predicate Gone(s: State, p: PairingId)
    requires p in s.pairings
  {
    s.session == Some(s.pairings[p].client) ==> s.pairings[p].leftLinked
  }

  ghost predicate ThreadSound(s: State, t: Tid)
    requires t in s.threads
  {
    var pc := s.threads[t].pc;
    && (ForPairsOnly(pc) ==> s.threads[t].kind.Pairs?)
    && (ClientOf(pc).Some? ==> ClientOf(pc).value in s.linked)
    && (Owned(pc).Some? ==>
          var p := Owned(pc).value;
          && p in s.pairings && s.pairings[p].owner == t && !s.pairings[p].done
          && (IsOpen(pc) ==> s.current == Some(p))
          && (pc.Releasing? || pc.Closing? ==> Gone(s, p))
          && (pc.Closing? ==> !s.pairings[p].slot))
  }

  ghost predicate PairingSound(s: State, p: PairingId)
    requires p in s.pairings
  {
    var q := s.pairings[p];
    && q.client in s.linked
    && (q.done ==> Gone(s, p) && !q.slot)
    && (s.current == Some(p) ==> q.owner in s.threads && Owned(s.threads[q.owner].pc) == Some(p) && IsOpen(s.threads[q.owner].pc))
  }

  ghost predicate PairSound(s: State) {
    && (forall t :: t in s.threads ==> ThreadSound(s, t))
    && (forall p :: p in s.pairings ==> PairingSound(s, p))
    && (s.current.Some? ==> s.current.value in s.pairings)
    && (s.session.Some? ==> s.session.value in s.linked)
  }

  // A step of the owner of a pairing that changes that pairing alone.
  lemma OwnerMoves(s: State, s': State, t: Tid, p: PairingId)
    requires PairSound(s) && t in s.threads && Owned(s.threads[t].pc) == Some(p)
    requires p in s.pairings && p in s'.pairings && s'.pairings == s.pairings[p := s'.pairings[p]]
    requires s'.pairings[p].owner == t && s'.pairings[p].client == s.pairings[p].client
    requires s'.linked == s.linked && (s'.session == s.session || s'.session.None?)
    requires t in s'.threads && s'.threads == s.threads[t := s'.threads[t]] && s'.threads[t].kind == s.threads[t].kind
    requires Owned(s'.threads[t].pc) == Some(p) || (Owned(s'.threads[t].pc).None? && s'.threads[t].pc.Returned?)
    requires s'.current == s.current || (s.current == Some(p) && s'.current.None?)
    requires ThreadSound(s', t) && PairingSound(s', p)
    ensures PairSound(s')
  {
    assert ThreadSound(s, t);
    forall u | u in s'.threads
      ensures ThreadSound(s', u)
    {
      assert ThreadSound(s, u);
    }
    forall q | q in s'.pairings
      ensures PairingSound(s', q)
    {
      assert PairingSound(s, q);
    }
  }

  lemma SupersedeKeeps(s: State, t: Tid, c: ClientId, live: PairingId)
    requires PairSound(s) && t in s.threads && s.threads[t].pc == Beginning(c) && s.current == Some(live)
    requires live in s.pairings
    ensures PairSound(Goto(Halted(s, live), t, Superseding(live)))
  {
    var s' := Goto(Halted(s, live), t, Superseding(live));
    forall u | u in s'.threads
      ensures ThreadSound(s', u)
    {
      assert ThreadSound(s, u);
    }
    forall p | p in s'.pairings
      ensures PairingSound(s', p)
    {
      assert PairingSound(s, p);
    }
  }

  lemma NewPairingKeeps(s: State, t: Tid, c: ClientId, input: Input)
    requires PairSound(s) && t in s.threads && s.threads[t].pc == Beginning(c) && s.threads[t].kind.Pairs?
    requires s.current.None? && input.Fresh? && input.id !in s.pairings
    ensures PairSound(Begin(s, t, c, input))
  {
    var s' := Begin(s, t, c, input);
    assert ThreadSound(s, t);
    forall u | u in s'.threads
      ensures ThreadSound(s', u)
    {
      assert ThreadSound(s, u);
    }
    forall p | p in s'.pairings
      ensures PairingSound(s', p)
    {
      if p in s.pairings {
        assert PairingSound(s, p);
      }
    }
  }

  lemma AloneKeeps(s: State, s': State, t: Tid)
    requires PairSound(s) && t in s.threads && Owned(s.threads[t].pc).None? && AloneStep(s, s', t)
    ensures PairSound(s')
  {
    forall u | u in s'.threads
      ensures ThreadSound(s', u)
    {
      assert ThreadSound(s, u);
    }
    forall p | p in s'.pairings
      ensures PairingSound(s', p)
    {
      assert PairingSound(s, p);
    }
  }

  lemma BeginKeeps(s: State, t: Tid, c: ClientId, input: Input)
    requires PairSound(s) && t in s.threads && s.threads[t].pc == Beginning(c) && s.threads[t].kind.Pairs?
    requires Ready(s, t, input)
    ensures PairSound(Begin(s, t, c, input))
  {
    if s.current.None? {
      NewPairingKeeps(s, t, c, input);
    } else if SameChoice(s.pairings[s.current.value], s.threads[t].kind.importHistory, s.threads[t].kind.phone) {
      AloneKeeps(s, Begin(s, t, c, input), t);
    } else {
      SupersedeKeeps(s, t, c, s.current.value);
    }
  }

  // What the step of an owner does to its own pairing and to nothing else.
  ghost predicate OwnStep(s: State, s': State, t: Tid, p: PairingId)
    requires t in s.threads && p in s.pairings
  {
    && p in s'.pairings && s'.pairings == s.pairings[p := s'.pairings[p]]
    && s'.pairings[p].owner == s.pairings[p].owner && s'.pairings[p].client == s.pairings[p].client
    && s'.linked == s.linked && (s'.session == s.session || s'.session.None?)
    && t in s'.threads && s'.threads == s.threads[t := s'.threads[t]] && s'.threads[t].kind == s.threads[t].kind
    && (Owned(s'.threads[t].pc) == Some(p) || (Owned(s'.threads[t].pc).None? && s'.threads[t].pc.Returned?))
    && (s'.current == s.current || (s.current == Some(p) && s'.current.None? && s.threads[t].pc == Ending(p)))
  }

  lemma OpenStepIsOwn(s: State, t: Tid, input: Input, p: PairingId)
    requires t in s.threads && IsOpen(s.threads[t].pc) && Owned(s.threads[t].pc) == Some(p) && WellKnown(s, s.threads[t].pc)
    requires p in s.pairings && ThreadSound(s, t) && PairingSound(s, p)
    ensures var s' := OpenStep(s, t, input);
      OwnStep(s, s', t, p) && ThreadSound(s', t) && PairingSound(s', p)
  {
  }

  lemma CheckIsOwn(s: State, t: Tid, p: PairingId, s': State)
    requires t in s.threads && s.threads[t].pc == Checking(p) && p in s.pairings && s' == CheckDevice(s, t, p)
    requires ThreadSound(s, t) && PairingSound(s, p)
    ensures OwnStep(s, s', t, p) && ThreadSound(s', t) && PairingSound(s', p)
  {
  }

  lemma DropIsOwn(s: State, t: Tid, p: PairingId, s': State)
    requires t in s.threads && s.threads[t].pc == Dropping(p) && p in s.pairings
    requires s' == Goto(Dropped(s, s.pairings[p].client), t, Releasing(p)) && ThreadSound(s, t) && PairingSound(s, p)
    ensures OwnStep(s, s', t, p) && ThreadSound(s', t) && PairingSound(s', p)
  {
  }

  lemma EndStepIsOwn(s: State, t: Tid, p: PairingId, s': State)
    requires t in s.threads && !IsOpen(s.threads[t].pc) && Owned(s.threads[t].pc) == Some(p) && WellKnown(s, s.threads[t].pc)
    requires p in s.pairings && ThreadSound(s, t) && PairingSound(s, p) && s' == EndStep(s, t)
    ensures OwnStep(s, s', t, p) && ThreadSound(s', t) && PairingSound(s', p)
  {
    match s.threads[t].pc
    case Checking(_) => CheckIsOwn(s, t, p, s');
    case Dropping(_) => DropIsOwn(s, t, p, s');
    case Releasing(_) => assert s' == SetSlot(s, t, p, false, Closing(p));
    case Closing(_) => assert s' == Close(s, t, p);
  }

  lemma OwnerStep(s: State, t: Tid, input: Input)
    requires PairSound(s) && t in s.threads && Owned(s.threads[t].pc).Some?
    requires Ready(s, t, input) && Grounded(s, t)
    ensures PairSound(Advance(s, t, input))
  {
    var p := Owned(s.threads[t].pc).value;
    assert ThreadSound(s, t) && PairingSound(s, p);
    if IsOpen(s.threads[t].pc) {
      OpenStepIsOwn(s, t, input, p);
    } else {
      EndStepIsOwn(s, t, p, EndStep(s, t));
    }
    OwnerMoves(s, Advance(s, t, input), t, p);
  }

  lemma LockingIsAlone(s: State, t: Tid, input: Input, s': State)
    requires t in s.threads && (s.threads[t].pc.Start? || s.threads[t].pc.Waiting?)
    requires Ready(s, t, input) && Grounded(s, t) && s' == Advance(s, t, input)
    ensures AloneStep(s, s', t)
  {
    match s.threads[t].pc
    case Start => assert s' == Lock1(s, t, input);
    case Waiting(l) => assert s' == Lock2(s, t, l);
  }

  lemma Unlock1IsAlone(s: State, t: Tid, l: LockId, then_: Then, s': State)
    requires t in s.threads && s.threads[t].pc == Leaving(l, then_) && l in s.locks && KnowsClients(s, t)
    requires s' == Unlock1(s, t, l, then_)
    ensures AloneStep(s, s', t)
  {
  }

  lemma Unlock2IsAlone(s: State, t: Tid, l: LockId, then_: Then, s': State)
    requires t in s.threads && s.threads[t].pc == Left(l, then_) && l in s.locks && s.locks[l].holders > 0 && KnowsClients(s, t)
    requires s' == Unlock2(s, t, l, then_)
    ensures AloneStep(s, s', t)
  {
  }

  lemma SupersedingIsAlone(s: State, t: Tid, p: PairingId, pc: Pc, s': State)
    requires t in s.threads && s.threads[t].pc == Superseding(p) && (pc == Start || pc == Returned) && s' == Goto(s, t, pc)
    ensures AloneStep(s, s', t)
  {
  }

  lemma SectionIsAlone(s: State, t: Tid, input: Input, s': State)
    requires t in s.threads && InSection(s.threads[t].pc) && !s.threads[t].pc.Leaving? && Ready(s, t, input) && KnowsClients(s, t)
    requires s' == SectionStep(s, t, input)
    ensures AloneStep(s, s', t)
  {
    SectionStepIsInner(s, t, input);
  }

  lemma AloneStepOnly(s: State, t: Tid, input: Input, s': State)
    requires t in s.threads && Owned(s.threads[t].pc).None? && !s.threads[t].pc.Beginning?
    requires Ready(s, t, input) && Grounded(s, t) && KnowsClients(s, t) && s' == Advance(s, t, input)
    ensures AloneStep(s, s', t)
  {
    match s.threads[t].pc
    case Start => LockingIsAlone(s, t, input, s');
    case Waiting(_) => LockingIsAlone(s, t, input, s');
    case Leaving(l, then_) => Unlock1IsAlone(s, t, l, then_, s');
    case Left(l, then_) => Unlock2IsAlone(s, t, l, then_, s');
    case Superseding(p) => SupersedingIsAlone(s, t, p, s'.threads[t].pc, s');
    case _ => SectionIsAlone(s, t, input, s');
  }

  lemma AdvanceKeepsPairings(s: State, t: Tid, input: Input)
    requires PairSound(s) && t in s.threads && Ready(s, t, input) && Grounded(s, t)
    ensures PairSound(Advance(s, t, input))
  {
    assert ThreadSound(s, t);
    if Owned(s.threads[t].pc).Some? {
      OwnerStep(s, t, input);
    } else if s.threads[t].pc.Beginning? {
      BeginKeeps(s, t, s.threads[t].pc.client, input);
    } else {
      AloneStepOnly(s, t, input, Advance(s, t, input));
      AloneKeeps(s, Advance(s, t, input), t);
    }
  }

  lemma PairStep(s: State, e: Event)
    requires PairSound(s) && Enabled(s, e)
    ensures PairSound(Step(s, e))
  {
    match e
    case Turn(t, input) => AdvanceKeepsPairings(s, t, input);
    case Arrive(t, kind) =>
    case _ =>
  }

  // ---- Main results ----

  lemma {:induction false} RunKeeps(s: State, events: seq<Event>)
    requires LockSound(s) && PairSound(s) && IsRun(s, events)
    ensures LockSound(After(s, events)) && PairSound(After(s, events))
    decreases |events|
  {
    if events != [] {
      LockStep(s, events[0]);
      PairStep(s, events[0]);
      RunKeeps(Step(s, events[0]), events[1..]);
    }
  }

  lemma Reachable(events: seq<Event>)
    requires IsRun(EMPTY, events)
    ensures LockSound(After(EMPTY, events)) && PairSound(After(EMPTY, events))
  {
    assert Holders(EMPTY) == {};
    RunKeeps(EMPTY, events);
  }

  // Two pairing or removal sections of a channel never overlap, although the lock object is made anew
  // each time its entry went away.
  lemma SectionsNeverOverlap(events: seq<Event>, t: Tid, u: Tid)
    requires IsRun(EMPTY, events)
    requires Inside(After(EMPTY, events), t) && Inside(After(EMPTY, events), u)
    ensures t == u
  {
    Reachable(events);
    assert SameLock(After(EMPTY, events), t);
  }

  // The lock's entry exists exactly while some request holds it or waits for it, and it counts them.
  lemma EntryWhileHeld(events: seq<Event>)
    requires IsRun(EMPTY, events)
    ensures var s := After(EMPTY, events);
      && (s.entry.Some? <==> Holders(s) != {})
      && (s.entry.Some? ==> s.entry.value in s.locks && s.locks[s.entry.value].holders == |Holders(s)|)
      && (forall t :: t in Holders(s) ==> LockRef(s.threads[t].pc) == s.entry)
  {
    Reachable(events);
    var s := After(EMPTY, events);
    forall t | t in Holders(s)
      ensures LockRef(s.threads[t].pc) == s.entry
    {
      assert SameLock(s, t);
    }
  }

  // A channel has one running QR loop at most, and it belongs to the registered pairing. A registered
  // pairing always has its one owner, which has still to end it.
  lemma OneLoop(events: seq<Event>)
    requires IsRun(EMPTY, events)
    ensures var s := After(EMPTY, events);
      && (forall t, u :: t in s.threads && u in s.threads && s.threads[t].pc.Looping? && s.threads[u].pc.Looping? ==> t == u)
      && (forall t :: t in s.threads && s.threads[t].pc.Looping? ==> s.current == Some(s.threads[t].pc.pairing))
      && (s.current.Some? ==>
            && s.current.value in s.pairings
            && var owner := s.pairings[s.current.value].owner;
               owner in s.threads && Owned(s.threads[owner].pc) == s.current && IsOpen(s.threads[owner].pc))
  {
    Reachable(events);
    var s := After(EMPTY, events);
    forall t, u | t in s.threads && u in s.threads && s.threads[t].pc.Looping? && s.threads[u].pc.Looping?
      ensures t == u
    {
      assert ThreadSound(s, t) && ThreadSound(s, u);
    }
    forall t | t in s.threads && s.threads[t].pc.Looping?
      ensures s.current == Some(s.threads[t].pc.pairing)
    {
      assert ThreadSound(s, t);
    }
    if s.current.Some? {
      assert PairingSound(s, s.current.value);
    }
  }

  // Only the request that began a pairing unregisters it, as the first thing of its end; nothing
  // registers another one in its place before.
  lemma OnlyOwnerUnregisters(events: seq<Event>, e: Event)
    requires IsRun(EMPTY, events) && Enabled(After(EMPTY, events), e)
    ensures var s := After(EMPTY, events); var s' := Step(s, e);
      s.current.Some? && s'.current != s.current ==>
        && s'.current.None? && s.current.value in s.pairings
        && e.Turn? && e.t == s.pairings[s.current.value].owner && s.threads[e.t].pc == Ending(s.current.value)
  {
    Reachable(events);
    var s := After(EMPTY, events);
    if e.Turn? {
      UnregistersOwn(s, e.t, e.input);
    }
  }

  lemma UnregistersOwn(s: State, t: Tid, input: Input)
    requires PairSound(s) && t in s.threads && Ready(s, t, input) && Grounded(s, t)
    ensures var s' := Advance(s, t, input);
      s.current.Some? && s'.current != s.current ==>
        && s'.current.None? && s.threads[t].pc == Ending(s.current.value)
        && s.current.value in s.pairings && s.pairings[s.current.value].owner == t
  {
    assert ThreadSound(s, t);
    var pc := s.threads[t].pc;
    if Owned(pc).Some? {
      var p := Owned(pc).value;
      assert PairingSound(s, p);
      if IsOpen(pc) {
        OpenStepIsOwn(s, t, input, p);
      } else {
        EndStepIsOwn(s, t, p, EndStep(s, t));
      }
    } else if !pc.Beginning? {
      AloneStepOnly(s, t, input, Advance(s, t, input));
    }
  }

  // Once the end of a pairing was announced it is unregistered, its slot is given back, and its client
  // is no longer the session of the channel unless it was linked by then.
  lemma SupersededIsGone(events: seq<Event>, p: PairingId)
    requires IsRun(EMPTY, events)
    requires var s := After(EMPTY, events); p in s.pairings && s.pairings[p].done
    ensures var s := After(EMPTY, events);
      s.current != Some(p) && !s.pairings[p].slot && Gone(s, p)
  {
    Reachable(events);
    var s := After(EMPTY, events);
    assert PairingSound(s, p);
    assert s.pairings[p].owner in s.threads ==> ThreadSound(s, s.pairings[p].owner);
  }

  // A request that waits for another pairing to end and goes on finds it gone.
  lemma SupersederFindsItGone(events: seq<Event>, e: Event, t: Tid)
    requires IsRun(EMPTY, events) && Enabled(After(EMPTY, events), e)
    requires var s := After(EMPTY, events);
      t in s.threads && s.threads[t].pc.Superseding? && t in Step(s, e).threads && Step(s, e).threads[t].pc.Start?
    ensures var s := After(EMPTY, events); var s', p := Step(s, e), s.threads[t].pc.pairing;
      p in s'.pairings && s'.current != Some(p) && !s'.pairings[p].slot && Gone(s', p)
  {
    var s := After(EMPTY, events);
    var p := s.threads[t].pc.pairing;
    OnlyItsTurnMoves(s, e, t);
    SupersededIsGone(events, p);
  }

  // A request is where it was after the step of another one.
  lemma OthersStay(s: State, u: Tid, input: Input, t: Tid)
    requires u in s.threads && Ready(s, u, input) && Grounded(s, u) && t in s.threads && t != u
    ensures var s' := Advance(s, u, input);
      t in s'.threads && s'.threads[t] == s.threads[t]
  {
    match s.threads[u].pc
    case Start => assert Advance(s, u, input) == Lock1(s, u, input);
    case Waiting(l) => assert Advance(s, u, input) == Lock2(s, u, l);
    case Leaving(l, then_) => assert Advance(s, u, input) == Unlock1(s, u, l, then_);
    case Left(l, then_) => assert Advance(s, u, input) == Unlock2(s, u, l, then_);
    case _ => AdvanceAwayFromLock(s, u, input);
  }

  lemma OnlyItsTurnMoves(s: State, e: Event, t: Tid)
    requires Enabled(s, e) && t in s.threads && s.threads[t].pc.Superseding?
    requires t in Step(s, e).threads && Step(s, e).threads[t].pc.Start?
    ensures var p := s.threads[t].pc.pairing;
      p in s.pairings && s.pairings[p].done && Step(s, e) == Goto(s, t, Start)
  {
    if e.Turn? && e.t != t {
      OthersStay(s, e.t, e.input, t);
    }
  }

  // Whatever was assumed of a request's next step to define it holds in every reachable state.
  lemma StepsAreDefined(events: seq<Event>, t: Tid)
    requires IsRun(EMPTY, events) && t in After(EMPTY, events).threads
    ensures Grounded(After(EMPTY, events), t)
  {
    Reachable(events);
    SoundIsGrounded(After(EMPTY, events), t);
  }

  lemma SoundIsGrounded(s: State, t: Tid)
    requires LockSound(s) && PairSound(s) && t in s.threads
    ensures Grounded(s, t)
  {
    assert SameLock(s, t) && ThreadSound(s, t);
    if LockRef(s.threads[t].pc).Some? {
      assert t in Holders(s);
    }
  }

  // How many steps of its own a request still needs to end its pairing.
  function ToGo(pc: Pc): nat {
    match pc
    case Ending(_) => 5
    case Checking(_) => 4
    case Dropping(_) => 3
    case Releasing(_) => 2
    case Closing(_) => 1
    case _ => 6
  }

  ghost predicate OnlyTurnsOf(events: seq<Event>, t: Tid) {
    forall i :: 0 <= i < |events| ==> events[i].Turn? && events[i].t == t
  }

  // The step that its owner takes brings the end of the pairing nearer, or announces it.
  ghost predicate Nearer(s: State, s': State, t: Tid, p: PairingId)
    requires t in s.threads
  {
    && t in s'.threads && p in s'.pairings
    && (if s.threads[t].pc.Closing? then s'.pairings[p].done
        else Owned(s'.threads[t].pc) == Some(p) && ToGo(s'.threads[t].pc) < ToGo(s.threads[t].pc))
  }

  lemma OpenStepNearer(s: State, t: Tid, p: PairingId)
    requires t in s.threads && IsOpen(s.threads[t].pc) && Owned(s.threads[t].pc) == Some(p) && WellKnown(s, s.threads[t].pc)
    requires p in s.pairings
    ensures Nearer(s, OpenStep(s, t, Fail), t, p)
  {
    var pc := s.threads[t].pc;
    if pc.Ending? {
      assert OpenStep(s, t, Fail) == Unregister(s, t, p);
    } else {
      assert OpenStep(s, t, Fail) == Goto(s, t, Ending(p));
    }
  }

  lemma EndStepNearer(s: State, t: Tid, p: PairingId)
    requires t in s.threads && !IsOpen(s.threads[t].pc) && Owned(s.threads[t].pc) == Some(p) && WellKnown(s, s.threads[t].pc)
    requires p in s.pairings
    ensures Nearer(s, EndStep(s, t), t, p)
  {
  }

  lemma OneStepNearer(s: State, t: Tid, p: PairingId)
    requires t in s.threads && Owned(s.threads[t].pc) == Some(p) && Ready(s, t, Fail) && Grounded(s, t) && p in s.pairings
    ensures Nearer(s, Advance(s, t, Fail), t, p)
  {
    if IsOpen(s.threads[t].pc) {
      OpenStepNearer(s, t, p);
    } else {
      EndStepNearer(s, t, p);
    }
  }

  // Nobody waits in vain for a pairing to end: from any reachable state its owner alone, whatever all
  // other requests hold, can end it in six steps.
  lemma {:induction false} OwnerCanEnd(s: State, t: Tid, p: PairingId) returns (events: seq<Event>)
    requires LockSound(s) && PairSound(s) && t in s.threads && Owned(s.threads[t].pc) == Some(p)
    ensures IsRun(s, events) && OnlyTurnsOf(events, t) && |events| <= ToGo(s.threads[t].pc)
    ensures var s' := After(s, events);
      p in s'.pairings && s'.pairings[p].done
    decreases ToGo(s.threads[t].pc)
  {
    assert ThreadSound(s, t);
    SoundIsGrounded(s, t);
    var e := Turn(t, Fail);
    var s1 := Step(s, e);
    OneStepNearer(s, t, p);
    var rest := [];
    if !s.threads[t].pc.Closing? {
      LockStep(s, e);
      PairStep(s, e);
      rest := OwnerCanEnd(s1, t, p);
    }
    events := [e] + rest;
    assert events[1..] == rest;
  }

  lemma WaitingEnds(events: seq<Event>, p: PairingId) returns (more: seq<Event>)
    requires IsRun(EMPTY, events)
    requires var s := After(EMPTY, events); s.current == Some(p)
    ensures var s := After(EMPTY, events);
      && p in s.pairings && OnlyTurnsOf(more, s.pairings[p].owner) && |more| <= 6
      && IsRun(s, more) && p in After(s, more).pairings && After(s, more).pairings[p].done
  {
    Reachable(events);
    var s := After(EMPTY, events);
    assert PairingSound(s, p);
    more := OwnerCanEnd(s, s.pairings[p].owner, p);
  }
}
