// What a pair request may do to a session it finds, and whom it joins, over every interleaving.
module PairingChoices {
  import opened Options
  import opened PairingMachine
  import opened PairingGuarantees

  // The request asks for the device to be linked anew, with its history.
  predicate Relinks(kind: Kind) {
    kind.Pairs? && kind.importHistory && kind.relink
  }

  predicate IsLinked(s: State, c: ClientId) {
    c in s.linked && s.linked[c]
  }

  // Read off the turns of a request since it took the lock: the client it found, whether that was linked
  // then, and whether the request logged it out.
  datatype Visit = NotYet | Saw(client: ClientId, wasLinked: bool, loggedOut: bool)

  function NoteTurn(s: State, t: Tid, input: Input, v: Visit): Visit
    requires t in s.threads
  {
    match s.threads[t].pc
    case Waiting(_) => NotYet
    case Found(_, c) => Saw(c, IsLinked(s, c), false)
    case Unlinking(_, _) => if v.Saw? && !input.Fail? then v.(loggedOut := true) else v
    case _ => v
  }

  function Note(s: State, e: Event, t: Tid, v: Visit): Visit
    requires Enabled(s, e)
  {
    if e.Turn? && e.t == t then NoteTurn(s, t, e.input, v) else v
  }

  ghost function Recall(s: State, events: seq<Event>, t: Tid, v: Visit): Visit
    requires IsRun(s, events)
    decreases |events|
  {
    if events == [] then v else Recall(Step(s, events[0]), events[1..], t, Note(s, events[0], t, v))
  }

  // How a pair request leaves its section: with a client to pair, which was not linked or comes after the
  // logout it asked for; or done, which never happens to a client that it found not linked.
  predicate Leaves(v: Visit, kind: Kind, then_: Then) {
    match then_
    case ToBegin(c) => v.Saw? && if v.wasLinked then v.loggedOut && Relinks(kind) else c == v.client
    case ToReturn => v.NotYet? || v.wasLinked
  }

  ghost predicate VisitKnown(kind: Kind, pc: Pc, v: Visit) {
    kind.Pairs? ==>
      match pc
      case Looking(_) => v.NotYet?
      case Found(_, _) => v.NotYet?
      case Unlinking(_, c) => v == Saw(c, true, false) && Relinks(kind)
      case Renewing(_) => v.Saw? && v.wasLinked && v.loggedOut && Relinks(kind)
      case Leaving(_, then_) => Leaves(v, kind, then_)
      case Left(_, then_) => Leaves(v, kind, then_)
      case Beginning(c) => Leaves(v, kind, ToBegin(c))
      case _ => true
  }

  ghost predicate RequestKnown(s: State, t: Tid, v: Visit) {
    t in s.threads ==> VisitKnown(s.threads[t].kind, s.threads[t].pc, v)
  }

  // The request has nothing to do with a client it found.
  predicate Aside(pc: Pc) {
    Owned(pc).Some? || pc.Returned? || pc.Start? || pc.Superseding?
  }

  lemma OpenStepIsAside(s: State, t: Tid, input: Input, s': State)
    requires t in s.threads && IsOpen(s.threads[t].pc) && WellKnown(s, s.threads[t].pc) && s' == OpenStep(s, t, input)
    ensures t in s'.threads && Aside(s'.threads[t].pc)
  {
  }

  lemma EndStepIsAside(s: State, t: Tid, s': State)
    requires t in s.threads && Owned(s.threads[t].pc).Some? && !IsOpen(s.threads[t].pc) && WellKnown(s, s.threads[t].pc)
    requires s' == EndStep(s, t)
    ensures t in s'.threads && Aside(s'.threads[t].pc)
  {
  }

  lemma BeginIsAside(s: State, t: Tid, c: ClientId, input: Input, s': State)
    requires t in s.threads && s.threads[t].kind.Pairs? && (s.current.Some? ==> s.current.value in s.pairings)
    requires (s.current.None? ==> input.Fresh?) && s' == Begin(s, t, c, input)
    ensures t in s'.threads && Aside(s'.threads[t].pc)
  {
  }

  lemma AsideKnown(s: State, t: Tid, v: Visit)
    requires t in s.threads ==> Aside(s.threads[t].pc)
    ensures RequestKnown(s, t, v)
  {
  }

  lemma FindKnown(s: State, t: Tid, l: LockId, input: Input, s': State, v: Visit)
    requires t in s.threads && s.threads[t].pc == Looking(l) && s' == FindClient(s, t, l, input) && RequestKnown(s, t, v)
    ensures RequestKnown(s', t, v)
  {
  }

  lemma LookKnown(s: State, t: Tid, l: LockId, c: ClientId, input: Input, s': State, v: Visit)
    requires t in s.threads && s.threads[t].pc == Found(l, c) && s' == LookAtDevice(s, t, l, c, input)
    ensures RequestKnown(s', t, Saw(c, IsLinked(s, c), false))
  {
  }

  lemma UnlinkKnown(s: State, t: Tid, l: LockId, c: ClientId, input: Input, s': State, v: Visit)
    requires t in s.threads && s.threads[t].pc == Unlinking(l, c) && s' == Unlink(s, t, l, c, input) && RequestKnown(s, t, v)
    ensures RequestKnown(s', t, NoteTurn(s, t, input, v))
  {
  }

  lemma RenewKnown(s: State, t: Tid, l: LockId, input: Input, s': State, v: Visit)
    requires t in s.threads && s.threads[t].pc == Renewing(l) && s' == Renew(s, t, l, input) && RequestKnown(s, t, v)
    ensures RequestKnown(s', t, v)
  {
  }

  lemma OwnSectionTurnKnown(s: State, t: Tid, input: Input, s': State, v: Visit)
    requires t in s.threads && Ready(s, t, input) && InSection(s.threads[t].pc) && !s.threads[t].pc.Leaving?
    requires s' == SectionStep(s, t, input) && RequestKnown(s, t, v)
    ensures RequestKnown(s', t, NoteTurn(s, t, input, v))
  {
    match s.threads[t].pc
    case Looking(l) => FindKnown(s, t, l, input, s', v);
    case Found(l, c) => LookKnown(s, t, l, c, input, s', v);
    case Unlinking(l, c) => UnlinkKnown(s, t, l, c, input, s', v);
    case Renewing(l) => RenewKnown(s, t, l, input, s', v);
  }

  lemma LockTurnKnown(s: State, t: Tid, input: Input, s': State, v: Visit)
    requires t in s.threads && AtLock(s.threads[t].pc) && Ready(s, t, input) && Grounded(s, t)
    requires s' == Advance(s, t, input) && RequestKnown(s, t, v)
    ensures RequestKnown(s', t, NoteTurn(s, t, input, v))
  {
    match s.threads[t].pc
    case Start => assert s' == Lock1(s, t, input);
    case Waiting(l) => assert s' == Lock2(s, t, l);
    case Leaving(l, then_) => assert s' == Unlock1(s, t, l, then_);
    case Left(l, then_) => assert s' == Unlock2(s, t, l, then_);
  }

  lemma OwnTurnKnown(s: State, t: Tid, input: Input, s': State, v: Visit)
    requires t in s.threads && Ready(s, t, input) && Grounded(s, t) && s' == Advance(s, t, input) && RequestKnown(s, t, v)
    ensures RequestKnown(s', t, NoteTurn(s, t, input, v))
  {
    var pc := s.threads[t].pc;
    if AtLock(pc) {
      LockTurnKnown(s, t, input, s', v);
    } else if InSection(pc) {
      OwnSectionTurnKnown(s, t, input, s', v);
    } else {
      if IsOpen(pc) {
        OpenStepIsAside(s, t, input, s');
      } else if Owned(pc).Some? {
        EndStepIsAside(s, t, s');
      } else if pc.Beginning? {
        BeginIsAside(s, t, pc.client, input, s');
      } else {
        assert pc.Superseding?;
      }
      AsideKnown(s', t, NoteTurn(s, t, input, v));
    }
  }

  // A turn moves the request whose turn it is, and no other.
  lemma OnlyItsThread(s: State, t: Tid, input: Input, s': State)
    requires t in s.threads && Ready(s, t, input) && Grounded(s, t) && s' == Advance(s, t, input)
    ensures t in s'.threads && s'.threads == s.threads[t := s'.threads[t]]
  {
    match s.threads[t].pc
    case Start => assert s' == Lock1(s, t, input);
    case Waiting(l) => assert s' == Lock2(s, t, l);
    case Leaving(l, then_) => assert s' == Unlock1(s, t, l, then_);
    case Left(l, then_) => assert s' == Unlock2(s, t, l, then_);
    case _ => AdvanceAwayFromLock(s, t, input);
  }

  lemma StepKnown(s: State, e: Event, s': State, t: Tid, v: Visit)
    requires Enabled(s, e) && s' == Step(s, e) && RequestKnown(s, t, v)
    ensures RequestKnown(s', t, Note(s, e, t, v))
  {
    match e
    case Turn(u, input) =>
      if u == t {
        OwnTurnKnown(s, t, input, s', v);
      } else {
        OnlyItsThread(s, u, input, s');
      }
    case _ =>
  }

  lemma {:induction false} RunKnown(s: State, events: seq<Event>, t: Tid, v: Visit)
    requires IsRun(s, events) && RequestKnown(s, t, v)
    ensures RequestKnown(After(s, events), t, Recall(s, events, t, v))
    decreases |events|
  {
    if events != [] {
      StepKnown(s, events[0], Step(s, events[0]), t, v);
      RunKnown(Step(s, events[0]), events[1..], t, Note(s, events[0], t, v));
    }
  }

  // ---- The session ----

  // What one turn inside the section of a pair request does to the session and the clients.
  ghost predicate SessionMoves(s: State, s': State, kind: Kind, v: Visit) {
    && s'.current == s.current && s'.pairings == s.pairings
    && (forall c :: c in s.linked ==> c in s'.linked && s'.linked[c] == s.linked[c])
    && (s'.session != s.session ==>
          if s.session.Some? then
            // Taken away: the device that was found linked, because the request asked for that.
            s'.session.None? && v == Saw(s.session.value, true, false) && Relinks(kind)
          else
            // A new client: there was none, or the request logged it out as it asked.
            s'.session.Some? && s'.session.value !in s.linked && !IsLinked(s', s'.session.value)
            && (v.NotYet? || (v.wasLinked && v.loggedOut && Relinks(kind))))
  }

  lemma FindMoves(s: State, t: Tid, l: LockId, input: Input, s': State, v: Visit)
    requires t in s.threads && s.threads[t].kind.Pairs? && s.threads[t].pc == Looking(l) && Ready(s, t, input)
    requires s' == FindClient(s, t, l, input) && v.NotYet?
    ensures SessionMoves(s, s', s.threads[t].kind, v)
  {
  }

  lemma UnlinkMoves(s: State, t: Tid, l: LockId, c: ClientId, input: Input, s': State, v: Visit)
    requires t in s.threads && s.threads[t].kind.Pairs? && s.threads[t].pc == Unlinking(l, c)
    requires s' == Unlink(s, t, l, c, input) && v == Saw(c, true, false) && Relinks(s.threads[t].kind)
    ensures SessionMoves(s, s', s.threads[t].kind, v)
  {
  }

  lemma RenewMoves(s: State, t: Tid, l: LockId, input: Input, s': State, v: Visit)
    requires t in s.threads && s.threads[t].kind.Pairs? && s.threads[t].pc == Renewing(l) && Ready(s, t, input)
    requires s' == Renew(s, t, l, input) && v.Saw? && v.wasLinked && v.loggedOut && Relinks(s.threads[t].kind)
    ensures SessionMoves(s, s', s.threads[t].kind, v)
  {
  }

  lemma SectionMoves(s: State, t: Tid, input: Input, s': State, v: Visit)
    requires t in s.threads && s.threads[t].kind.Pairs? && InSection(s.threads[t].pc) && Ready(s, t, input)
    requires s' == (if s.threads[t].pc.Leaving? then s else SectionStep(s, t, input)) && RequestKnown(s, t, v)
    ensures SessionMoves(s, s', s.threads[t].kind, v)
  {
    match s.threads[t].pc
    case Looking(l) => FindMoves(s, t, l, input, s', v);
    case Found(l, c) => assert s' == LookAtDevice(s, t, l, c, input);
    case Unlinking(l, c) => UnlinkMoves(s, t, l, c, input, s', v);
    case Renewing(l) => RenewMoves(s, t, l, input, s', v);
    case _ =>
  }

  // In every run: a turn of a pair request inside its section takes a session away only if it is the
  // linked device the request found and asked to have linked anew, and brings in a new client only if
  // there was none or after that logout. It never touches pairings or other clients.
  lemma OnlyARelinkUnlinks(events: seq<Event>, t: Tid, input: Input)
    requires IsRun(EMPTY, events) && Enabled(After(EMPTY, events), Turn(t, input))
    requires var s := After(EMPTY, events); s.threads[t].kind.Pairs? && InSection(s.threads[t].pc)
    ensures var s := After(EMPTY, events);
      SessionMoves(s, Step(s, Turn(t, input)), s.threads[t].kind, Recall(EMPTY, events, t, NotYet))
  {
    RunKnown(EMPTY, events, t, NotYet);
    var s, v := After(EMPTY, events), Recall(EMPTY, events, t, NotYet);
    if s.threads[t].pc.Leaving? {
      assert Step(s, Turn(t, input)) == Unlock1(s, t, s.threads[t].pc.lock, s.threads[t].pc.then_);
      SectionMoves(s, t, input, s, v);
    } else {
      SectionMoves(s, t, input, SectionStep(s, t, input), v);
    }
  }

  // A pair request that finds a linked device and does not ask for it to be linked anew is through with
  // its section, with the sessions, clients and pairings as they were.
  lemma PairedIsLeftAlone(s: State, t: Tid, l: LockId, c: ClientId, input: Input)
    requires Enabled(s, Turn(t, input)) && s.threads[t].pc == Found(l, c) && s.threads[t].kind.Pairs?
    requires c in s.linked && s.linked[c] && !(s.threads[t].kind.importHistory && s.threads[t].kind.relink)
    ensures Step(s, Turn(t, input)) == Goto(s, t, Leaving(l, ToReturn))
  {
  }

  // One that asks for it goes on to log the device out, to drop it and to pair a new client, as long as
  // nothing fails on the way.
  lemma RelinkGoesOn(s: State, t: Tid, input: Input)
    requires Enabled(s, Turn(t, input)) && !input.Fail? && Relinks(s.threads[t].kind)
    requires s.threads[t].pc.Found? || s.threads[t].pc.Unlinking? || (s.threads[t].pc.Renewing? && (input.Fresh? || s.session.Some?))
    ensures var s' := Step(s, Turn(t, input));
      match s.threads[t].pc
      case Found(l, c) => s'.threads[t].pc == if IsLinked(s, c) then Unlinking(l, c) else Leaving(l, ToBegin(c))
      case Unlinking(l, c) => s'.threads[t].pc == Renewing(l) && s'.session != Some(c)
      case Renewing(l) => s'.session.Some? && s'.threads[t].pc == Leaving(l, ToBegin(s'.session.value))
      case _ => true
  {
    assert Step(s, Turn(t, input)) == SectionStep(s, t, input);
  }

  // A removal drops the session it found, even if the logout fails.
  lemma RemovalDropsTheSession(s: State, t: Tid, input: Input)
    requires Enabled(s, Turn(t, input)) && s.threads[t].kind.Removes? && s.threads[t].pc.Unlinking?
    ensures var s' := Step(s, Turn(t, input));
      s'.session != Some(s.threads[t].pc.client) && s'.threads[t].pc == Leaving(s.threads[t].pc.lock, ToReturn)
  {
    assert Step(s, Turn(t, input)) == SectionStep(s, t, input);
  }

  // In every run a pair request that has left its section goes on to pair exactly the client it found not
  // linked, or a new one after the logout it asked for; one that found its client not linked always does.
  lemma LeavesAsItFound(events: seq<Event>, t: Tid)
    requires IsRun(EMPTY, events)
    requires var s := After(EMPTY, events);
      t in s.threads && s.threads[t].kind.Pairs? && (s.threads[t].pc.Left? || s.threads[t].pc.Beginning?)
    ensures var s, v := After(EMPTY, events), Recall(EMPTY, events, t, NotYet);
      var begins := if s.threads[t].pc.Beginning? then Some(s.threads[t].pc.client)
                    else if s.threads[t].pc.then_.ToBegin? then Some(s.threads[t].pc.then_.client) else None;
      && (v.Saw? && !v.wasLinked ==> begins == Some(v.client))
      && (begins.Some? ==> v.Saw? && (v.wasLinked ==> v.loggedOut && Relinks(s.threads[t].kind)))
  {
    RunKnown(EMPTY, events, t, NotYet);
  }

  // ---- The choice of a pairing ----

  // A pairing is what the request that began it asked for.
  ghost predicate ChoiceKept(s: State, p: PairingId)
    requires p in s.pairings
  {
    var q := s.pairings[p];
    && q.owner in s.threads && s.threads[q.owner].kind.Pairs?
    && q.importHistory == s.threads[q.owner].kind.importHistory && q.phone == s.threads[q.owner].kind.phone
  }

  ghost predicate ChoicesKept(s: State) {
    forall p :: p in s.pairings ==> ChoiceKept(s, p)
  }

  predicate SameOrigin(q: Pairing, q': Pairing) {
    q'.owner == q.owner && q'.importHistory == q.importHistory && q'.phone == q.phone
  }

  // Pairings keep their owner and choice, and requests their kind.
  ghost predicate ChoicesStay(s: State, s': State) {
    && (forall t :: t in s.threads ==> t in s'.threads && s'.threads[t].kind == s.threads[t].kind)
    && (forall p :: p in s'.pairings ==> p in s.pairings && SameOrigin(s.pairings[p], s'.pairings[p]))
  }

  lemma StayKept(s: State, s': State)
    requires ChoicesKept(s) && ChoicesStay(s, s')
    ensures ChoicesKept(s')
  {
    forall p | p in s'.pairings
      ensures ChoiceKept(s', p)
    {
      assert ChoiceKept(s, p);
    }
  }

  lemma NewPairingKept(s: State, t: Tid, c: ClientId, id: PairingId, s': State)
    requires t in s.threads && s.threads[t].kind.Pairs? && s.current.None? && s' == Begin(s, t, c, Fresh(id)) && ChoicesKept(s)
    ensures ChoicesKept(s')
  {
    assert s'.threads[t].kind == s.threads[t].kind;
    forall p | p in s'.pairings
      ensures ChoiceKept(s', p)
    {
      assert p in s.pairings ==> ChoiceKept(s, p);
    }
  }

  lemma BeginKept(s: State, t: Tid, c: ClientId, input: Input, s': State)
    requires t in s.threads && s.threads[t].kind.Pairs? && (s.current.Some? ==> s.current.value in s.pairings)
    requires (s.current.None? ==> input.Fresh?) && s' == Begin(s, t, c, input) && ChoicesKept(s)
    ensures ChoicesKept(s')
  {
    if s.current.None? {
      NewPairingKept(s, t, c, input.id, s');
    } else {
      var live := s.current.value;
      PairingMoves(s, s', t, live, s'.pairings[live]);
      StayKept(s, s');
    }
  }

  lemma ThreadMoves(s: State, s': State, t: Tid)
    requires t in s.threads && t in s'.threads && s'.threads == s.threads[t := s'.threads[t]]
    requires s'.threads[t].kind == s.threads[t].kind && s'.pairings == s.pairings
    ensures ChoicesStay(s, s')
  {
  }

  // One pairing is changed, but not who began it and with which choice.
  lemma PairingMoves(s: State, s': State, t: Tid, p: PairingId, q: Pairing)
    requires t in s.threads && t in s'.threads && s'.threads == s.threads[t := s'.threads[t]]
    requires s'.threads[t].kind == s.threads[t].kind && p in s.pairings && s'.pairings == s.pairings[p := q]
    requires SameOrigin(s.pairings[p], q)
    ensures ChoicesStay(s, s')
  {
  }

  lemma LockStays(s: State, t: Tid, input: Input, s': State)
    requires t in s.threads && AtLock(s.threads[t].pc) && Ready(s, t, input) && Grounded(s, t) && s' == Advance(s, t, input)
    ensures ChoicesStay(s, s')
  {
    match s.threads[t].pc
    case Start => ThreadMoves(s, Lock1(s, t, input), t);
    case Waiting(l) => ThreadMoves(s, Lock2(s, t, l), t);
    case Leaving(l, then_) => ThreadMoves(s, Unlock1(s, t, l, then_), t);
    case Left(l, then_) => ThreadMoves(s, Unlock2(s, t, l, then_), t);
  }

  lemma FindStays(s: State, t: Tid, l: LockId, input: Input, s': State)
    requires t in s.threads && s' == FindClient(s, t, l, input)
    ensures ChoicesStay(s, s')
  {
    ThreadMoves(s, s', t);
  }

  lemma LookStays(s: State, t: Tid, l: LockId, c: ClientId, input: Input, s': State)
    requires t in s.threads && s' == LookAtDevice(s, t, l, c, input)
    ensures ChoicesStay(s, s')
  {
    ThreadMoves(s, s', t);
  }

  lemma UnlinkStays(s: State, t: Tid, l: LockId, c: ClientId, input: Input, s': State)
    requires t in s.threads && s' == Unlink(s, t, l, c, input)
    ensures ChoicesStay(s, s')
  {
    ThreadMoves(s, s', t);
  }

  lemma RenewStays(s: State, t: Tid, l: LockId, input: Input, s': State)
    requires t in s.threads && s' == Renew(s, t, l, input)
    ensures ChoicesStay(s, s')
  {
    ThreadMoves(s, s', t);
  }

  lemma SectionStays(s: State, t: Tid, input: Input, s': State)
    requires t in s.threads && InSection(s.threads[t].pc) && !s.threads[t].pc.Leaving? && s' == SectionStep(s, t, input)
    ensures ChoicesStay(s, s')
  {
    match s.threads[t].pc
    case Looking(l) => FindStays(s, t, l, input, s');
    case Found(l, c) => LookStays(s, t, l, c, input, s');
    case Unlinking(l, c) => UnlinkStays(s, t, l, c, input, s');
    case Renewing(l) => RenewStays(s, t, l, input, s');
  }

  lemma OpenStays(s: State, t: Tid, input: Input, s': State)
    requires t in s.threads && IsOpen(s.threads[t].pc) && WellKnown(s, s.threads[t].pc) && s' == OpenStep(s, t, input)
    ensures ChoicesStay(s, s')
  {
    if s.threads[t].pc.Slotting? && !input.Fail? {
      var p := s.threads[t].pc.pairing;
      PairingMoves(s, SetSlot(s, t, p, true, Connecting(p)), t, p, s.pairings[p].(slot := true));
    } else {
      ThreadMoves(s, s', t);
    }
  }

  lemma EndStays(s: State, t: Tid, s': State)
    requires t in s.threads && Owned(s.threads[t].pc).Some? && !IsOpen(s.threads[t].pc) && WellKnown(s, s.threads[t].pc)
    requires s' == EndStep(s, t)
    ensures ChoicesStay(s, s')
  {
    match s.threads[t].pc
    case Checking(p) => CheckStays(s, t, p, s');
    case Dropping(_) => ThreadMoves(s, s', t);
    case Releasing(p) => PairingMoves(s, s', t, p, s.pairings[p].(slot := false));
    case Closing(p) => PairingMoves(s, s', t, p, s.pairings[p].(done := true));
  }

  lemma CheckStays(s: State, t: Tid, p: PairingId, s': State)
    requires t in s.threads && p in s.pairings && s' == CheckDevice(s, t, p)
    ensures ChoicesStay(s, s')
  {
    if IsLinked(s, s.pairings[p].client) {
      PairingMoves(s, s', t, p, s.pairings[p].(leftLinked := true));
    } else {
      ThreadMoves(s, s', t);
    }
  }

  lemma TurnKept(s: State, t: Tid, input: Input, s': State)
    requires t in s.threads && Ready(s, t, input) && Grounded(s, t) && s' == Advance(s, t, input) && ChoicesKept(s)
    ensures ChoicesKept(s')
  {
    var pc := s.threads[t].pc;
    if pc.Beginning? {
      BeginKept(s, t, pc.client, input, s');
    } else {
      if AtLock(pc) {
        LockStays(s, t, input, s');
      } else if InSection(pc) {
        SectionStays(s, t, input, s');
      } else if IsOpen(pc) {
        OpenStays(s, t, input, s');
      } else if Owned(pc).Some? {
        EndStays(s, t, s');
      } else {
        ThreadMoves(s, s', t);
      }
      StayKept(s, s');
    }
  }

  lemma StepKept(s: State, e: Event, s': State)
    requires Enabled(s, e) && s' == Step(s, e) && ChoicesKept(s)
    ensures ChoicesKept(s')
  {
    if e.Turn? {
      TurnKept(s, e.t, e.input, s');
    } else {
      StayKept(s, s');
    }
  }

  lemma {:induction false} RunKept(s: State, events: seq<Event>)
    requires IsRun(s, events) && ChoicesKept(s)
    ensures ChoicesKept(After(s, events))
    decreases |events|
  {
    if events != [] {
      StepKept(s, events[0], Step(s, events[0]));
      RunKept(Step(s, events[0]), events[1..]);
    }
  }

  // In every run a request joins the live pairing exactly when the request that began it asked for the
  // same history and the same phone; otherwise it halts that pairing and waits for its end; and it begins
  // its own when there is none.
  lemma JoinsItsOwnChoiceOnly(events: seq<Event>, t: Tid, input: Input)
    requires IsRun(EMPTY, events) && Enabled(After(EMPTY, events), Turn(t, input))
    requires After(EMPTY, events).threads[t].pc.Beginning?
    ensures var s := After(EMPTY, events); var s', asked := Step(s, Turn(t, input)), s.threads[t].kind;
      match s.current
      case None => input.Fresh? && s'.current == Some(input.id) && s'.threads[t].pc == Opening(input.id)
      case Some(live) =>
        && live in s.pairings && s.pairings[live].owner in s.threads
        && var begun := s.threads[s.pairings[live].owner].kind;
           && begun.Pairs? && asked.Pairs? && s'.current == s.current
           && if begun.importHistory == asked.importHistory && begun.phone == asked.phone
              then s' == Goto(s, t, Returned)
              else s'.threads[t].pc == Superseding(live) && s'.pairings[live].halted
  {
    RunKept(EMPTY, events);
    var s := After(EMPTY, events);
    assert Step(s, Turn(t, input)) == Begin(s, t, s.threads[t].pc.client, input);
    if s.current.Some? {
      assert ChoiceKept(s, s.current.value);
    }
  }

  // A request that waits for another pairing starts over once that is done, unless its own context ends.
  lemma SupersederStartsOver(s: State, t: Tid, input: Input)
    requires Enabled(s, Turn(t, input)) && s.threads[t].pc.Superseding?
    ensures Step(s, Turn(t, input)) == Goto(s, t, if input.Fail? then Returned else Start)
    ensures !input.Fail? ==> s.threads[t].pc.pairing in s.pairings && s.pairings[s.threads[t].pc.pairing].done
  {
  }

  // ---- The slot ----

  // A pairing has the slot from when it took it to when it gives it back.
  ghost predicate SlotFits(s: State, t: Tid)
    requires t in s.threads
  {
    var pc := s.threads[t].pc;
    Owned(pc).Some? && Owned(pc).value in s.pairings ==>
      var p := s.pairings[Owned(pc).value];
      && (pc.Opening? || pc.Slotting? || pc.Closing? ==> !p.slot)
      && (pc.Connecting? || pc.Looping? ==> p.slot)
  }

  ghost predicate SlotsFit(s: State) {
    forall t :: t in s.threads ==> SlotFits(s, t)
  }

  lemma SlotsElsewhere(s: State, s': State, t: Tid, p: PairingId)
    requires PairSound(s) && SlotsFit(s) && t in s.threads && Owned(s.threads[t].pc) == Some(p) && p in s.pairings
    requires t in s'.threads && s'.threads == s.threads[t := s'.threads[t]] && p in s'.pairings && s'.pairings == s.pairings[p := s'.pairings[p]]
    requires SlotFits(s', t)
    ensures SlotsFit(s')
  {
    forall u | u in s'.threads
      ensures SlotFits(s', u)
    {
      if u != t {
        assert SlotFits(s, u) && ThreadSound(s, u) && ThreadSound(s, t);
      }
    }
  }

  lemma OpenSlotsFit(s: State, t: Tid, input: Input, s': State)
    requires t in s.threads && IsOpen(s.threads[t].pc) && WellKnown(s, s.threads[t].pc) && s' == OpenStep(s, t, input)
    requires Owned(s.threads[t].pc).value in s.pairings && SlotFits(s, t)
    ensures t in s'.threads && SlotFits(s', t) && Owned(s.threads[t].pc).value in s'.pairings
    ensures s'.pairings == s.pairings[Owned(s.threads[t].pc).value := s'.pairings[Owned(s.threads[t].pc).value]]
  {
  }

  lemma EndSlotsFit(s: State, t: Tid, s': State)
    requires t in s.threads && Owned(s.threads[t].pc).Some? && !IsOpen(s.threads[t].pc) && WellKnown(s, s.threads[t].pc)
    requires Owned(s.threads[t].pc).value in s.pairings && SlotFits(s, t) && s' == EndStep(s, t)
    ensures t in s'.threads && SlotFits(s', t) && Owned(s.threads[t].pc).value in s'.pairings
    ensures s'.pairings == s.pairings[Owned(s.threads[t].pc).value := s'.pairings[Owned(s.threads[t].pc).value]]
  {
  }

  lemma OthersSlotsFit(s: State, s': State, t: Tid)
    requires PairSound(s) && SlotsFit(s) && t in s.threads && t in s'.threads && s'.threads == s.threads[t := s'.threads[t]]
    requires SlotFits(s', t) && forall p :: p in s.pairings ==> p in s'.pairings && s'.pairings[p].slot == s.pairings[p].slot
    ensures SlotsFit(s')
  {
    forall u | u in s'.threads
      ensures SlotFits(s', u)
    {
      if u != t {
        assert SlotFits(s, u) && ThreadSound(s, u);
      }
    }
  }

  lemma BeginSlotsFit(s: State, t: Tid, c: ClientId, input: Input, s': State)
    requires PairSound(s) && SlotsFit(s) && t in s.threads && s.threads[t].kind.Pairs?
    requires (if s.current.None? then input.Fresh? && input.id !in s.pairings else s.current.value in s.pairings) && s' == Begin(s, t, c, input)
    ensures SlotsFit(s')
  {
    OthersSlotsFit(s, s', t);
  }

  lemma TurnSlotsFit(s: State, t: Tid, input: Input, s': State)
    requires PairSound(s) && SlotsFit(s) && t in s.threads && Ready(s, t, input) && Grounded(s, t) && s' == Advance(s, t, input)
    ensures SlotsFit(s')
  {
    var pc := s.threads[t].pc;
    assert ThreadSound(s, t) && SlotFits(s, t);
    OnlyItsThread(s, t, input, s');
    if Owned(pc).Some? {
      if IsOpen(pc) {
        OpenSlotsFit(s, t, input, s');
      } else {
        EndSlotsFit(s, t, s');
      }
      SlotsElsewhere(s, s', t, Owned(pc).value);
    } else if pc.Beginning? {
      BeginSlotsFit(s, t, pc.client, input, s');
    } else {
      AloneStepOnly(s, t, input, s');
      OthersSlotsFit(s, s', t);
    }
  }

  lemma StepSlotsFit(s: State, e: Event, s': State)
    requires PairSound(s) && SlotsFit(s) && Enabled(s, e) && s' == Step(s, e)
    ensures SlotsFit(s')
  {
    if e.Turn? {
      TurnSlotsFit(s, e.t, e.input, s');
    } else {
      forall u | u in s'.threads
        ensures SlotFits(s', u)
      {
        assert u in s.threads ==> SlotFits(s, u);
      }
    }
  }

  lemma {:induction false} RunSlotsFit(s: State, events: seq<Event>)
    requires PairSound(s) && SlotsFit(s) && IsRun(s, events)
    ensures SlotsFit(After(s, events))
    decreases |events|
  {
    if events != [] {
      StepSlotsFit(s, events[0], Step(s, events[0]));
      PairStep(s, events[0]);
      RunSlotsFit(Step(s, events[0]), events[1..]);
    }
  }

  // In every run a pairing connects and runs its loop only with the slot, and announces its end only without.
  lemma LoopHasTheSlot(events: seq<Event>, t: Tid)
    requires IsRun(EMPTY, events) && t in After(EMPTY, events).threads
    ensures var s := After(EMPTY, events); var pc := s.threads[t].pc;
      && (pc.Connecting? || pc.Looping? ==> pc.pairing in s.pairings && s.pairings[pc.pairing].slot)
      && (pc.Opening? || pc.Slotting? || pc.Closing? ==> pc.pairing in s.pairings && !s.pairings[pc.pairing].slot)
  {
    RunSlotsFit(EMPTY, events);
    Reachable(events);
    assert SlotFits(After(EMPTY, events), t) && ThreadSound(After(EMPTY, events), t);
  }

  // Each stage of a pairing leads to the next one, and a failure in any of them to its end.
  lemma StageByStage(s: State, t: Tid, input: Input)
    requires Enabled(s, Turn(t, input)) && IsOpen(s.threads[t].pc)
    ensures var p, pc' := s.threads[t].pc.pairing, Step(s, Turn(t, input)).threads[t].pc;
      match s.threads[t].pc
      case Opening(_) => pc' == if input.Fail? then Ending(p) else Slotting(p)
      case Slotting(_) => pc' == if input.Fail? then Ending(p) else Connecting(p)
      case Connecting(_) => pc' == if input.Fail? then Ending(p) else Looping(p)
      case Looping(_) => pc' == Ending(p)
      case Ending(_) => pc' == Checking(p)
  {
    assert Step(s, Turn(t, input)) == OpenStep(s, t, input);
  }

  // ---- The end of a pairing ----

  // Read off the turns: the client of the pairing was linked when its owner looked at the end.
  function NoteEnd(s: State, e: Event, p: PairingId, linked: bool): bool
    requires Enabled(s, e)
  {
    linked || (e.Turn? && s.threads[e.t].pc == Checking(p) && p in s.pairings && IsLinked(s, s.pairings[p].client))
  }

  ghost function LinkedAtEnd(s: State, events: seq<Event>, p: PairingId, linked: bool): bool
    requires IsRun(s, events)
    decreases |events|
  {
    if events == [] then linked else LinkedAtEnd(Step(s, events[0]), events[1..], p, NoteEnd(s, events[0], p, linked))
  }

  predicate EndKnown(s: State, p: PairingId, linked: bool) {
    if p in s.pairings then s.pairings[p].leftLinked == linked else !linked
  }

  // The flag of every pairing stays, except for the one that is looked at.
  lemma OwnEndKnown(s: State, t: Tid, q: PairingId, s': State, p: PairingId, linked: bool)
    requires t in s.threads && q in s.pairings && q in s'.pairings && s'.pairings == s.pairings[q := s'.pairings[q]] && EndKnown(s, p, linked)
    requires s'.pairings[q].leftLinked == (s.pairings[q].leftLinked || (s.threads[t].pc == Checking(q) && IsLinked(s, s.pairings[q].client)))
    requires s.threads[t].pc.Checking? ==> s.threads[t].pc.pairing == q
    ensures EndKnown(s', p, linked || (s.threads[t].pc == Checking(p) && p in s.pairings && IsLinked(s, s.pairings[p].client)))
  {
  }

  lemma OpenEndKnown(s: State, t: Tid, input: Input, s': State, p: PairingId, linked: bool)
    requires t in s.threads && IsOpen(s.threads[t].pc) && WellKnown(s, s.threads[t].pc) && s' == OpenStep(s, t, input)
    requires Owned(s.threads[t].pc).value in s.pairings && EndKnown(s, p, linked)
    ensures EndKnown(s', p, linked)
  {
    var q := Owned(s.threads[t].pc).value;
    OwnEndKnown(s, t, q, s', p, linked);
  }

  lemma CloseEndKnown(s: State, t: Tid, s': State, p: PairingId, linked: bool)
    requires t in s.threads && Owned(s.threads[t].pc).Some? && !IsOpen(s.threads[t].pc) && WellKnown(s, s.threads[t].pc)
    requires Owned(s.threads[t].pc).value in s.pairings && s' == EndStep(s, t) && EndKnown(s, p, linked)
    ensures EndKnown(s', p, linked || (s.threads[t].pc == Checking(p) && p in s.pairings && IsLinked(s, s.pairings[p].client)))
  {
    var q := Owned(s.threads[t].pc).value;
    OwnEndKnown(s, t, q, s', p, linked);
  }

  lemma BeginEndKnown(s: State, t: Tid, c: ClientId, input: Input, s': State, p: PairingId, linked: bool)
    requires t in s.threads && s.threads[t].kind.Pairs? && EndKnown(s, p, linked)
    requires (if s.current.None? then input.Fresh? && input.id !in s.pairings else s.current.value in s.pairings) && s' == Begin(s, t, c, input)
    ensures EndKnown(s', p, linked)
  {
  }

  lemma AloneEndKnown(s: State, t: Tid, input: Input, s': State, p: PairingId, linked: bool)
    requires PairSound(s) && t in s.threads && Owned(s.threads[t].pc).None? && !s.threads[t].pc.Beginning?
    requires Ready(s, t, input) && Grounded(s, t) && s' == Advance(s, t, input) && EndKnown(s, p, linked)
    ensures EndKnown(s', p, linked)
  {
    assert ThreadSound(s, t);
    AloneStepOnly(s, t, input, s');
  }

  lemma TurnEndKnown(s: State, t: Tid, input: Input, s': State, p: PairingId, linked: bool)
    requires PairSound(s) && t in s.threads && Ready(s, t, input) && Grounded(s, t) && s' == Advance(s, t, input) && EndKnown(s, p, linked)
    ensures EndKnown(s', p, NoteEnd(s, Turn(t, input), p, linked))
  {
    var pc := s.threads[t].pc;
    assert ThreadSound(s, t);
    if IsOpen(pc) {
      OpenEndKnown(s, t, input, s', p, linked);
    } else if Owned(pc).Some? {
      CloseEndKnown(s, t, s', p, linked);
    } else if pc.Beginning? {
      BeginEndKnown(s, t, pc.client, input, s', p, linked);
    } else {
      AloneEndKnown(s, t, input, s', p, linked);
    }
  }

  lemma {:induction false} RunEndKnown(s: State, events: seq<Event>, p: PairingId, linked: bool)
    requires PairSound(s) && EndKnown(s, p, linked) && IsRun(s, events)
    ensures EndKnown(After(s, events), p, LinkedAtEnd(s, events, p, linked))
    decreases |events|
  {
    if events != [] {
      if events[0].Turn? {
        TurnEndKnown(s, events[0].t, events[0].input, Step(s, events[0]), p, linked);
      }
      PairStep(s, events[0]);
      RunEndKnown(Step(s, events[0]), events[1..], p, NoteEnd(s, events[0], p, linked));
    }
  }

  // Once the end of a pairing was announced its client is not the channel's session, unless it was linked
  // when the owner looked at the end.
  lemma EndedIsDropped(events: seq<Event>, p: PairingId)
    requires IsRun(EMPTY, events) && p in After(EMPTY, events).pairings && After(EMPTY, events).pairings[p].done
    ensures var s := After(EMPTY, events);
      s.session != Some(s.pairings[p].client) || LinkedAtEnd(EMPTY, events, p, false)
  {
    RunEndKnown(EMPTY, events, p, false);
    SupersededIsGone(events, p);
  }
}
