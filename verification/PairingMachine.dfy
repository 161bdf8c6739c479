// Pairing sessions of one channel (internal/session/manager.go) as a machine: any number of pair and
// removal requests run at once, every section under the manager's mutex is one step, and the client,
// the broker of QR codes and the request contexts do what they like in between. Different channels use
// different map entries, so one channel is enough.
module PairingMachine {
  import opened Options

  // Requests, clients, pairings and lock objects are known by their identity alone.
  type Tid = nat
  type ClientId = nat
  type PairingId = nat
  type LockId = nat

  datatype Kind = Pairs(importHistory: bool, relink: bool, phone: string) | Removes

  // What a request does once it left its locked section.
  datatype Then = ToBegin(client: ClientId) | ToReturn

  datatype Pc =
    | Start
    | Waiting(lock: LockId)
    | Looking(lock: LockId)
    | Found(lock: LockId, client: ClientId)
    | Unlinking(lock: LockId, client: ClientId)
    | Renewing(lock: LockId)
    | Leaving(lock: LockId, then_: Then)
    | Left(lock: LockId, then_: Then)
    | Beginning(client: ClientId)
    | Superseding(pairing: PairingId)
    | Opening(pairing: PairingId)
    | Slotting(pairing: PairingId)
    | Connecting(pairing: PairingId)
    | Looping(pairing: PairingId)
    | Ending(pairing: PairingId)
    | Checking(pairing: PairingId)
    | Dropping(pairing: PairingId)
    | Releasing(pairing: PairingId)
    | Closing(pairing: PairingId)
    | Returned

  datatype Thread = Thread(kind: Kind, pc: Pc)

  datatype Lock = Lock(holders: nat, held: Option<Tid>)

  // A pairing: who began it and with which choice, whether it was halted and whether its end was
  // announced, whether it holds the pairing slot, and whether its client was linked when it ended.
  datatype Pairing = Pairing(owner: Tid, client: ClientId, importHistory: bool, phone: string,
                             halted: bool, done: bool, slot: bool, leftLinked: bool)

  datatype State = State(
    session: Option<ClientId>,
    linked: map<ClientId, bool>,
    entry: Option<LockId>,
    locks: map<LockId, Lock>,
    current: Option<PairingId>,
    pairings: map<PairingId, Pairing>,
    threads: map<Tid, Thread>)

  // What a step of a request is given: nothing, a failure of the call it makes, or a new identity.
  datatype Input = Go | Fail | Fresh(id: nat)

  datatype Event =
    | Arrive(t: Tid, kind: Kind)
    | Turn(t: Tid, input: Input)
    | SetLinked(client: ClientId, linked: bool)
    | LoggedOut(client: ClientId)
    | Resume(client: ClientId)

  const EMPTY := State(None, map[], None, map[], None, map[], map[])

  // ---- Sections under the mutex ----

  function Goto(s: State, t: Tid, pc: Pc): State
    requires t in s.threads
  {
    s.(threads := s.threads[t := s.threads[t].(pc := pc)])
  }

  // The entry of the channel's lock is found or made, and one more holder is counted.
  function CountHolder(s: State, newLock: LockId): (State, LockId)
    requires s.entry.Some? ==> s.entry.value in s.locks
  {
    if s.entry.Some? then
      var l := s.entry.value;
      (s.(locks := s.locks[l := s.locks[l].(holders := s.locks[l].holders + 1)]), l)
    else
      (s.(entry := Some(newLock), locks := s.locks[newLock := Lock(1, None)]), newLock)
  }

  function UncountHolder(s: State, l: LockId): State
    requires l in s.locks && s.locks[l].holders > 0
  {
    var lock := s.locks[l];
    var s' := s.(locks := s.locks[l := lock.(holders := lock.holders - 1)]);
    if lock.holders == 1 then s'.(entry := None) else s'
  }

  predicate SameChoice(p: Pairing, importHistory: bool, phone: string) {
    importHistory == p.importHistory && phone == p.phone
  }

  function Halted(s: State, p: PairingId): State
    requires p in s.pairings
  {
    s.(pairings := s.pairings[p := s.pairings[p].(halted := true)])
  }

  function Dropped(s: State, c: ClientId): State {
    if s.session == Some(c) then s.(session := None) else s
  }

  function Registered(s: State, c: ClientId, linked: bool): State {
    s.(session := Some(c), linked := s.linked[c := linked])
  }

  // ---- Steps of one request ----

  // What the request needs to be in place for its next step.
  predicate Ready(s: State, t: Tid, input: Input)
    requires t in s.threads
  {
    match s.threads[t].pc
    case Start => s.entry.None? ==> input.Fresh? && input.id !in s.locks
    case Waiting(l) => l in s.locks && s.locks[l].held.None?
    case Looking(_) => s.threads[t].kind.Pairs? && s.session.None? && !input.Fail? ==> input.Fresh? && input.id !in s.linked
    case Renewing(_) => s.session.None? && !input.Fail? ==> input.Fresh? && input.id !in s.linked
    case Beginning(_) => s.current.None? ==> input.Fresh? && input.id !in s.pairings
    case Superseding(p) => input.Fail? || (p in s.pairings && s.pairings[p].done)
    case Returned => false
    case _ => true
  }

  function Lock1(s: State, t: Tid, input: Input): State
    requires t in s.threads && s.threads[t].pc.Start? && Ready(s, t, input)
    requires s.entry.Some? ==> s.entry.value in s.locks
  {
    var counted := CountHolder(s, if input.Fresh? then input.id else 0);
    Goto(counted.0, t, Waiting(counted.1))
  }

  function Lock2(s: State, t: Tid, l: LockId): State
    requires t in s.threads && l in s.locks
  {
    Goto(s.(locks := s.locks[l := s.locks[l].(held := Some(t))]), t, Looking(l))
  }

  function Unlock1(s: State, t: Tid, l: LockId, then_: Then): State
    requires t in s.threads && l in s.locks
  {
    Goto(s.(locks := s.locks[l := s.locks[l].(held := None)]), t, Left(l, then_))
  }

  function Unlock2(s: State, t: Tid, l: LockId, then_: Then): State
    requires t in s.threads && l in s.locks && s.locks[l].holders > 0
  {
    Goto(UncountHolder(s, l), t, match then_ case ToBegin(c) => Beginning(c) case ToReturn => Returned)
  }

  // The session of the channel is found, or a client is made and registered for it.
  function FindClient(s: State, t: Tid, l: LockId, input: Input): State
    requires t in s.threads
  {
    if s.session.Some? then Goto(s, t, Found(l, s.session.value))
    else if s.threads[t].kind.Removes? || !input.Fresh? then Goto(s, t, Leaving(l, ToReturn))
    else Goto(Registered(s, input.id, false), t, Found(l, input.id))
  }

  function LookAtDevice(s: State, t: Tid, l: LockId, c: ClientId, input: Input): State
    requires t in s.threads
  {
    match s.threads[t].kind
    case Removes => Goto(s, t, Unlinking(l, c))
    case Pairs(importHistory, relink, _) =>
      if !(c in s.linked && s.linked[c]) then Goto(s, t, Leaving(l, ToBegin(c)))
      else if input.Fail? || !(importHistory && relink) then Goto(s, t, Leaving(l, ToReturn))
      else Goto(s, t, Unlinking(l, c))
  }

  // The device logs out; a removal drops the session even if that fails.
  function Unlink(s: State, t: Tid, l: LockId, c: ClientId, input: Input): State
    requires t in s.threads
  {
    match s.threads[t].kind
    case Removes => Goto(Dropped(s, c), t, Leaving(l, ToReturn))
    case Pairs(_, _, _) =>
      if input.Fail? then Goto(s, t, Leaving(l, ToReturn)) else Goto(Dropped(s, c), t, Renewing(l))
  }

  function Renew(s: State, t: Tid, l: LockId, input: Input): State
    requires t in s.threads
  {
    if s.session.Some? then Goto(s, t, Leaving(l, ToBegin(s.session.value)))
    else if !input.Fresh? then Goto(s, t, Leaving(l, ToReturn))
    else Goto(Registered(s, input.id, false), t, Leaving(l, ToBegin(input.id)))
  }

  function Begin(s: State, t: Tid, c: ClientId, input: Input): State
    requires t in s.threads && s.threads[t].kind.Pairs?
    requires s.current.Some? ==> s.current.value in s.pairings
    requires s.current.None? ==> input.Fresh?
  {
    var kind := s.threads[t].kind;
    if s.current.Some? then
      var live := s.current.value;
      if SameChoice(s.pairings[live], kind.importHistory, kind.phone) then Goto(s, t, Returned)
      else Goto(Halted(s, live), t, Superseding(live))
    else
      var p := Pairing(t, c, kind.importHistory, kind.phone, false, false, false, false);
      Goto(s.(current := Some(input.id), pairings := s.pairings[input.id := p]), t, Opening(input.id))
  }

  function Unregister(s: State, t: Tid, p: PairingId): State
    requires t in s.threads
  {
    Goto(if s.current == Some(p) then s.(current := None) else s, t, Checking(p))
  }

  function CheckDevice(s: State, t: Tid, p: PairingId): State
    requires t in s.threads && p in s.pairings
  {
    var c := s.pairings[p].client;
    if c in s.linked && s.linked[c] then
      Goto(s.(pairings := s.pairings[p := s.pairings[p].(leftLinked := true)]), t, Releasing(p))
    else Goto(s, t, Dropping(p))
  }

  function SetSlot(s: State, t: Tid, p: PairingId, slot: bool, pc: Pc): State
    requires t in s.threads && p in s.pairings
  {
    Goto(s.(pairings := s.pairings[p := s.pairings[p].(slot := slot)]), t, pc)
  }

  function Close(s: State, t: Tid, p: PairingId): State
    requires t in s.threads && p in s.pairings
  {
    Goto(s.(pairings := s.pairings[p := s.pairings[p].(done := true)]), t, Returned)
  }

  // The identities a request uses exist.
  predicate WellKnown(s: State, pc: Pc) {
    match pc
    case Waiting(l) => l in s.locks
    case Leaving(l, _) => l in s.locks
    case Left(l, _) => l in s.locks && s.locks[l].holders > 0
    case Checking(p) => p in s.pairings
    case Dropping(p) => p in s.pairings
    case Slotting(p) => p in s.pairings
    case Releasing(p) => p in s.pairings
    case Closing(p) => p in s.pairings
    case _ => true
  }

  predicate Grounded(s: State, t: Tid)
    requires t in s.threads
  {
    && WellKnown(s, s.threads[t].pc)
    && (s.entry.Some? ==> s.entry.value in s.locks)
    && (s.current.Some? ==> s.current.value in s.pairings)
    && (s.threads[t].pc.Beginning? ==> s.threads[t].kind.Pairs?)
  }

  // The request is inside its locked section.
  predicate InSection(pc: Pc) {
    pc.Looking? || pc.Found? || pc.Unlinking? || pc.Renewing? || pc.Leaving?
  }

  // The request owns a pairing that is still registered for the channel.
  predicate IsOpen(pc: Pc) {
    pc.Opening? || pc.Slotting? || pc.Connecting? || pc.Looping? || pc.Ending?
  }

  // A step inside the locked section.
  function SectionStep(s: State, t: Tid, input: Input): State
    requires t in s.threads
  {
    match s.threads[t].pc
    case Looking(l) => FindClient(s, t, l, input)
    case Found(l, c) => LookAtDevice(s, t, l, c, input)
    case Unlinking(l, c) => Unlink(s, t, l, c, input)
    case Renewing(l) => Renew(s, t, l, input)
    case _ => s
  }

  // A step of a pairing while it is registered.
  function OpenStep(s: State, t: Tid, input: Input): State
    requires t in s.threads && WellKnown(s, s.threads[t].pc)
  {
    match s.threads[t].pc
    case Opening(p) => Goto(s, t, if input.Fail? then Ending(p) else Slotting(p))
    case Slotting(p) => if input.Fail? then Goto(s, t, Ending(p)) else SetSlot(s, t, p, true, Connecting(p))
    case Connecting(p) => Goto(s, t, if input.Fail? then Ending(p) else Looping(p))
    case Looping(p) => Goto(s, t, Ending(p))
    case Ending(p) => Unregister(s, t, p)
    case _ => s
  }

  // A step of a pairing that is no longer registered.
  function EndStep(s: State, t: Tid): State
    requires t in s.threads && WellKnown(s, s.threads[t].pc)
  {
    match s.threads[t].pc
    case Checking(p) => CheckDevice(s, t, p)
    case Dropping(p) => Goto(Dropped(s, s.pairings[p].client), t, Releasing(p))
    case Releasing(p) => SetSlot(s, t, p, false, Closing(p))
    case Closing(p) => Close(s, t, p)
    case _ => s
  }

  function Advance(s: State, t: Tid, input: Input): State
    requires t in s.threads && Ready(s, t, input) && Grounded(s, t)
  {
    match s.threads[t].pc
    case Start => Lock1(s, t, input)
    case Waiting(l) => Lock2(s, t, l)
    case Leaving(l, then_) => Unlock1(s, t, l, then_)
    case Left(l, then_) => Unlock2(s, t, l, then_)
    case Beginning(c) => Begin(s, t, c, input)
    case Superseding(p) => Goto(s, t, if p in s.pairings && s.pairings[p].done && !input.Fail? then Start else Returned)
    case _ =>
      if InSection(s.threads[t].pc) then SectionStep(s, t, input)
      else if IsOpen(s.threads[t].pc) then OpenStep(s, t, input)
      else EndStep(s, t)
  }

  // ---- The machine ----

  predicate Enabled(s: State, e: Event) {
    match e
    case Arrive(t, _) => t !in s.threads
    case Turn(t, input) => t in s.threads && Ready(s, t, input) && Grounded(s, t)
    case SetLinked(c, _) => c in s.linked
    case LoggedOut(_) => true
    case Resume(c) => s.session.None? && c !in s.linked
  }

  function Step(s: State, e: Event): State
    requires Enabled(s, e)
  {
    match e
    case Arrive(t, kind) => s.(threads := s.threads[t := Thread(kind, Start)])
    case Turn(t, input) => Advance(s, t, input)
    case SetLinked(c, linked) => s.(linked := s.linked[c := linked])
    case LoggedOut(c) => Dropped(s, c)
    case Resume(c) => Registered(s, c, true)
  }

  ghost predicate IsRun(s: State, events: seq<Event>)
    decreases |events|
  {
    events == [] || (Enabled(s, events[0]) && IsRun(Step(s, events[0]), events[1..]))
  }

  ghost function After(s: State, events: seq<Event>): State
    requires IsRun(s, events)
    decreases |events|
  {
    if events == [] then s else After(Step(s, events[0]), events[1..])
  }
}
