// The pairing slot (internal/deviceprops/slot.go): pairings share it, a pairing that imports history has
// it alone and swaps the global device properties while it does.
module PairingSlot {
  import opened Options

  const CAPACITY := 0x10_0000

  // The device properties, as far as the slot changes them.
  datatype Props = Base | WithHistory(base: Props)

  function Weight(importHistory: bool): nat {
    if importHistory then CAPACITY else 1
  }

  // ---- The slot under interleaving ----

  type Tid = nat

  // Where a request stands: it waits, was granted its weight, read the properties, holds the slot, is
  // giving it back, has put the properties back, or is through.
  datatype Pc = Waiting | Granted | Saved(previous: Props) | Holding(previous: Props) | Restoring(previous: Props) | Returning | Through

  datatype Request = Request(importHistory: bool, pc: Pc)

  datatype State = State(free: nat, props: Props, requests: map<Tid, Request>)

  // Release may be called any number of times; only the first call on a holder does anything.
  datatype Event = Arrive(t: Tid, importHistory: bool) | Grant(t: Tid) | GiveUp(t: Tid) | Save(t: Tid) | Swap(t: Tid)
                 | Release(t: Tid) | Restore(t: Tid) | Return(t: Tid)

  const EMPTY := State(CAPACITY, Base, map[])

  function Goto(s: State, t: Tid, pc: Pc): State
    requires t in s.requests
  {
    s.(requests := s.requests[t := s.requests[t].(pc := pc)])
  }

  predicate Enabled(s: State, e: Event) {
    match e
    case Arrive(t, _) => t !in s.requests
    case Grant(t) => t in s.requests && s.requests[t].pc.Waiting? && s.free >= Weight(s.requests[t].importHistory)
    case GiveUp(t) => t in s.requests && s.requests[t].pc.Waiting?
    case Save(t) => t in s.requests && s.requests[t].pc.Granted?
    case Swap(t) => t in s.requests && s.requests[t].pc.Saved?
    case Release(t) => t in s.requests && !s.requests[t].pc.Waiting? && !s.requests[t].pc.Granted? && !s.requests[t].pc.Saved?
    case Restore(t) => t in s.requests && s.requests[t].pc.Restoring?
    case Return(t) => t in s.requests && s.requests[t].pc.Returning?
  }

  function Step(s: State, e: Event): State
    requires Enabled(s, e)
  {
    match e
    case Arrive(t, importHistory) => s.(requests := s.requests[t := Request(importHistory, Waiting)])
    case Grant(t) => Goto(s.(free := s.free - Weight(s.requests[t].importHistory)), t, Granted)
    case GiveUp(t) => Goto(s, t, Through)
    case Save(t) => Goto(s, t, Saved(s.props))
    case Swap(t) =>
      var r := s.requests[t];
      Goto(if r.importHistory then s.(props := WithHistory(r.pc.previous)) else s, t, Holding(r.pc.previous))
    case Release(t) => if s.requests[t].pc.Holding? then Goto(s, t, Restoring(s.requests[t].pc.previous)) else s
    case Restore(t) =>
      var r := s.requests[t];
      Goto(if r.importHistory then s.(props := r.pc.previous) else s, t, Returning)
    case Return(t) => Goto(s.(free := s.free + Weight(s.requests[t].importHistory)), t, Through)
  }

  ghost predicate IsRun(s: State, events: seq<Event>)
    decreases |events|
  {
    events == [] || (Enabled(s, events[0]) && IsRun(Step(s, events[0]), events[1..]))
  }

  ghost function After(s: State, events: seq<Event>): State
    requires IsRun(s, events)
    decreases |events|
  {
    if events == [] then s else After(Step(s, events[0]), events[1..])
  }

  // ---- The slot as objects ----

  // What a holder keeps to give the slot back, once.
  class Ticket {
    const importHistory: bool
    const previous: Props
    var returned: bool

    constructor (importHistory: bool, previous: Props)
      ensures this.importHistory == importHistory && this.previous == previous && !returned
    {
      this.importHistory, this.previous, returned := importHistory, previous, false;
    }
  }

  // The steps of the request t from its grant on, with nobody in between.
  function Acquired(s: State, t: Tid): State
    requires Enabled(s, Grant(t))
  {
    Step(Step(Step(s, Grant(t)), Save(t)), Swap(t))
  }

  // The steps of its release.
  function Released(s: State, t: Tid): State
    requires t in s.requests && s.requests[t].pc.Holding?
  {
    Step(Step(Step(s, Release(t)), Restore(t)), Return(t))
  }

  class Slot {
    var free: nat
    var props: Props

    constructor ()
      ensures free == CAPACITY && props == Base && Represents(EMPTY)
    {
      free, props := CAPACITY, Base;
    }

    ghost predicate Represents(s: State)
      reads this
    {
      s.free == free && s.props == props
    }

    // The wait for the slot ends with a ticket if it is free enough, and without one otherwise. For the
    // request t this is to be granted, to save and to swap, or to give up.
    method Acquire(importHistory: bool, ghost s: State, ghost t: Tid) returns (ticket: Option<Ticket>)
      requires Represents(s) && t in s.requests && s.requests[t] == Request(importHistory, Waiting)
      modifies this
      ensures ticket.Some? <==> Enabled(s, Grant(t))
      ensures ticket.None? ==> Represents(Step(s, GiveUp(t)))
      ensures ticket.Some? ==>
                && fresh(ticket.value) && ticket.value.importHistory == importHistory && !ticket.value.returned
                && Represents(Acquired(s, t))
                && Acquired(s, t).requests[t].pc == Holding(ticket.value.previous)
    {
      var weight := Weight(importHistory);
      if free < weight {
        return None;
      }
      free := free - weight;
      var previous := props;
      if importHistory {
        props := WithHistory(previous);
      }
      var ticket' := new Ticket(importHistory, previous);
      ticket := Some(ticket');
    }

    // Giving the slot back a second time changes nothing.
    method GiveBack(ticket: Ticket, ghost s: State, ghost t: Tid)
      requires Represents(s) && t in s.requests && s.requests[t].importHistory == ticket.importHistory
      requires if ticket.returned then s.requests[t].pc.Through? else s.requests[t].pc == Holding(ticket.previous)
      modifies this, ticket
      ensures ticket.returned
      ensures Represents(if old(ticket.returned) then Step(s, Release(t)) else Released(s, t))
      ensures old(ticket.returned) ==> free == old(free) && props == old(props)
    {
      if ticket.returned {
        return;
      }
      ticket.returned := true;
      if ticket.importHistory {
        props := ticket.previous;
      }
      free := free + Weight(ticket.importHistory);
    }
  }

  // ---- What every step keeps ----

  predicate Weighs(r: Request) {
    !r.pc.Waiting? && !r.pc.Through?
  }

  // The request has put its own properties in place.
  predicate Swapped(r: Request) {
    r.importHistory && (r.pc.Holding? || r.pc.Restoring?)
  }

  ghost function Holders(s: State): set<Tid> {
    set t | t in s.requests && Weighs(s.requests[t])
  }

  // The request t has the slot alone.
  ghost predicate Alone(s: State, t: Tid) {
    t in s.requests && s.requests[t].importHistory && Holders(s) == {t} && s.free == 0
  }

  // Properties are only ever saved while nobody has swapped them.
  ghost predicate SavedBase(s: State) {
    forall t :: t in s.requests ==> SavesBase(s.requests[t])
  }

  predicate SavesBase(r: Request) {
    r.pc.Saved? || r.pc.Holding? || r.pc.Restoring? ==> r.pc.previous == Base
  }

  // Either one history request has the slot alone, or nobody with a history holds it and the weights of
  // the holders and the free rest make up the capacity.
  ghost predicate Sound(s: State, alone: Option<Tid>) {
    && SavedBase(s)
    && if alone.Some?
       then Alone(s, alone.value) && s.props == if Swapped(s.requests[alone.value]) then WithHistory(Base) else Base
       else s.props == Base && s.free + |Holders(s)| == CAPACITY && forall t :: t in Holders(s) ==> !s.requests[t].importHistory
  }

  // A step of one request that neither takes nor returns its weight.
  lemma SameHolders(s: State, s': State, t: Tid)
    requires t in s.requests && t in s'.requests && s'.requests == s.requests[t := s'.requests[t]]
    requires Weighs(s'.requests[t]) == Weighs(s.requests[t])
    ensures Holders(s') == Holders(s)
  {
  }

  lemma GrantKeeps(s: State, t: Tid, alone: Option<Tid>) returns (alone': Option<Tid>)
    requires Sound(s, alone) && Enabled(s, Grant(t))
    ensures Sound(Step(s, Grant(t)), alone')
  {
    var s' := Step(s, Grant(t));
    assert t !in Holders(s);
    assert Holders(s') == Holders(s) + {t};
    if s.requests[t].importHistory {
      assert Holders(s) == {};
      alone' := Some(t);
    } else {
      alone' := None;
      forall u | u in Holders(s')
        ensures !s'.requests[u].importHistory
      {
        assert u == t || u in Holders(s);
      }
    }
  }

  lemma ReturnKeeps(s: State, t: Tid, alone: Option<Tid>) returns (alone': Option<Tid>)
    requires Sound(s, alone) && Enabled(s, Return(t))
    ensures Sound(Step(s, Return(t)), alone')
  {
    var s' := Step(s, Return(t));
    assert t in Holders(s);
    forall u: Tid
      ensures u in Holders(s') <==> u in Holders(s) && u != t
    {
    }
    assert Holders(s') == Holders(s) - {t};
    alone' := None;
  }

  lemma OwnStepKeeps(s: State, e: Event, t: Tid, alone: Option<Tid>)
    requires Sound(s, alone) && Enabled(s, e)
    requires e == Save(t) || e == Swap(t) || e == Release(t) || e == Restore(t) || e == GiveUp(t)
    ensures Sound(Step(s, e), alone)
  {
    var s' := Step(s, e);
    assert SavesBase(s.requests[t]);
    SameHolders(s, s', t);
    assert alone.None? && Weighs(s.requests[t]) ==> t in Holders(s);
    assert alone.Some? && Weighs(s.requests[t]) ==> t in Holders(s);
  }

  lemma StepKeeps(s: State, e: Event, alone: Option<Tid>) returns (alone': Option<Tid>)
    requires Sound(s, alone) && Enabled(s, e)
    ensures Sound(Step(s, e), alone')
  {
    alone' := alone;
    match e
    case Arrive(t, importHistory) => assert Holders(Step(s, e)) == Holders(s);
    case Grant(t) => alone' := GrantKeeps(s, t, alone);
    case Return(t) => alone' := ReturnKeeps(s, t, alone);
    case _ => OwnStepKeeps(s, e, e.t, alone);
  }

  lemma {:induction false} RunKeeps(s: State, events: seq<Event>, alone: Option<Tid>) returns (alone': Option<Tid>)
    requires Sound(s, alone) && IsRun(s, events)
    ensures Sound(After(s, events), alone')
    decreases |events|
  {
    alone' := alone;
    if events != [] {
      var next := StepKeeps(s, events[0], alone);
      alone' := RunKeeps(Step(s, events[0]), events[1..], next);
    }
  }

  lemma Reachable(events: seq<Event>) returns (alone: Option<Tid>)
    requires IsRun(EMPTY, events)
    ensures Sound(After(EMPTY, events), alone)
  {
    assert Holders(EMPTY) == {};
    alone := RunKeeps(EMPTY, events, None);
  }

  // ---- Main results ----

  // A request that imports history shares the slot with nobody.
  lemma HistoryIsAlone(events: seq<Event>, t: Tid, u: Tid)
    requires IsRun(EMPTY, events)
    requires var s := After(EMPTY, events);
      t in Holders(s) && u in Holders(s) && s.requests[t].importHistory
    ensures t == u
  {
    var alone := Reachable(events);
  }

  // The device properties are the base value whenever a pairing without history holds the slot, or
  // nobody does; while a history pairing holds it they are the ones with history.
  lemma PropsFitTheHolder(events: seq<Event>)
    requires IsRun(EMPTY, events)
    ensures var s := After(EMPTY, events);
      && (Holders(s) == {} ==> s.props == Base)
      && (forall t :: t in Holders(s) && !s.requests[t].importHistory ==> s.props == Base)
      && (forall t :: t in Holders(s) && s.requests[t].importHistory && s.requests[t].pc.Holding? ==> s.props == WithHistory(Base))
  {
    var alone := Reachable(events);
  }

  // The free weight is the capacity less the weights held, so each holder gives its weight back exactly
  // once, however often it is released; and calling release again changes nothing at all.
  lemma WeightIsConserved(events: seq<Event>)
    requires IsRun(EMPTY, events)
    ensures var s := After(EMPTY, events);
      && (Holders(s) == {} ==> s.free == CAPACITY)
      && (if exists t :: t in Holders(s) && s.requests[t].importHistory then s.free == 0 else s.free + |Holders(s)| == CAPACITY)
      && (forall t :: t in s.requests && Enabled(s, Release(t)) && !s.requests[t].pc.Holding? ==> Step(s, Release(t)) == s)
  {
    var alone := Reachable(events);
    var s := After(EMPTY, events);
    if alone.Some? {
      assert alone.value in Holders(s);
    }
  }

  // A request that waits can be granted exactly when nobody stands in its way: for a history it must be
  // alone, and without one no history pairing may hold the slot, which has room for 1048576 others.
  lemma GrantedExactly(events: seq<Event>, t: Tid)
    requires IsRun(EMPTY, events)
    requires var s := After(EMPTY, events); t in s.requests && s.requests[t].pc.Waiting?
    ensures var s := After(EMPTY, events);
      Enabled(s, Grant(t)) <==>
        if s.requests[t].importHistory then Holders(s) == {}
        else |Holders(s)| < 1048576 && forall u :: u in Holders(s) ==> !s.requests[u].importHistory
  {
    var alone := Reachable(events);
    var s := After(EMPTY, events);
    if alone.Some? {
      assert alone.value in Holders(s);
    }
    assert Holders(s) == {} <==> |Holders(s)| == 0;
  }
}
