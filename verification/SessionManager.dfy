// The sections of the session manager that run under its mutex (internal/session/manager.go), on the
// maps and objects they update in place. Each is proved to be the section of the pairing machine.
module SessionManager {
  import opened Options
  import opened QrExpiry
  import R = PairingReplay
  import M = PairingMachine

  type ClientId = M.ClientId

  datatype Update = Qr(code: string) | Code(code: string)

  class Pairing {
    ghost const id: M.PairingId
    const importHistory: bool
    const phone: string
    var qr: string
    var emitted: Option<int>
    var lifetime: int
    var code: string
    var halted: bool

    constructor (importHistory: bool, phone: string, ghost id: M.PairingId)
      ensures this.importHistory == importHistory && this.phone == phone && this.id == id
      ensures Held() == NOTHING && code == "" && !halted
    {
      this.importHistory, this.phone, this.id := importHistory, phone, id;
      qr, emitted, lifetime, code, halted := "", None, 0, "", false;
    }

    function Held(): Held
      reads this
    {
      QrExpiry.Held(qr, emitted, lifetime)
    }

    ghost function Kept(): R.Kept
      reads this
    {
      R.Kept(Held(), code)
    }

    predicate ByCode() {
      phone != ""
    }

    // What a request that joins the pairing is shown at once.
    function Retained(now: int): (update: Option<Update>)
      reads this
      ensures var shown := R.Shown(ByCode(), Kept(), now);
        update == if shown.None? then None else if ByCode() then Some(Code(shown.value)) else Some(Qr(shown.value))
    {
      if ByCode() then (if code != "" then Some(Code(code)) else None)
      else
        match ValidCode(Held(), now)
        case Some(shown) => Some(Qr(shown))
        case None => None
    }

    method Clear()
      modifies this`qr, this`emitted, this`lifetime, this`code
      ensures Held() == NOTHING && code == ""
    {
      qr, emitted, lifetime, code := "", None, 0, "";
    }
  }

  class ChannelLock {
    ghost const id: M.LockId
    var holders: nat

    constructor (ghost id: M.LockId)
      ensures holders == 0 && this.id == id
    {
      holders, this.id := 0, id;
    }
  }

  datatype Begun = Mine(pairing: Pairing) | Joined(update: Option<Update>) | Superseded(pairing: Pairing)

  class Manager {
    var sessions: map<string, ClientId>
    var pairings: map<string, Pairing>
    var locks: map<string, ChannelLock>

    constructor ()
      ensures sessions == map[] && pairings == map[] && locks == map[]
    {
      sessions, pairings, locks := map[], map[], map[];
    }

    predicate IsLive(channel: string, p: Pairing)
      reads this
    {
      channel in pairings && pairings[channel] == p
    }

    // The machine's state of a channel says of its session, lock and registered pairing what the maps say.
    ghost predicate Represents(s: M.State, channel: string)
      reads this, if channel in locks then {locks[channel]} else {}, if channel in pairings then {pairings[channel]} else {}
    {
      && s.session == (if channel in sessions then Some(sessions[channel]) else None)
      && s.entry == (if channel in locks then Some(locks[channel].id) else None)
      && (channel in locks ==> locks[channel].id in s.locks && s.locks[locks[channel].id].holders == locks[channel].holders)
      && s.current == (if channel in pairings then Some(pairings[channel].id) else None)
      && (channel in pairings ==>
            var p := pairings[channel];
            && p.id in s.pairings
            && M.SameChoice(s.pairings[p.id], p.importHistory, p.phone) && s.pairings[p.id].halted == p.halted)
    }

    // The first half of taking a channel's lock: its entry is found or made and one more holder counted.
    method CountHolder(channel: string, ghost s: M.State, ghost newLock: M.LockId) returns (lock: ChannelLock)
      requires Represents(s, channel) && newLock !in s.locks
      modifies this`locks, if channel in locks then {locks[channel]} else {}
      ensures locks == old(locks)[channel := lock]
      ensures if channel in old(locks) then lock == old(locks[channel]) && lock.holders == old(locks[channel].holders) + 1
              else fresh(lock) && lock.holders == 1
      ensures Represents(M.CountHolder(s, newLock).0, channel) && lock.id == M.CountHolder(s, newLock).1
    {
      if channel in locks {
        lock := locks[channel];
      } else {
        lock := new ChannelLock(newLock);
      }
      locks := locks[channel := lock];
      lock.holders := lock.holders + 1;
    }

    // The second half of giving it up: the entry goes away with its last holder.
    method UncountHolder(channel: string, lock: ChannelLock, ghost s: M.State)
      requires lock.holders > 0 && channel in locks && locks[channel] == lock && Represents(s, channel)
      modifies this`locks, lock
      ensures lock.holders == old(lock.holders) - 1
      ensures locks == if lock.holders == 0 then old(locks) - {channel} else old(locks)
      ensures lock.id in s.locks && s.locks[lock.id].holders > 0 && Represents(M.UncountHolder(s, lock.id), channel)
    {
      lock.holders := lock.holders - 1;
      if lock.holders == 0 {
        locks := locks - {channel};
      }
    }

    // A request joins the live pairing, halts it if it wants another choice, or begins its own. `t` is the
    // machine's name for the request.
    method BeginPairing(channel: string, importHistory: bool, phone: string, now: int,
                        ghost s: M.State, ghost t: M.Tid, ghost client: ClientId, ghost newId: M.PairingId)
        returns (outcome: Begun)
      requires Represents(s, channel) && newId !in s.pairings && t in s.threads && s.threads[t].kind.Pairs?
      requires s.threads[t].kind.importHistory == importHistory && s.threads[t].kind.phone == phone
      modifies this`pairings, (if channel in pairings then {pairings[channel]} else {})`halted
      ensures channel !in old(pairings) ==>
                && outcome.Mine? && fresh(outcome.pairing) && pairings == old(pairings)[channel := outcome.pairing]
                && outcome.pairing.importHistory == importHistory && outcome.pairing.phone == phone
                && outcome.pairing.Held() == NOTHING && outcome.pairing.code == "" && !outcome.pairing.halted
      ensures channel in old(pairings) ==>
                var live := old(pairings[channel]);
                && pairings == old(pairings)
                && if importHistory == live.importHistory && phone == live.phone
                   then outcome == Joined(old(live.Retained(now))) && live.halted == old(live.halted)
                   else outcome == Superseded(live) && live.halted
      ensures var s' := M.Begin(s, t, client, M.Fresh(newId));
                && Represents(s', channel)
                && s'.threads[t].pc == match outcome
                                       case Mine(p) => M.Opening(p.id)
                                       case Joined(_) => M.Returned
                                       case Superseded(p) => M.Superseding(p.id)
    {
      if channel in pairings {
        var live := pairings[channel];
        if importHistory != live.importHistory || phone != live.phone {
          live.halted := true;
          return Superseded(live);
        }
        return Joined(live.Retained(now));
      }
      var p := new Pairing(importHistory, phone, newId);
      pairings := pairings[channel := p];
      outcome := Mine(p);
    }

    // The section of ending a pairing: nobody else's registration is taken away.
    method Unregister(channel: string, p: Pairing, ghost s: M.State, ghost t: M.Tid)
      requires Represents(s, channel) && t in s.threads
      requires channel in pairings && pairings[channel].id == p.id ==> pairings[channel] == p
      modifies this`pairings
      ensures pairings == if old(IsLive(channel, p)) then old(pairings) - {channel} else old(pairings)
      ensures !IsLive(channel, p)
      ensures Represents(M.Unregister(s, t, p.id), channel)
    {
      if channel in pairings && pairings[channel] == p {
        pairings := pairings - {channel};
      }
    }

    method Drop(channel: string, client: ClientId, ghost s: M.State)
      requires Represents(s, channel)
      modifies this`sessions
      ensures sessions == if channel in old(sessions) && old(sessions)[channel] == client then old(sessions) - {channel} else old(sessions)
      ensures !(channel in sessions && sessions[channel] == client)
      ensures Represents(M.Dropped(s, client), channel)
    {
      if channel in sessions && sessions[channel] == client {
        sessions := sessions - {channel};
      }
    }

    // Only the live pairing retains a code; what it retains follows the estimate of its emission.
    method RetainQR(channel: string, p: Pairing, code: string, timeout: int, now: int) returns (shown: bool)
      modifies p`qr, p`emitted, p`lifetime, p`code
      ensures IsLive(channel, p) == old(IsLive(channel, p))
      ensures if IsLive(channel, p) then (p.Held(), shown) == Retain(old(p.Held()), code, timeout, now)
              else p.Held() == old(p.Held()) && !shown
      ensures p.code == if IsLive(channel, p) && (code == "" || timeout <= 0) then "" else old(p.code)
      ensures p.Kept() == if IsLive(channel, p) then R.Step(old(p.Kept()), R.Qr(code, timeout, now)) else old(p.Kept())
    {
      if channel !in pairings || pairings[channel] != p {
        return false;
      }
      if code == "" || timeout <= 0 {
        p.Clear();
        return code != "";
      }
      var emitted := now;
      if p.emitted.Some? {
        var scheduled := p.emitted.value + p.lifetime;
        if scheduled < now {
          emitted := scheduled;
        }
      }
      p.qr, p.emitted, p.lifetime := code, Some(emitted), timeout;
      shown := now < emitted + timeout;
    }

    method RetainCode(channel: string, p: Pairing, code: string) returns (kept: bool)
      modifies p`code
      ensures kept == (IsLive(channel, p) && code != "")
      ensures p.code == if kept then code else old(p.code)
      ensures p.Kept() == if IsLive(channel, p) then R.Step(old(p.Kept()), R.Code(code)) else old(p.Kept())
    {
      if channel !in pairings || pairings[channel] != p || code == "" {
        return false;
      }
      p.code := code;
      kept := true;
    }

    method ClearQR(channel: string, p: Pairing)
      modifies p`qr, p`emitted, p`lifetime, p`code
      ensures if IsLive(channel, p) then p.Held() == NOTHING && p.code == ""
              else p.Held() == old(p.Held()) && p.code == old(p.code)
      ensures p.Kept() == if IsLive(channel, p) then R.Step(old(p.Kept()), R.Clear) else old(p.Kept())
    {
      if channel !in pairings || pairings[channel] != p {
        return;
      }
      p.Clear();
    }
  }
}
