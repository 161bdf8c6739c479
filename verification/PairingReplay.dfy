// What a pairing keeps for requests that join it (internal/session/manager.go), over all that is read,
// kept and cleared while it is live.
module PairingReplay {
  import opened Options
  import opened QrExpiry

  datatype Kept = Kept(held: Held, code: string)

  // A QR code is read, a pairing code is to be kept, or everything is forgotten.
  datatype Event = Qr(code: string, timeout: int, at: int) | Code(code: string) | Clear

  const EMPTY := Kept(NOTHING, "")

  function Step(k: Kept, e: Event): Kept {
    match e
    case Qr(code, timeout, at) => Kept(Retain(k.held, code, timeout, at).0, if code == "" || timeout <= 0 then "" else k.code)
    case Code(code) => if code == "" then k else k.(code := code)
    case Clear => EMPTY
  }

  function AfterAll(events: seq<Event>): Kept {
    if events == [] then EMPTY else Step(AfterAll(events[..|events| - 1]), events[|events| - 1])
  }

  // What a request that joins is shown, of the kind that the pairing is by.
  function Shown(byCode: bool, k: Kept, now: int): Option<string> {
    if byCode then if k.code != "" then Some(k.code) else None
    else ValidCode(k.held, now)
  }

  // ---- Read off the events ----

  // A QR code that is not one, or lives for no time, forgets everything like a clear.
  predicate Resets(e: Event) {
    e.Clear? || (e.Qr? && (e.code == "" || e.timeout <= 0))
  }

  // The last pairing code, and nothing has been forgotten since.
  ghost predicate IsLastCode(events: seq<Event>, i: nat) {
    && i < |events| && events[i].Code? && events[i].code != ""
    && forall j :: i < j < |events| ==> !Resets(events[j]) && !(events[j].Code? && events[j].code != "")
  }

  // The QR codes read since everything was last forgotten.
  function Scans(events: seq<Event>): seq<Read> {
    if events == [] then []
    else
      var n := |events| - 1;
      if Resets(events[n]) then []
      else if events[n].Qr? then Scans(events[..n]) + [Read(events[n].code, events[n].timeout, events[n].at)]
      else Scans(events[..n])
  }

  lemma {:induction false} HeldIsOfScans(events: seq<Event>)
    ensures AfterAll(events).held == After(Scans(events))
  {
    if events != [] {
      var n := |events| - 1;
      HeldIsOfScans(events[..n]);
      if events[n].Qr? && !Resets(events[n]) {
        var read := Read(events[n].code, events[n].timeout, events[n].at);
        assert (Scans(events[..n]) + [read])[..|Scans(events[..n])|] == Scans(events[..n]);
      }
    }
  }

  lemma LastCodeStays(events: seq<Event>, i: nat)
    requires events != [] && i < |events| - 1 && !Resets(events[|events| - 1])
    requires !(events[|events| - 1].Code? && events[|events| - 1].code != "")
    ensures IsLastCode(events, i) <==> IsLastCode(events[..|events| - 1], i)
  {
    var front := events[..|events| - 1];
    assert forall j :: 0 <= j < |front| ==> front[j] == events[j];
    if IsLastCode(front, i) {
      forall j | i < j < |events|
        ensures !Resets(events[j]) && !(events[j].Code? && events[j].code != "")
      {
        assert j < |front| ==> events[j] == front[j];
      }
    }
  }

  lemma {:induction false} CodeIsLast(events: seq<Event>)
    ensures AfterAll(events).code != "" ==> exists i: nat :: IsLastCode(events, i) && AfterAll(events).code == events[i].code
    ensures forall i: nat :: IsLastCode(events, i) ==> AfterAll(events).code == events[i].code
  {
    if events != [] {
      var n := |events| - 1;
      CodeIsLast(events[..n]);
      if events[n].Code? && events[n].code != "" {
        assert IsLastCode(events, n);
        forall i: nat | IsLastCode(events, i)
          ensures i == n
        {
        }
      } else if !Resets(events[n]) {
        forall i: nat | i < n
          ensures IsLastCode(events, i) <==> IsLastCode(events[..n], i)
        {
          LastCodeStays(events, i);
        }
        if AfterAll(events).code != "" {
          var i: nat :| IsLastCode(events[..n], i) && AfterAll(events[..n]).code == events[..n][i].code;
          assert IsLastCode(events, i);
        }
      }
    }
  }

  // Whoever joins a pairing by code is shown the last pairing code that was kept, and nothing if there was
  // none since everything was last forgotten.
  lemma JoinerSeesLastCode(events: seq<Event>, now: int)
    ensures match Shown(true, AfterAll(events), now)
            case Some(code) => exists i: nat :: IsLastCode(events, i) && events[i].code == code
            case None => !exists i: nat :: IsLastCode(events, i)
  {
    CodeIsLast(events);
  }

  // Whoever joins a pairing by QR code is shown the code last read for as long as it is truly valid, and
  // longer only by as much as the first one since everything was last forgotten was read late.
  lemma JoinerSeesValidCode(events: seq<Event>, first: int, now: int)
    requires Scans(events) != [] && Rotates(first, Scans(events))
    ensures var scans := Scans(events); var k := |scans| - 1;
      var ends := Emission(first, scans, k) + scans[k].timeout;
      && (now < ends ==> Shown(false, AfterAll(events), now) == Some(scans[k].code))
      && (now >= ends + (scans[0].at - first) ==> Shown(false, AfterAll(events), now) == None)
  {
    var scans := Scans(events);
    HeldIsOfScans(events);
    ValidCodesAreShown(first, scans, |scans| - 1, now);
    assert scans[..|scans|] == scans;
  }

  // Nothing is shown before the first code and after everything was forgotten.
  lemma JoinerSeesNothing(events: seq<Event>, now: int)
    requires Scans(events) == []
    ensures Shown(false, AfterAll(events), now) == None
  {
    HeldIsOfScans(events);
  }
}
