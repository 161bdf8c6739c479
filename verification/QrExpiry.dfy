// How long a retained QR code is shown (internal/session/manager.go). The broker of codes says how long
// a code lives but not when it was emitted, so the emission is estimated from the times of reading.
module QrExpiry {
  import opened Options

  // The retained code; without one there is no emission time either.
  datatype Held = Held(code: string, emitted: Option<int>, lifetime: int)

  const NOTHING := Held("", None, 0)

  // The code to show at a time, if it is still valid by the estimate.
  function ValidCode(h: Held, now: int): Option<string> {
    if h.code == "" || (h.emitted.Some? && now >= h.emitted.value + h.lifetime) then None else Some(h.code)
  }

  // A code that arrives counts as emitted now, or when the one before it ran out if that was earlier.
  function Estimate(h: Held, now: int): int {
    if h.emitted.Some? && h.emitted.value + h.lifetime < now then h.emitted.value + h.lifetime else now
  }

  // What is retained of a code read now, and whether it is shown.
  function Retain(h: Held, code: string, timeout: int, now: int): (Held, bool) {
    if code == "" || timeout <= 0 then (NOTHING, code != "")
    else
      var emitted := Estimate(h, now);
      (Held(code, Some(emitted), timeout), now < emitted + timeout)
  }

  // ---- A run of rotations ----

  datatype Read = Read(code: string, timeout: int, at: int)

  // What is retained after all reads of a pairing.
  function After(scans: seq<Read>): Held {
    if scans == [] then NOTHING
    else var last := scans[|scans| - 1]; Retain(After(scans[..|scans| - 1]), last.code, last.timeout, last.at).0
  }

  // When code k was truly emitted: each one when the one before it ran out.
  function Emission(first: int, scans: seq<Read>, k: nat): int
    requires k < |scans|
  {
    if k == 0 then first else Emission(first, scans, k - 1) + scans[k - 1].timeout
  }

  // Codes are real, live for a while and are never read before they are emitted.
  ghost predicate Rotates(first: int, scans: seq<Read>) {
    forall k :: 0 <= k < |scans| ==> RotatesAt(first, scans, k)
  }

  ghost predicate RotatesAt(first: int, scans: seq<Read>, k: nat)
    requires k < |scans|
  {
    scans[k].code != "" && scans[k].timeout > 0 && Emission(first, scans, k) <= scans[k].at
  }

  lemma {:induction false} EmissionOfFront(first: int, scans: seq<Read>, n: nat, k: nat)
    requires k < n <= |scans|
    ensures Emission(first, scans[..n], k) == Emission(first, scans, k)
    decreases k
  {
    if k > 0 {
      EmissionOfFront(first, scans, n, k - 1);
    }
  }

  // How late the estimate of code k is.
  ghost function Lateness(first: int, scans: seq<Read>, k: nat): int
    requires k < |scans| && After(scans[..k + 1]).emitted.Some?
  {
    After(scans[..k + 1]).emitted.value - Emission(first, scans, k)
  }

  lemma {:induction false} EstimateIsRetained(first: int, scans: seq<Read>, k: nat)
    requires Rotates(first, scans) && k < |scans|
    ensures var h := After(scans[..k + 1]);
      && h.code == scans[k].code && h.lifetime == scans[k].timeout && h.emitted.Some?
      && h.emitted.value == Estimate(After(scans[..k]), scans[k].at)
  {
    assert RotatesAt(first, scans, k);
    assert scans[..k + 1][..k] == scans[..k];
  }

  // From one code to the next.
  lemma ErrorStep(first: int, scans: seq<Read>, k: nat)
    requires Rotates(first, scans) && k + 1 < |scans| && After(scans[..k + 1]).emitted.Some? && Lateness(first, scans, k) >= 0
    ensures After(scans[..k + 2]).emitted.Some? && 0 <= Lateness(first, scans, k + 1) <= Lateness(first, scans, k)
  {
    EstimateIsRetained(first, scans, k);
    EstimateIsRetained(first, scans, k + 1);
    assert RotatesAt(first, scans, k + 1);
  }

  lemma {:induction false} EstimateNeverEarly(first: int, scans: seq<Read>, k: nat)
    requires Rotates(first, scans) && k < |scans|
    ensures After(scans[..k + 1]).emitted.Some? && Lateness(first, scans, k) >= 0
    decreases k
  {
    EstimateIsRetained(first, scans, k);
    if k == 0 {
      assert RotatesAt(first, scans, 0) && scans[..0] == [];
    } else {
      EstimateNeverEarly(first, scans, k - 1);
      ErrorStep(first, scans, k - 1);
    }
  }

  // The estimate never precedes the emission, and its error never grows from one code to the next.
  lemma {:induction false} ErrorNeverGrows(first: int, scans: seq<Read>, j: nat, k: nat)
    requires Rotates(first, scans) && j <= k < |scans|
    ensures After(scans[..j + 1]).emitted.Some? && After(scans[..k + 1]).emitted.Some?
    ensures 0 <= Lateness(first, scans, k) <= Lateness(first, scans, j)
    decreases k
  {
    EstimateNeverEarly(first, scans, k);
    if j < k {
      ErrorNeverGrows(first, scans, j, k - 1);
      ErrorStep(first, scans, k - 1);
    }
  }

  // A code that is truly valid is always shown when it is read and replayed to whoever joins; one that
  // is not may be shown for as long as the first one was read late, and no longer.
  lemma ValidCodesAreShown(first: int, scans: seq<Read>, k: nat, now: int)
    requires Rotates(first, scans) && k < |scans|
    ensures var h, ends := After(scans[..k + 1]), Emission(first, scans, k) + scans[k].timeout;
      var late := scans[0].at - first;
      && (now < ends ==> ValidCode(h, now) == Some(scans[k].code))
      && (now >= ends + late ==> ValidCode(h, now) == None)
  {
    ErrorNeverGrows(first, scans, 0, k);
    EstimateIsRetained(first, scans, k);
    EstimateIsRetained(first, scans, 0);
    assert After(scans[..0]) == NOTHING;
  }

  // When the first code was read on time the estimate is exact: every code is shown on reading, and
  // replayed at any later time, exactly while it is truly valid.
  lemma ShownExactlyWhileValid(first: int, scans: seq<Read>, k: nat, now: int)
    requires Rotates(first, scans) && k < |scans| && scans[0].at == first
    ensures var ends := Emission(first, scans, k) + scans[k].timeout;
      && Retain(After(scans[..k]), scans[k].code, scans[k].timeout, scans[k].at).1 == (scans[k].at < ends)
      && ValidCode(After(scans[..k + 1]), now) == if now < ends then Some(scans[k].code) else None
  {
    ValidCodesAreShown(first, scans, k, now);
    ErrorNeverGrows(first, scans, 0, k);
    EstimateIsRetained(first, scans, k);
    EstimateIsRetained(first, scans, 0);
    assert After(scans[..0]) == NOTHING;
    assert RotatesAt(first, scans, k);
  }
}
