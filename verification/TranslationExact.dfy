// Which messages of a chunk become candidates, and which are counted instead, said of the messages
// themselves.
module TranslationExact {
  import Batches
  import opened Options
  import opened Translation
  import Sequences

  // Parsed, with a message in it, and not an edit of another one.
  predicate Readable(e: Entry) {
    e.parsed && e.hasMessage && !e.edit
  }

  predicate HasChat(c: Conversation) {
    c.private && c.phone != ""
  }

  // The positions, in ascending order.
  ghost predicate Lists(at: seq<nat>, which: set<nat>) {
    && (forall j, k :: 0 <= j < k < |at| ==> at[j] < at[k])
    && (forall i :: i in at <==> i in which)
  }

  lemma OneMore(at: seq<nat>, which: set<nat>, n: nat)
    requires Lists(at, which) && forall i :: i in which ==> i < n
    ensures Lists(at + [n], which + {n})
  {
    forall j | 0 <= j < |at|
      ensures at[j] < n
    {
      assert at[j] in at;
    }
  }

  // The readable messages from inside the window.
  ghost function UsableAt(entries: seq<Entry>, oldest: int): set<nat> {
    set i: nat | i < |entries| && Readable(entries[i]) && entries[i].at >= oldest
  }

  ghost predicate AreEvents(events: seq<Event>, entries: seq<Entry>, at: seq<nat>) {
    |events| == |at| && forall j :: 0 <= j < |at| ==> at[j] < |entries| && events[j] == entries[at[j]].event
  }

  lemma UsableAtLast(entries: seq<Entry>, oldest: int)
    requires entries != []
    ensures var n := |entries| - 1;
      UsableAt(entries, oldest)
      == UsableAt(entries[..n], oldest) + if Readable(entries[n]) && entries[n].at >= oldest then {n as nat} else {}
  {
  }

  // The candidates of a conversation are its readable messages from inside the window, in their order.
  lemma {:induction false} UsableExactly(entries: seq<Entry>, oldest: int, events: seq<Event>) returns (at: seq<nat>)
    requires events == Usable(entries, oldest)
    ensures Lists(at, UsableAt(entries, oldest)) && AreEvents(events, entries, at)
  {
    at := [];
    if entries != [] {
      var n := |entries| - 1;
      at := UsableExactly(entries[..n], oldest, Usable(entries[..n], oldest));
      UsableAtLast(entries, oldest);
      if Readable(entries[n]) && entries[n].at >= oldest {
        OneMore(at, UsableAt(entries[..n], oldest), n);
        at := at + [n];
      }
    }
  }

  // The private conversations, with or without a phone.
  ghost function ChatsAt(convs: seq<Conversation>, phone: bool): set<nat> {
    set i: nat | i < |convs| && convs[i].private && (convs[i].phone != "" <==> phone)
  }

  lemma ChatsAtLast(convs: seq<Conversation>, phone: bool)
    requires convs != []
    ensures var n := |convs| - 1;
      ChatsAt(convs, phone)
      == ChatsAt(convs[..n], phone) + if convs[n].private && (convs[n].phone != "" <==> phone) then {n as nat} else {}
  {
  }

  function HeaderOf(c: Conversation): Batches.Chat {
    Batches.Chat(c.phone, if c.lid == "" then None else Some(c.lid), None, [])
  }

  ghost predicate AreHeaders(headers: seq<Batches.Chat>, convs: seq<Conversation>, at: seq<nat>) {
    |headers| == |at| && forall j :: 0 <= j < |at| ==> at[j] < |convs| && headers[j] == HeaderOf(convs[at[j]])
  }

  // The chats of a chunk are its private conversations whose phone is known, in their order.
  lemma {:induction false} HeadersExactly(convs: seq<Conversation>, headers: seq<Batches.Chat>) returns (at: seq<nat>)
    requires headers == Headers(convs)
    ensures Lists(at, ChatsAt(convs, true)) && AreHeaders(headers, convs, at)
  {
    at := [];
    if convs != [] {
      var n := |convs| - 1;
      at := HeadersExactly(convs[..n], Headers(convs[..n]));
      ChatsAtLast(convs, true);
      if HasChat(convs[n]) {
        OneMore(at, ChatsAt(convs[..n], true), n);
        at := at + [n];
      }
    }
  }

  ghost predicate AreIds(ids: seq<string>, convs: seq<Conversation>, at: seq<nat>) {
    |ids| == |at| && forall j :: 0 <= j < |at| ==> at[j] < |convs| && ids[j] == convs[at[j]].id
  }

  // The chats reported as without a phone are the private ones that have none.
  lemma {:induction false} WithoutPhoneExactly(convs: seq<Conversation>, ids: seq<string>) returns (at: seq<nat>)
    requires ids == WithoutPhone(convs)
    ensures Lists(at, ChatsAt(convs, false)) && AreIds(ids, convs, at)
  {
    at := [];
    if convs != [] {
      var n := |convs| - 1;
      at := WithoutPhoneExactly(convs[..n], WithoutPhone(convs[..n]));
      ChatsAtLast(convs, false);
      if convs[n].private && convs[n].phone == "" {
        OneMore(at, ChatsAt(convs[..n], false), n);
        at := at + [n];
      }
    }
  }

  // ---- Counts ----

  // The messages of a conversation that are too old.
  ghost function OldOnes(entries: seq<Entry>, oldest: int): set<nat> {
    set i: nat | i < |entries| && Readable(entries[i]) && entries[i].at < oldest
  }

  lemma {:induction false} OldInCounts(entries: seq<Entry>, oldest: int)
    ensures OldIn(entries, oldest) == |OldOnes(entries, oldest)|
  {
    if entries != [] {
      var n := |entries| - 1;
      OldInCounts(entries[..n], oldest);
      var last := if Readable(entries[n]) && entries[n].at < oldest then {n as nat} else {};
      assert OldOnes(entries, oldest) == OldOnes(entries[..n], oldest) + last;
    }
  }

  // The messages of the chunk that are out of the window, by conversation and position.
  ghost function OldInChunk(convs: seq<Conversation>, oldest: int): set<(nat, nat)> {
    set i: nat, j: nat | i < |convs| && HasChat(convs[i]) && j < |convs[i].entries| && j in OldOnes(convs[i].entries, oldest) :: (i, j)
  }

  ghost function Pairs(i: nat, js: set<nat>): set<(nat, nat)> {
    set j | j in js :: (i, j)
  }

  lemma {:induction false} PairsCount(i: nat, js: set<nat>)
    ensures |Pairs(i, js)| == |js|
    decreases js
  {
    if js != {} {
      var j :| j in js;
      PairsCount(i, js - {j});
      assert Pairs(i, js) == Pairs(i, js - {j}) + {(i, j)};
      assert (i, j) !in Pairs(i, js - {j});
    }
  }

  // What is counted as out of the window is exactly the readable messages of chats that are too old.
  lemma {:induction false} OutOfWindowExactly(convs: seq<Conversation>, oldest: int)
    ensures OutOfWindow(convs, oldest) == |OldInChunk(convs, oldest)|
  {
    if convs == [] {
      assert OldInChunk(convs, oldest) == {};
    } else {
      var n := |convs| - 1;
      OutOfWindowExactly(convs[..n], oldest);
      OldInCounts(convs[n].entries, oldest);
      var js := if HasChat(convs[n]) then OldOnes(convs[n].entries, oldest) else {};
      PairsCount(n, js);
      LastOld(convs, oldest, js);
    }
  }

  lemma LastOld(convs: seq<Conversation>, oldest: int, js: set<nat>)
    requires convs != [] && js == if HasChat(convs[|convs| - 1]) then OldOnes(convs[|convs| - 1].entries, oldest) else {}
    ensures var n := |convs| - 1;
      && OldInChunk(convs, oldest) == OldInChunk(convs[..n], oldest) + Pairs(n, js)
      && OldInChunk(convs[..n], oldest) !! Pairs(n, js)
  {
  }

  // Everything that is neither a candidate nor out of the window, in a chat or in a conversation that is not
  // private, is counted as skipped; with the candidates that could not be built these are all.
  lemma SkippedIsTheRest(convs: seq<Conversation>, oldest: int, built: seq<Option<Built>>)
    requires |built| == |Candidates(convs, oldest)| && Translated(convs, oldest, built).Some?
    ensures var r := Translated(convs, oldest, built).value;
      && r.outOfWindow == |OldInChunk(convs, oldest)|
      && r.skipped == Total(convs) - |built| - r.outOfWindow - TotalWithoutPhone(convs) + Failures(built)
  {
    OutOfWindowExactly(convs, oldest);
    ConversationsAddUp(convs, oldest);
  }

  // ---- Failure ----

  predicate CannotEncode(b: Option<Built>) {
    b.Some? && b.value.encoded.None?
  }

  lemma {:induction false} EncodedExactly(built: seq<Built>)
    ensures Encoded(built).None? <==> exists i :: 0 <= i < |built| && built[i].encoded.None?
  {
    if built != [] {
      EncodedExactly(built[..|built| - 1]);
    }
  }

  lemma {:induction false} OutsExactly(built: seq<Option<Built>>)
    ensures (exists i :: 0 <= i < |Outs(built)| && Outs(built)[i].encoded.None?) <==> exists n :: 0 <= n < |built| && CannotEncode(built[n])
  {
    if built != [] {
      var n := |built| - 1;
      var front := Outs(built[..n]);
      OutsExactly(built[..n]);
      if i :| 0 <= i < |Outs(built)| && Outs(built)[i].encoded.None? {
        if i < |front| {
          assert Outs(built)[i] == front[i];
        } else {
          assert CannotEncode(built[n]);
        }
      }
      if i :| 0 <= i < |front| && front[i].encoded.None? {
        assert Outs(built)[i] == front[i];
      }
      if CannotEncode(built[n]) {
        assert Outs(built)[|front|] == built[n].value;
      }
    }
  }

  ghost predicate RowFails(row: seq<Built>) {
    exists i :: 0 <= i < |row| && row[i].encoded.None?
  }

  lemma {:induction false} ChatsFailExactly(headers: seq<Batches.Chat>, table: seq<seq<Built>>)
    requires |headers| == |table|
    ensures ChatsOf(headers, table).None? <==> exists h :: 0 <= h < |table| && RowFails(table[h])
  {
    if headers != [] {
      var n := |headers| - 1;
      ChatsFailExactly(headers[..n], table[..n]);
      EncodedExactly(table[n]);
      if h :| 0 <= h < n && RowFails(table[..n][h]) {
        assert RowFails(table[h]);
      }
      if h :| 0 <= h < |table| && RowFails(table[h]) {
        assert h < n ==> RowFails(table[..n][h]);
      }
    }
  }

  lemma {:induction false} TableFailsExactly(convs: seq<Conversation>, oldest: int, built: seq<Option<Built>>, table: seq<seq<Built>>)
    requires |built| == |Candidates(convs, oldest)| && table == Table(convs, oldest, built)
    ensures (exists h :: 0 <= h < |table| && RowFails(table[h])) <==> exists n :: 0 <= n < |built| && CannotEncode(built[n])
  {
    if convs != [] {
      var m := |convs| - 1;
      var k := |Candidates(convs[..m], oldest)|;
      var front := Table(convs[..m], oldest, built[..k]);
      TableFailsExactly(convs[..m], oldest, built[..k], front);
      OutsExactly(built[k..]);
      TableFailsLast(convs, oldest, built, table, front, k);
    }
  }

  lemma TableFailsLast(convs: seq<Conversation>, oldest: int, built: seq<Option<Built>>, table: seq<seq<Built>>, front: seq<seq<Built>>, k: nat)
    requires convs != [] && k <= |built| && (!Kept(convs[|convs| - 1]) ==> k == |built|)
    requires table == front + if Kept(convs[|convs| - 1]) then [Outs(built[k..])] else []
    requires (exists h :: 0 <= h < |front| && RowFails(front[h])) <==> exists n :: 0 <= n < k && CannotEncode(built[..k][n])
    requires RowFails(Outs(built[k..])) <==> exists n :: 0 <= n < |built[k..]| && CannotEncode(built[k..][n])
    ensures (exists h :: 0 <= h < |table| && RowFails(table[h])) <==> exists n :: 0 <= n < |built| && CannotEncode(built[n])
  {
    if h :| 0 <= h < |table| && RowFails(table[h]) {
      if h < |front| {
        assert RowFails(front[h]);
        var n :| 0 <= n < k && CannotEncode(built[..k][n]);
        assert CannotEncode(built[n]);
      } else {
        var n :| 0 <= n < |built[k..]| && CannotEncode(built[k..][n]);
        assert CannotEncode(built[k + n]);
      }
    }
    if n :| 0 <= n < |built| && CannotEncode(built[n]) {
      if n < k {
        assert CannotEncode(built[..k][n]);
        var h :| 0 <= h < |front| && RowFails(front[h]);
        assert RowFails(table[h]);
      } else {
        assert CannotEncode(built[k..][n - k]);
        assert RowFails(table[|front|]);
      }
    }
  }

  // A chunk is given up exactly when a message that was built cannot be encoded.
  lemma FailsExactly(convs: seq<Conversation>, oldest: int, built: seq<Option<Built>>)
    requires |built| == |Candidates(convs, oldest)|
    ensures Translated(convs, oldest, built).None? <==> exists n :: 0 <= n < |built| && CannotEncode(built[n])
  {
    ChatsFailExactly(Headers(convs), Table(convs, oldest, built));
    TableFailsExactly(convs, oldest, built, Table(convs, oldest, built));
  }
}
