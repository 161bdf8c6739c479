// The translation of a history chunk (internal/history/translate.go): conversations become chats, every
// message is batched, counted as skipped or as out of the window, or left with a chat that has no phone.
module Translation {
  import Batches
  import opened Options
  import Sequences

  // Parsed events are known by their identity alone.
  type Event = nat

  // A message of a conversation as the source parses it.
  datatype Entry = Entry(parsed: bool, hasMessage: bool, edit: bool, at: int, event: Event)

  // A conversation with what resolving its sender gave; no phone is the empty string.
  datatype Conversation = Conversation(id: string, private: bool, phone: string, lid: string, entries: seq<Entry>)

  // A candidate and the position of its chat among the headers.
  datatype Candidate = Candidate(chat: nat, event: Event)

  // What building a candidate gave; the encoded message is missing when it cannot be encoded.
  datatype Built = Built(encoded: Option<string>, profileName: string)

  datatype Result = Result(chats: seq<Batches.Chat>, messages: nat, outOfWindow: nat, skipped: nat, withoutPhone: seq<string>)

  predicate Unusable(e: Entry) {
    !e.parsed || !e.hasMessage || e.edit
  }

  predicate Kept(c: Conversation) {
    c.private && c.phone != ""
  }

  function Optional(value: string): Option<string> {
    if value == "" then None else Some(value)
  }

  // ---- What the chunk holds ----

  function Usable(entries: seq<Entry>, oldest: int): seq<Event> {
    if entries == [] then []
    else
      var n := |entries| - 1;
      Usable(entries[..n], oldest) + if Unusable(entries[n]) || entries[n].at < oldest then [] else [entries[n].event]
  }

  function UnusableIn(entries: seq<Entry>): nat {
    if entries == [] then 0
    else var n := |entries| - 1; UnusableIn(entries[..n]) + if Unusable(entries[n]) then 1 else 0
  }

  function OldIn(entries: seq<Entry>, oldest: int): nat {
    if entries == [] then 0
    else var n := |entries| - 1; OldIn(entries[..n], oldest) + if !Unusable(entries[n]) && entries[n].at < oldest then 1 else 0
  }

  function Headers(convs: seq<Conversation>): seq<Batches.Chat> {
    if convs == [] then []
    else
      var n := |convs| - 1;
      Headers(convs[..n]) + if Kept(convs[n]) then [Batches.Chat(convs[n].phone, Optional(convs[n].lid), None, [])] else []
  }

  function Tagged(chat: nat, events: seq<Event>): (r: seq<Candidate>)
    ensures |r| == |events|
    ensures forall i :: 0 <= i < |r| ==> r[i] == Candidate(chat, events[i])
  {
    seq(|events|, i requires 0 <= i < |events| => Candidate(chat, events[i]))
  }

  function CandidatesOf(c: Conversation, chat: nat, oldest: int): seq<Candidate> {
    if Kept(c) then Tagged(chat, Usable(c.entries, oldest)) else []
  }

  function Candidates(convs: seq<Conversation>, oldest: int): seq<Candidate> {
    if convs == [] then []
    else var n := |convs| - 1; Candidates(convs[..n], oldest) + CandidatesOf(convs[n], |Headers(convs[..n])|, oldest)
  }

  function SkippedIn(convs: seq<Conversation>): nat {
    if convs == [] then 0
    else
      var n := |convs| - 1;
      SkippedIn(convs[..n]) + if !convs[n].private then |convs[n].entries| else if Kept(convs[n]) then UnusableIn(convs[n].entries) else 0
  }

  function OutOfWindow(convs: seq<Conversation>, oldest: int): nat {
    if convs == [] then 0
    else var n := |convs| - 1; OutOfWindow(convs[..n], oldest) + if Kept(convs[n]) then OldIn(convs[n].entries, oldest) else 0
  }

  function WithoutPhone(convs: seq<Conversation>): seq<string> {
    if convs == [] then []
    else var n := |convs| - 1; WithoutPhone(convs[..n]) + if convs[n].private && convs[n].phone == "" then [convs[n].id] else []
  }

  // ---- What building makes of it ----

  function Outs(built: seq<Option<Built>>): seq<Built> {
    if built == [] then []
    else var n := |built| - 1; Outs(built[..n]) + if built[n].Some? then [built[n].value] else []
  }

  function Failures(built: seq<Option<Built>>): nat {
    if built == [] then 0
    else var n := |built| - 1; Failures(built[..n]) + if built[n].Some? then 0 else 1
  }

  // For each kept conversation what was built of its own messages, in their order.
  function Table(convs: seq<Conversation>, oldest: int, built: seq<Option<Built>>): (r: seq<seq<Built>>)
    requires |built| == |Candidates(convs, oldest)|
    ensures |r| == |Headers(convs)|
  {
    if convs == [] then []
    else
      var n := |convs| - 1;
      var k := |Candidates(convs[..n], oldest)|;
      Table(convs[..n], oldest, built[..k]) + if Kept(convs[n]) then [Outs(built[k..])] else []
  }

  function ProfileName(built: seq<Built>): Option<string> {
    if built == [] then None
    else
      var before := ProfileName(built[..|built| - 1]);
      if before.Some? then before else Optional(built[|built| - 1].profileName)
  }

  // The profile name of a chat is the first one that is known.
  lemma {:induction false} ProfileNameIsFirst(built: seq<Built>)
    ensures ProfileName(built).None? <==> forall i :: 0 <= i < |built| ==> built[i].profileName == ""
    ensures ProfileName(built).Some? ==>
              exists i :: 0 <= i < |built| && built[i].profileName == ProfileName(built).value != ""
                && forall j :: 0 <= j < i ==> built[j].profileName == ""
  {
    if built != [] {
      ProfileNameIsFirst(built[..|built| - 1]);
    }
  }

  function Encoded(built: seq<Built>): Option<seq<string>> {
    if built == [] then Some([])
    else
      var n := |built| - 1;
      var before := Encoded(built[..n]);
      if before.None? || built[n].encoded.None? then None else Some(before.value + [built[n].encoded.value])
  }

  // The chats that got a message, with the first profile name that is known.
  function ChatsOf(headers: seq<Batches.Chat>, table: seq<seq<Built>>): Option<seq<Batches.Chat>>
    requires |headers| == |table|
  {
    if headers == [] then Some([])
    else
      var n := |headers| - 1;
      var before := ChatsOf(headers[..n], table[..n]);
      if before.None? || table[n] == [] then before
      else
        var messages := Encoded(table[n]);
        if messages.None? then None
        else Some(before.value + [headers[n].(profileName := ProfileName(table[n]), messages := messages.value)])
  }

  function CountMessages(chats: seq<Batches.Chat>): nat {
    if chats == [] then 0 else CountMessages(chats[..|chats| - 1]) + |chats[|chats| - 1].messages|
  }

  function Translated(convs: seq<Conversation>, oldest: int, built: seq<Option<Built>>): Option<Result>
    requires |built| == |Candidates(convs, oldest)|
  {
    var chats := ChatsOf(Headers(convs), Table(convs, oldest, built));
    if chats.None? then None
    else Some(Result(chats.value, CountMessages(chats.value), OutOfWindow(convs, oldest), SkippedIn(convs) + Failures(built), WithoutPhone(convs)))
  }

  // ---- The translation, pass by pass ----

  method ScanEntries(entries: seq<Entry>, chat: nat, oldest: int) returns (candidates: seq<Candidate>, outOfWindow: nat, skipped: nat)
    ensures candidates == Tagged(chat, Usable(entries, oldest))
    ensures outOfWindow == OldIn(entries, oldest) && skipped == UnusableIn(entries)
  {
    candidates, outOfWindow, skipped := [], 0, 0;
    for i := 0 to |entries|
      invariant candidates == Tagged(chat, Usable(entries[..i], oldest))
      invariant outOfWindow == OldIn(entries[..i], oldest) && skipped == UnusableIn(entries[..i])
    {
      var e := entries[i];
      assert entries[..i + 1][..i] == entries[..i];
      if !e.parsed || !e.hasMessage || e.edit {
        skipped := skipped + 1;
      } else if e.at < oldest {
        outOfWindow := outOfWindow + 1;
      } else {
        candidates := candidates + [Candidate(chat, e.event)];
      }
    }
    assert entries[..|entries|] == entries;
  }

  method Scan(convs: seq<Conversation>, oldest: int)
      returns (headers: seq<Batches.Chat>, candidates: seq<Candidate>, outOfWindow: nat, skipped: nat, withoutPhone: seq<string>)
    ensures headers == Headers(convs) && candidates == Candidates(convs, oldest)
    ensures outOfWindow == OutOfWindow(convs, oldest) && skipped == SkippedIn(convs) && withoutPhone == WithoutPhone(convs)
  {
    headers, candidates, outOfWindow, skipped, withoutPhone := [], [], 0, 0, [];
    for i := 0 to |convs|
      invariant headers == Headers(convs[..i]) && candidates == Candidates(convs[..i], oldest)
      invariant outOfWindow == OutOfWindow(convs[..i], oldest) && skipped == SkippedIn(convs[..i])
      invariant withoutPhone == WithoutPhone(convs[..i])
    {
      var c := convs[i];
      assert convs[..i + 1][..i] == convs[..i];
      if !c.private {
        skipped := skipped + |c.entries|;
        continue;
      }
      if c.phone == "" {
        withoutPhone := withoutPhone + [c.id];
        continue;
      }
      var more, outside, unusable := ScanEntries(c.entries, |headers|, oldest);
      headers := headers + [Batches.Chat(c.phone, Optional(c.lid), None, [])];
      candidates := candidates + more;
      outOfWindow, skipped := outOfWindow + outside, skipped + unusable;
    }
    assert convs[..|convs|] == convs;
  }

  ghost predicate HaveHeaders(candidates: seq<Candidate>, headers: nat) {
    forall i :: 0 <= i < |candidates| ==> candidates[i].chat < headers
  }

  // The buckets of the chats after the first candidates were put in, each into the one of its chat.
  function Buckets(chats: nat, candidates: seq<Candidate>, built: seq<Option<Built>>): (r: seq<seq<Built>>)
    requires |built| == |candidates| && HaveHeaders(candidates, chats)
    ensures |r| == chats
  {
    if candidates == [] then Empty(chats)
    else
      var n := |candidates| - 1;
      var before := Buckets(chats, candidates[..n], built[..n]);
      if built[n].None? then before else Put(before, candidates[n].chat, built[n].value)
  }

  function Empty(chats: nat): (r: seq<seq<Built>>)
    ensures |r| == chats && forall i :: 0 <= i < chats ==> r[i] == []
  {
    if chats == 0 then [] else Empty(chats - 1) + [[]]
  }

  function Put(buckets: seq<seq<Built>>, chat: nat, value: Built): (r: seq<seq<Built>>)
    requires chat < |buckets|
    ensures |r| == |buckets|
  {
    buckets[chat := buckets[chat] + [value]]
  }

  method Fill(chats: nat, candidates: seq<Candidate>, built: seq<Option<Built>>) returns (buckets: seq<seq<Built>>, failed: nat)
    requires |built| == |candidates| && HaveHeaders(candidates, chats)
    ensures buckets == Buckets(chats, candidates, built) && failed == Failures(built)
  {
    buckets, failed := Empty(chats), 0;
    for n := 0 to |candidates|
      invariant buckets == Buckets(chats, candidates[..n], built[..n]) && failed == Failures(built[..n])
    {
      assert candidates[..n + 1][..n] == candidates[..n] && built[..n + 1][..n] == built[..n];
      if built[n].None? {
        failed := failed + 1;
        continue;
      }
      buckets := buckets[candidates[n].chat := buckets[candidates[n].chat] + [built[n].value]];
    }
    assert candidates[..|candidates|] == candidates && built[..|built|] == built;
  }

  method WithMessages(header: Batches.Chat, built: seq<Built>) returns (chat: Option<Batches.Chat>)
    requires header.profileName.None?
    ensures chat == if Encoded(built).None? then None
                    else Some(header.(profileName := ProfileName(built), messages := Encoded(built).value))
  {
    var profileName, messages := None, [];
    for i := 0 to |built|
      invariant profileName == ProfileName(built[..i]) && Encoded(built[..i]) == Some(messages)
    {
      assert built[..i + 1][..i] == built[..i];
      if profileName.None? {
        profileName := Optional(built[i].profileName);
      }
      if built[i].encoded.None? {
        NeverEncoded(built, i + 1);
        return None;
      }
      messages := messages + [built[i].encoded.value];
    }
    assert built[..|built|] == built;
    chat := Some(header.(profileName := profileName, messages := messages));
  }

  lemma {:induction false} NeverEncoded(built: seq<Built>, i: nat)
    requires i <= |built| && Encoded(built[..i]).None?
    ensures Encoded(built).None?
    decreases |built| - i
  {
    if i < |built| {
      assert built[..i + 1][..i] == built[..i];
      NeverEncoded(built, i + 1);
    } else {
      assert built[..i] == built;
    }
  }

  lemma TranslatedByPasses(convs: seq<Conversation>, oldest: int, built: seq<Option<Built>>, headers: seq<Batches.Chat>,
                           candidates: seq<Candidate>)
    requires candidates == Candidates(convs, oldest) && headers == Headers(convs) && |built| == |candidates|
    ensures HaveHeaders(candidates, |headers|) && Bare(headers)
    ensures Buckets(|headers|, candidates, built) == Table(convs, oldest, built)
  {
    CandidatesHaveHeaders(convs, oldest);
    HeadersAreBare(convs);
    FilledIsTable(convs, oldest, built);
  }

  method Translate(convs: seq<Conversation>, oldest: int, built: seq<Option<Built>>) returns (result: Option<Result>)
    requires |built| == |Candidates(convs, oldest)|
    ensures result == Translated(convs, oldest, built)
  {
    var headers, candidates, outOfWindow, skipped, withoutPhone := Scan(convs, oldest);
    TranslatedByPasses(convs, oldest, built, headers, candidates);
    var messages, failed := Fill(|headers|, candidates, built);
    var chats, count := Assemble(headers, messages);
    if chats.None? {
      return None;
    }
    result := Some(Result(chats.value, count, outOfWindow, skipped + failed, withoutPhone));
  }

  ghost predicate Bare(headers: seq<Batches.Chat>) {
    forall i :: 0 <= i < |headers| ==> headers[i].profileName.None?
  }

  // The chats of the first n rows, and how many messages they have.
  ghost predicate Assembled(headers: seq<Batches.Chat>, table: seq<seq<Built>>, n: nat, chats: seq<Batches.Chat>, count: nat)
    requires n <= |headers| == |table|
  {
    ChatsOf(headers[..n], table[..n]) == Some(chats) && count == CountMessages(chats)
  }

  lemma NextRow(headers: seq<Batches.Chat>, table: seq<seq<Built>>, n: nat)
    requires n < |headers| == |table|
    ensures var before, messages := ChatsOf(headers[..n], table[..n]), Encoded(table[n]);
      ChatsOf(headers[..n + 1], table[..n + 1])
      == if before.None? || table[n] == [] then before
         else if messages.None? then None
         else Some(before.value + [headers[n].(profileName := ProfileName(table[n]), messages := messages.value)])
  {
    assert headers[..n + 1][..n] == headers[..n] && table[..n + 1][..n] == table[..n];
  }

  lemma CountOneMore(chats: seq<Batches.Chat>, chat: Batches.Chat)
    ensures CountMessages(chats + [chat]) == CountMessages(chats) + |chat.messages|
  {
    Sequences.Front(chats, chat);
  }

  method Assemble(headers: seq<Batches.Chat>, messages: seq<seq<Built>>) returns (chats: Option<seq<Batches.Chat>>, count: nat)
    requires |headers| == |messages| && Bare(headers)
    ensures chats == ChatsOf(headers, messages)
    ensures chats.Some? ==> count == CountMessages(chats.value)
  {
    var list := [];
    count := 0;
    for n := 0 to |headers|
      invariant Assembled(headers, messages, n, list, count)
    {
      NextRow(headers, messages, n);
      if |messages[n]| == 0 {
        continue;
      }
      var chat := WithMessages(headers[n], messages[n]);
      if chat.None? {
        NeverAll(headers, messages, n + 1);
        return None, count;
      }
      CountOneMore(list, chat.value);
      list := list + [chat.value];
      count := count + |chat.value.messages|;
    }
    assert headers[..|headers|] == headers && messages[..|messages|] == messages;
    chats := Some(list);
  }

  lemma {:induction false} NeverAll(headers: seq<Batches.Chat>, table: seq<seq<Built>>, n: nat)
    requires |headers| == |table| && n <= |headers| && ChatsOf(headers[..n], table[..n]).None?
    ensures ChatsOf(headers, table).None?
    decreases |headers| - n
  {
    if n < |headers| {
      assert headers[..n + 1][..n] == headers[..n] && table[..n + 1][..n] == table[..n];
      NeverAll(headers, table, n + 1);
    } else {
      assert headers[..n] == headers && table[..n] == table;
    }
  }

  lemma {:induction false} HeadersAreBare(convs: seq<Conversation>)
    ensures Bare(Headers(convs))
  {
    if convs != [] {
      HeadersAreBare(convs[..|convs| - 1]);
    }
  }

  lemma {:induction false} CandidatesHaveHeaders(convs: seq<Conversation>, oldest: int)
    ensures HaveHeaders(Candidates(convs, oldest), |Headers(convs)|)
  {
    if convs != [] {
      CandidatesHaveHeaders(convs[..|convs| - 1], oldest);
    }
  }

  // ---- The buckets are the conversations ----

  lemma {:induction false} FilledOneMoreChat(chats: nat, candidates: seq<Candidate>, built: seq<Option<Built>>)
    requires |built| == |candidates| && HaveHeaders(candidates, chats)
    ensures Buckets(chats + 1, candidates, built) == Buckets(chats, candidates, built) + [[]]
  {
    if candidates != [] {
      var n := |candidates| - 1;
      FilledOneMoreChat(chats, candidates[..n], built[..n]);
    }
  }

  lemma BucketsOneMore(chats: nat, candidates: seq<Candidate>, built: seq<Option<Built>>, x: Candidate, y: Option<Built>)
    requires |built| == |candidates| && HaveHeaders(candidates, chats) && x.chat < chats
    ensures var before := Buckets(chats, candidates, built);
      Buckets(chats, candidates + [x], built + [y]) == if y.None? then before else Put(before, x.chat, y.value)
  {
    Sequences.Front(candidates, x);
    Sequences.Front(built, y);
  }

  lemma TaggedHaveHeaders(chats: nat, candidates: seq<Candidate>, chat: nat, events: seq<Event>)
    requires HaveHeaders(candidates, chats) && chat < chats
    ensures HaveHeaders(candidates + Tagged(chat, events), chats)
  {
  }

  lemma TaggedLast(candidates: seq<Candidate>, chat: nat, events: seq<Event>)
    requires events != []
    ensures var n := |events| - 1;
      candidates + Tagged(chat, events) == candidates + Tagged(chat, events[..n]) + [Candidate(chat, events[n])]
  {
  }

  lemma {:induction false} FilledInParts(chats: nat, candidates: seq<Candidate>, chat: nat, events: seq<Event>, built: seq<Option<Built>>,
                                         more: seq<Option<Built>>, before: seq<seq<Built>>)
    requires |built| == |candidates| && |more| == |events| && chat < chats && HaveHeaders(candidates, chats)
    requires before == Buckets(chats, candidates, built)
    ensures HaveHeaders(candidates + Tagged(chat, events), chats)
    ensures Buckets(chats, candidates + Tagged(chat, events), built + more) == before[chat := before[chat] + Outs(more)]
    decreases |events|
  {
    TaggedHaveHeaders(chats, candidates, chat, events);
    if events == [] {
      assert candidates + Tagged(chat, events) == candidates && built + more == built;
      assert before[chat] + Outs(more) == before[chat];
    } else {
      var n := |events| - 1;
      FilledInParts(chats, candidates, chat, events[..n], built, more[..n], before);
      TaggedLast(candidates, chat, events);
      Sequences.LastJoins(more);
      Sequences.Regroup(built, more[..n], [more[n]]);
      BucketsOneMore(chats, candidates + Tagged(chat, events[..n]), built + more[..n], Candidate(chat, events[n]), more[n]);
      PutLast(before, chat, Outs(more[..n]), more[n]);
    }
  }

  lemma PutLast(before: seq<seq<Built>>, chat: nat, outs: seq<Built>, last: Option<Built>)
    requires chat < |before|
    ensures var after := before[chat := before[chat] + outs];
      (if last.None? then after else Put(after, chat, last.value))
        == before[chat := before[chat] + (outs + if last.Some? then [last.value] else [])]
  {
    if last.Some? {
      Sequences.Regroup(before[chat], outs, [last.value]);
    } else {
      assert outs + [] == outs;
    }
  }

  lemma PutNew(before: seq<seq<Built>>, outs: seq<Built>)
    ensures var buckets := before + [[]];
      buckets[|before| := buckets[|before|] + outs] == before + [outs]
  {
    assert [] + outs == outs;
  }

  // Putting every candidate into the bucket of its chat gives each conversation its own messages back.
  lemma {:induction false} FilledIsTable(convs: seq<Conversation>, oldest: int, built: seq<Option<Built>>)
    requires |built| == |Candidates(convs, oldest)|
    requires HaveHeaders(Candidates(convs, oldest), |Headers(convs)|)
    ensures Buckets(|Headers(convs)|, Candidates(convs, oldest), built) == Table(convs, oldest, built)
  {
    if convs != [] {
      var n := |convs| - 1;
      var c, front := convs[n], convs[..n];
      var k := |Candidates(front, oldest)|;
      CandidatesHaveHeaders(front, oldest);
      FilledIsTable(front, oldest, built[..k]);
      if Kept(c) {
        var h := |Headers(front)|;
        FilledOneMoreChat(h, Candidates(front, oldest), built[..k]);
        FilledInParts(h + 1, Candidates(front, oldest), h, Usable(c.entries, oldest), built[..k], built[k..],
                      Buckets(h + 1, Candidates(front, oldest), built[..k]));
        Sequences.Halves(built, k);
        var before, outs := Table(front, oldest, built[..k]), Outs(built[k..]);
        PutNew(before, outs);
      } else {
        assert built[..k] == built;
        assert Candidates(convs, oldest) == Candidates(front, oldest);
        assert Headers(convs) == Headers(front);
        assert Table(convs, oldest, built) == Table(front, oldest, built);
      }
    }
  }

  // ---- Conservation ----

  function Total(convs: seq<Conversation>): nat {
    if convs == [] then 0 else Total(convs[..|convs| - 1]) + |convs[|convs| - 1].entries|
  }

  // The messages of the conversations that have no phone.
  function TotalWithoutPhone(convs: seq<Conversation>): nat {
    if convs == [] then 0
    else
      var n := |convs| - 1;
      TotalWithoutPhone(convs[..n]) + if convs[n].private && convs[n].phone == "" then |convs[n].entries| else 0
  }

  lemma {:induction false} EntriesAddUp(entries: seq<Entry>, oldest: int)
    ensures |Usable(entries, oldest)| + UnusableIn(entries) + OldIn(entries, oldest) == |entries|
  {
    if entries != [] {
      EntriesAddUp(entries[..|entries| - 1], oldest);
    }
  }

  lemma {:induction false} ConversationsAddUp(convs: seq<Conversation>, oldest: int)
    ensures |Candidates(convs, oldest)| + SkippedIn(convs) + OutOfWindow(convs, oldest) + TotalWithoutPhone(convs) == Total(convs)
  {
    if convs != [] {
      var n := |convs| - 1;
      ConversationsAddUp(convs[..n], oldest);
      EntriesAddUp(convs[n].entries, oldest);
    }
  }

  lemma {:induction false} OutsAddUp(built: seq<Option<Built>>)
    ensures |Outs(built)| + Failures(built) == |built|
  {
    if built != [] {
      OutsAddUp(built[..|built| - 1]);
    }
  }

  lemma {:induction false} OutsInParts(a: seq<Option<Built>>, b: seq<Option<Built>>)
    ensures Outs(a + b) == Outs(a) + Outs(b)
  {
    if b == [] {
      assert a + b == a;
    } else {
      assert (a + b)[..|a + b| - 1] == a + b[..|b| - 1];
      OutsInParts(a, b[..|b| - 1]);
    }
  }

  function Cells(table: seq<seq<Built>>): nat {
    if table == [] then 0 else Cells(table[..|table| - 1]) + |table[|table| - 1]|
  }

  lemma TableOneMore(convs: seq<Conversation>, oldest: int, built: seq<Option<Built>>)
    requires convs != [] && |built| == |Candidates(convs, oldest)|
    ensures var k := |Candidates(convs[..|convs| - 1], oldest)|;
      && k <= |built|
      && Cells(Table(convs, oldest, built)) == Cells(Table(convs[..|convs| - 1], oldest, built[..k])) + |Outs(built[k..])|
  {
    var n := |convs| - 1;
    var k := |Candidates(convs[..n], oldest)|;
    var before := Table(convs[..n], oldest, built[..k]);
    if Kept(convs[n]) {
      CellsOneMore(before, Outs(built[k..]));
    } else {
      assert built[k..] == [];
      assert before + [] == before;
    }
  }

  lemma {:induction false} TableAddsUp(convs: seq<Conversation>, oldest: int, built: seq<Option<Built>>)
    requires |built| == |Candidates(convs, oldest)|
    ensures Cells(Table(convs, oldest, built)) == |Outs(built)|
  {
    if convs != [] {
      var n := |convs| - 1;
      var k := |Candidates(convs[..n], oldest)|;
      TableOneMore(convs, oldest, built);
      TableAddsUp(convs[..n], oldest, built[..k]);
      OutsInParts(built[..k], built[k..]);
      Sequences.Halves(built, k);
    }
  }

  lemma CellsOneMore(table: seq<seq<Built>>, row: seq<Built>)
    ensures Cells(table + [row]) == Cells(table) + |row|
  {
    Sequences.Front(table, row);
  }

  lemma {:induction false} EncodedAddsUp(built: seq<Built>)
    ensures Encoded(built).Some? ==> |Encoded(built).value| == |built|
  {
    if built != [] {
      EncodedAddsUp(built[..|built| - 1]);
    }
  }

  lemma {:induction false} ChatsAddUp(headers: seq<Batches.Chat>, table: seq<seq<Built>>)
    requires |headers| == |table| && ChatsOf(headers, table).Some?
    ensures CountMessages(ChatsOf(headers, table).value) == Cells(table)
  {
    if headers != [] {
      var n := |headers| - 1;
      ChatsAddUp(headers[..n], table[..n]);
      EncodedAddsUp(table[n]);
      var before, all := ChatsOf(headers[..n], table[..n]).value, ChatsOf(headers, table).value;
      assert table[n] != [] ==> all[..|all| - 1] == before;
    }
  }

  lemma {:induction false} ItemsAddUp(chats: seq<Batches.Chat>)
    ensures |Batches.AllItems(chats)| == CountMessages(chats)
  {
    if chats != [] {
      ItemsAddUp(chats[..|chats| - 1]);
    }
  }

  // Every message of the chunk is accounted for once: it is in a batch, it is too large for one, it is
  // out of the window, it was skipped, or its chat has no phone; whatever the workers built of it.
  lemma ChunkIsConserved(convs: seq<Conversation>, oldest: int, built: seq<Option<Built>>, maxBytes: int, idOf: string -> string)
    requires |built| == |Candidates(convs, oldest)| && Translated(convs, oldest, built).Some?
    ensures var r := Translated(convs, oldest, built).value; var items := Batches.AllItems(r.chats);
      && Total(convs) == |Batches.Kept(items, maxBytes)| + |Batches.TooLarge(items, maxBytes, idOf)|
                         + r.outOfWindow + r.skipped + TotalWithoutPhone(convs)
      && r.messages == |items|
  {
    var r := Translated(convs, oldest, built).value;
    ConversationsAddUp(convs, oldest);
    OutsAddUp(built);
    TableAddsUp(convs, oldest, built);
    ChatsAddUp(Headers(convs), Table(convs, oldest, built));
    ItemsAddUp(r.chats);
    Batches.KeptAndTooLarge(Batches.AllItems(r.chats), maxBytes, idOf);
  }

  // ---- Order ----

  lemma {:induction false} HeadersOfFront(convs: seq<Conversation>, i: nat)
    requires i <= |convs|
    ensures Headers(convs[..i]) <= Headers(convs)
    decreases |convs| - i
  {
    if i == |convs| {
      assert convs[..i] == convs;
    } else {
      assert convs[..i + 1][..i] == convs[..i];
      HeadersOfFront(convs, i + 1);
    }
  }

  lemma {:induction false} CandidatesOfFront(convs: seq<Conversation>, oldest: int, i: nat)
    requires i <= |convs|
    ensures Candidates(convs[..i], oldest) <= Candidates(convs, oldest)
    decreases |convs| - i
  {
    if i == |convs| {
      assert convs[..i] == convs;
    } else {
      assert convs[..i + 1][..i] == convs[..i];
      CandidatesOfFront(convs, oldest, i + 1);
    }
  }

  // The candidates from k on are the usable messages of a conversation in their order, for its chat h.
  ghost predicate OwnCandidates(convs: seq<Conversation>, oldest: int, c: Conversation, h: nat, k: nat) {
    var events := Usable(c.entries, oldest);
    && h < |Headers(convs)|
    && Headers(convs)[h] == Batches.Chat(c.phone, if c.lid == "" then None else Some(c.lid), None, [])
    && k + |events| <= |Candidates(convs, oldest)|
    && Candidates(convs, oldest)[k..k + |events|] == Tagged(h, events)
  }

  lemma HeaderOfConversation(convs: seq<Conversation>, i: nat, h: nat)
    requires i < |convs| && Kept(convs[i]) && h == |Headers(convs[..i])|
    ensures h < |Headers(convs)|
    ensures Headers(convs)[h] == Batches.Chat(convs[i].phone, if convs[i].lid == "" then None else Some(convs[i].lid), None, [])
  {
    assert convs[..i + 1][..i] == convs[..i];
    HeadersOfFront(convs, i + 1);
  }

  lemma CandidatesOfNext(convs: seq<Conversation>, oldest: int, i: nat)
    requires i < |convs|
    ensures Candidates(convs[..i + 1], oldest) == Candidates(convs[..i], oldest) + CandidatesOf(convs[i], |Headers(convs[..i])|, oldest)
  {
    assert convs[..i + 1][..i] == convs[..i];
  }

  lemma CandidatesOfConversation(convs: seq<Conversation>, oldest: int, i: nat)
    requires i < |convs| && Kept(convs[i])
    ensures OwnCandidates(convs, oldest, convs[i], |Headers(convs[..i])|, |Candidates(convs[..i], oldest)|)
  {
    var h, before, events := |Headers(convs[..i])|, Candidates(convs[..i], oldest), Usable(convs[i].entries, oldest);
    HeaderOfConversation(convs, i, h);
    CandidatesOfFront(convs, oldest, i + 1);
    CandidatesOfNext(convs, oldest, i);
    Sequences.SliceOfEnd(before, Tagged(h, events));
    Sequences.SliceOfPrefix(before + Tagged(h, events), Candidates(convs, oldest), |before|, |before| + |events|);
  }

  // The row of a conversation in the table, and where its candidates begin and how many there are.
  ghost predicate RowIs(convs: seq<Conversation>, oldest: int, built: seq<Option<Built>>, h: nat, k: nat, n: nat)
    requires |built| == |Candidates(convs, oldest)|
  {
    h < |Headers(convs)| && k + n <= |built| && Table(convs, oldest, built)[h] == Outs(built[k..k + n])
  }

  lemma LastCandidates(convs: seq<Conversation>, oldest: int)
    requires convs != [] && Kept(convs[|convs| - 1])
    ensures var front, c := convs[..|convs| - 1], convs[|convs| - 1];
      |Candidates(convs, oldest)| == |Candidates(front, oldest)| + |Usable(c.entries, oldest)| && |Headers(convs)| == |Headers(front)| + 1
  {
  }

  lemma TableLast(convs: seq<Conversation>, oldest: int, built: seq<Option<Built>>)
    requires |built| == |Candidates(convs, oldest)| && convs != [] && Kept(convs[|convs| - 1])
    ensures var front := convs[..|convs| - 1];
      && |Headers(front)| < |Headers(convs)| && |Candidates(front, oldest)| <= |built|
      && Table(convs, oldest, built)[|Headers(front)|] == Outs(built[|Candidates(front, oldest)|..])
  {
    var front := convs[..|convs| - 1];
    var k := |Candidates(front, oldest)|;
  }

  lemma LastRow(convs: seq<Conversation>, oldest: int, built: seq<Option<Built>>, h: nat, k: nat, n: nat)
    requires |built| == |Candidates(convs, oldest)| && convs != [] && Kept(convs[|convs| - 1])
    requires h == |Headers(convs[..|convs| - 1])| && k == |Candidates(convs[..|convs| - 1], oldest)|
    requires n == |Usable(convs[|convs| - 1].entries, oldest)|
    ensures RowIs(convs, oldest, built, h, k, n)
  {
    LastCandidates(convs, oldest);
    TableLast(convs, oldest, built);
    assert built[k..k + n] == built[k..];
  }

  lemma RowOfFront(convs: seq<Conversation>, oldest: int, built: seq<Option<Built>>, h: nat, k: nat, n: nat)
    requires convs != [] && |built| == |Candidates(convs, oldest)|
    requires var front := convs[..|convs| - 1]; RowIs(front, oldest, built[..|Candidates(front, oldest)|], h, k, n)
    ensures RowIs(convs, oldest, built, h, k, n)
  {
    var front := convs[..|convs| - 1];
    assert built[..|Candidates(front, oldest)|][k..k + n] == built[k..k + n];
    TableOfFront(convs, oldest, built, h);
  }

  lemma {:induction false} TableOfConversation(convs: seq<Conversation>, oldest: int, built: seq<Option<Built>>, i: nat)
    requires |built| == |Candidates(convs, oldest)| && i < |convs| && Kept(convs[i])
    ensures RowIs(convs, oldest, built, |Headers(convs[..i])|, |Candidates(convs[..i], oldest)|, |Usable(convs[i].entries, oldest)|)
    decreases |convs|
  {
    var front := convs[..|convs| - 1];
    if i < |front| {
      assert front[..i] == convs[..i] && front[i] == convs[i];
      TableOfConversation(front, oldest, built[..|Candidates(front, oldest)|], i);
      RowOfFront(convs, oldest, built, |Headers(convs[..i])|, |Candidates(convs[..i], oldest)|, |Usable(convs[i].entries, oldest)|);
    } else {
      LastRow(convs, oldest, built, |Headers(front)|, |Candidates(front, oldest)|, |Usable(convs[i].entries, oldest)|);
    }
  }

  lemma TableOfFront(convs: seq<Conversation>, oldest: int, built: seq<Option<Built>>, h: nat)
    requires convs != [] && |built| == |Candidates(convs, oldest)|
    requires h < |Headers(convs[..|convs| - 1])|
    ensures var front := convs[..|convs| - 1]; var k := |Candidates(front, oldest)|;
      h < |Headers(convs)| && Table(convs, oldest, built)[h] == Table(front, oldest, built[..k])[h]
  {
  }

  // The rows that got a message.
  function Filled(table: seq<seq<Built>>): nat {
    if table == [] then 0 else Filled(table[..|table| - 1]) + if table[|table| - 1] == [] then 0 else 1
  }

  // The chat published for row h: with the row's header, its first known profile name and its messages.
  ghost predicate Published(headers: seq<Batches.Chat>, table: seq<seq<Built>>, h: nat, chats: seq<Batches.Chat>)
    requires |headers| == |table| && h < |headers|
  {
    && Filled(table[..h]) < |chats| && Encoded(table[h]).Some?
    && chats[Filled(table[..h])] == headers[h].(profileName := ProfileName(table[h]), messages := Encoded(table[h]).value)
  }

  lemma {:induction false} OneChatPerFilledRow(headers: seq<Batches.Chat>, table: seq<seq<Built>>)
    requires |headers| == |table| && ChatsOf(headers, table).Some?
    ensures |ChatsOf(headers, table).value| == Filled(table)
  {
    if headers != [] {
      var n := |headers| - 1;
      OneChatPerFilledRow(headers[..n], table[..n]);
    }
  }

  lemma {:induction false} RowIsPublished(headers: seq<Batches.Chat>, table: seq<seq<Built>>, h: nat)
    requires |headers| == |table| && ChatsOf(headers, table).Some? && h < |headers| && table[h] != []
    ensures Published(headers, table, h, ChatsOf(headers, table).value)
  {
    var n := |headers| - 1;
    OneChatPerFilledRow(headers[..n], table[..n]);
    if h < n {
      RowIsPublished(headers[..n], table[..n], h);
      assert table[..n][..h] == table[..h];
    }
  }

  // The messages of a chat are those built of its own conversation's usable messages, in their order:
  // they make up its row, and a row that is not empty is published as one chat.
  lemma ChatKeepsOrder(convs: seq<Conversation>, oldest: int, built: seq<Option<Built>>, i: nat)
    requires |built| == |Candidates(convs, oldest)| && i < |convs| && Kept(convs[i])
    ensures var h, k := |Headers(convs[..i])|, |Candidates(convs[..i], oldest)|;
      && OwnCandidates(convs, oldest, convs[i], h, k)
      && RowIs(convs, oldest, built, h, k, |Usable(convs[i].entries, oldest)|)
      && (Translated(convs, oldest, built).Some? && Table(convs, oldest, built)[h] != [] ==>
            Published(Headers(convs), Table(convs, oldest, built), h, Translated(convs, oldest, built).value.chats))
  {
    TableOfConversation(convs, oldest, built, i);
    CandidatesOfConversation(convs, oldest, i);
    var h := |Headers(convs[..i])|;
    if Translated(convs, oldest, built).Some? && Table(convs, oldest, built)[h] != [] {
      RowIsPublished(Headers(convs), Table(convs, oldest, built), h);
    }
  }
}
