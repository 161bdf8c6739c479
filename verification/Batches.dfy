/** The batcher of internal/history/batches.go: it cuts the messages of a chunk into batches under a
    message limit and a byte limit, and sets aside the messages no batch can hold.

    A string stands for the bytes of a field; |s| is its length in bytes. */
module Batches {
  import opened Options
  import Sequences

  const BATCH_ENVELOPE_BYTES := 512
  const CHAT_ENVELOPE_BYTES := 96

  datatype Chat = Chat(phone: string, lid: Option<string>, profileName: Option<string>, messages: seq<string>)

  function Length(field: Option<string>): nat {
    if field.Some? then |field.value| else 0
  }

  function ChatHeaderBytes(chat: Chat): nat {
    CHAT_ENVELOPE_BYTES + |chat.phone| + Length(chat.lid) + Length(chat.profileName)
  }

  /** A message with the position of its chat in the chunk and the bytes of that chat's header. */
  datatype Item = Item(chat: nat, header: nat, message: string)

  function ItemsOf(chat: Chat, index: nat, upTo: nat): (r: seq<Item>)
    requires upTo <= |chat.messages|
    ensures |r| == upTo
    ensures forall i :: 0 <= i < upTo ==> r[i] == Item(index, ChatHeaderBytes(chat), chat.messages[i])
  {
    seq(upTo, i requires 0 <= i < upTo => Item(index, ChatHeaderBytes(chat), chat.messages[i]))
  }

  /** Every message of the chunk, in order. */
  function AllItems(chats: seq<Chat>): seq<Item> {
    if chats == [] then []
    else
      var n := |chats| - 1;
      AllItems(chats[..n]) + ItemsOf(chats[n], n, |chats[n].messages|)
  }

  /** Too large for a batch of its own. */
  predicate Oversized(item: Item, maxBytes: int) {
    BATCH_ENVELOPE_BYTES + item.header + |item.message| + 1 > maxBytes
  }

  function Kept(items: seq<Item>, maxBytes: int): seq<Item> {
    if items == [] then []
    else
      var n := |items| - 1;
      Kept(items[..n], maxBytes) + if Oversized(items[n], maxBytes) then [] else [items[n]]
  }

  function TooLarge(items: seq<Item>, maxBytes: int, idOf: string -> string): seq<string> {
    if items == [] then []
    else
      var n := |items| - 1;
      TooLarge(items[..n], maxBytes, idOf) + if Oversized(items[n], maxBytes) then [idOf(items[n].message)] else []
  }

  // ---------------------------------------------------------------- accounted size

  predicate Opens(batch: seq<Item>, item: Item) {
    batch == [] || batch[|batch| - 1].chat != item.chat
  }

  function Cost(batch: seq<Item>, item: Item): nat {
    |item.message| + 1 + if Opens(batch, item) then item.header else 0
  }

  /** A chat header is charged once for each batch the chat touches. */
  function Size(batch: seq<Item>): nat {
    if batch == [] then BATCH_ENVELOPE_BYTES
    else
      var n := |batch| - 1;
      Size(batch[..n]) + Cost(batch[..n], batch[n])
  }

  /** The two limits. A message limit of zero or less limits nothing. */
  predicate WithinLimits(batch: seq<Item>, maxMessages: int, maxBytes: int) {
    (maxMessages > 0 ==> |batch| <= maxMessages) && Size(batch) <= maxBytes
  }

  function Flatten(cut: seq<seq<Item>>): seq<Item> {
    if cut == [] then [] else Flatten(cut[..|cut| - 1]) + cut[|cut| - 1]
  }

  ghost predicate ChatsIn(chats: seq<Chat>, batch: seq<Item>) {
    forall i :: 0 <= i < |batch| ==> batch[i].chat < |chats|
  }

  /** The batches as they are published: one chat entry for each run of messages of a chat. */
  function Render(chats: seq<Chat>, batch: seq<Item>): (r: seq<Chat>)
    requires ChatsIn(chats, batch)
    ensures batch != [] ==> r != []
  {
    if batch == [] then []
    else
      var n := |batch| - 1;
      var before := Render(chats, batch[..n]);
      if Opens(batch[..n], batch[n]) then
        before + [chats[batch[n].chat].(messages := [batch[n].message])]
      else
        var last := before[|before| - 1];
        before[..|before| - 1] + [last.(messages := last.messages + [batch[n].message])]
  }

  ghost predicate InChunk(chats: seq<Chat>, cut: seq<seq<Item>>) {
    forall b :: 0 <= b < |cut| ==> ChatsIn(chats, cut[b])
  }

  function RenderAll(chats: seq<Chat>, cut: seq<seq<Item>>): (r: seq<seq<Chat>>)
    requires InChunk(chats, cut)
    ensures |r| == |cut|
  {
    if cut == [] then []
    else
      var n := |cut| - 1;
      RenderAll(chats, cut[..n]) + [Render(chats, cut[n])]
  }

  // ---------------------------------------------------------------- the greedy cut

  /** The next message joins the last batch if it can, and starts a new one otherwise. */
  function Place(cut: seq<seq<Item>>, item: Item, maxMessages: int, maxBytes: int): (r: seq<seq<Item>>)
    ensures r != []
  {
    if cut == [] then [[item]]
    else
      var last := cut[|cut| - 1];
      if last != [] && (|last| == maxMessages || Size(last) + Cost(last, item) > maxBytes) then
        cut + [[item]]
      else
        cut[..|cut| - 1] + [last + [item]]
  }

  function GreedyCut(items: seq<Item>, maxMessages: int, maxBytes: int): seq<seq<Item>> {
    if items == [] then []
    else
      var n := |items| - 1;
      Place(GreedyCut(items[..n], maxMessages, maxBytes), items[n], maxMessages, maxBytes)
  }

  ghost predicate AllFit(items: seq<Item>, maxBytes: int) {
    forall i :: 0 <= i < |items| ==> !Oversized(items[i], maxBytes)
  }

  /** No batch is empty or over a limit. */
  ghost predicate Limited(cut: seq<seq<Item>>, maxMessages: int, maxBytes: int) {
    forall b :: 0 <= b < |cut| ==> cut[b] != [] && WithinLimits(cut[b], maxMessages, maxBytes)
  }

  /** Nothing is lost, repeated or reordered, and no batch is empty or over a limit. */
  lemma {:induction false} GreedyCutIsFaithful(items: seq<Item>, cut: seq<seq<Item>>, maxMessages: int, maxBytes: int)
    requires cut == GreedyCut(items, maxMessages, maxBytes) && AllFit(items, maxBytes)
    ensures Flatten(cut) == items && Limited(cut, maxMessages, maxBytes)
  {
    if items != [] {
      var n := |items| - 1;
      var before := GreedyCut(items[..n], maxMessages, maxBytes);
      GreedyCutIsFaithful(items[..n], before, maxMessages, maxBytes);
      PlaceIsFaithful(before, items[n], cut, maxMessages, maxBytes);
      Sequences.LastJoins(items);
    }
  }

  lemma PlaceIsFaithful(cut: seq<seq<Item>>, item: Item, r: seq<seq<Item>>, maxMessages: int, maxBytes: int)
    requires r == Place(cut, item, maxMessages, maxBytes)
    requires !Oversized(item, maxBytes) && Limited(cut, maxMessages, maxBytes)
    ensures Flatten(r) == Flatten(cut) + [item] && Limited(r, maxMessages, maxBytes)
  {
    assert cut == [] ==> [[item]] == cut + [[item]];
    PlaceKeepsOrder(cut, item, r);
    OneMessage(item);
    if cut != [] {
      SizePush(cut[|cut| - 1], item);
    }
  }

  /** The message is a new batch at the end, or the last one of the last batch. */
  lemma PlaceKeepsOrder(cut: seq<seq<Item>>, item: Item, r: seq<seq<Item>>)
    requires r == cut + [[item]] || (cut != [] && r == cut[..|cut| - 1] + [cut[|cut| - 1] + [item]])
    ensures Flatten(r) == Flatten(cut) + [item]
  {
    if r == cut + [[item]] {
      FlattenPush(cut, [item]);
    } else {
      var front, last := cut[..|cut| - 1], cut[|cut| - 1];
      FlattenPush(front, last + [item]);
      Sequences.Regroup(Flatten(front), last, [item]);
    }
  }

  lemma OneMessage(item: Item)
    ensures Size([item]) == BATCH_ENVELOPE_BYTES + item.header + |item.message| + 1
  {
    assert [item][..0] == [];
  }

  lemma SizePush(batch: seq<Item>, item: Item)
    ensures Size(batch + [item]) == Size(batch) + Cost(batch, item)
  {
    Sequences.Front(batch, item);
  }

  lemma FlattenPush(cut: seq<seq<Item>>, batch: seq<Item>)
    ensures Flatten(cut + [batch]) == Flatten(cut) + batch
  {
    Sequences.Front(cut, batch);
  }

  // ---------------------------------------------------------------- no cut uses fewer batches

  /** The same chat always has the same header, and a chat's messages stay together. */
  ghost predicate OfChunk(items: seq<Item>) {
    forall i, j :: 0 <= i <= j < |items| ==>
      items[i].chat <= items[j].chat && (items[i].chat == items[j].chat ==> items[i].header == items[j].header)
  }

  /** Dropping the first message never makes a batch larger: if the chat goes on, its header is charged to
      the next message instead. */
  lemma {:induction false} SizeOfTail(batch: seq<Item>)
    requires batch != [] && OfChunk(batch)
    ensures Size(batch[1..]) <= Size(batch)
  {
    var n := |batch| - 1;
    if n == 0 {
      assert batch[1..] == [];
    } else {
      SizeOfTail(batch[..n]);
      assert batch[..n][1..] == batch[1..][..n - 1];
      if n == 1 {
        assert batch[1..][..0] == [] && batch[..1][..0] == [];
        assert Size(batch[..1]) == BATCH_ENVELOPE_BYTES + Cost([], batch[0]);
      }
    }
  }

  lemma {:induction false} SizeOfSuffix(batch: seq<Item>, k: nat)
    requires k <= |batch| && OfChunk(batch)
    ensures Size(batch[k..]) <= Size(batch)
  {
    if k > 0 {
      SizeOfSuffix(batch, k - 1);
      SizeOfTail(batch[k - 1..]);
      assert batch[k - 1..][1..] == batch[k..];
    }
  }

  ghost predicate IsCut(cut: seq<seq<Item>>, items: seq<Item>, maxMessages: int, maxBytes: int) {
    Flatten(cut) == items && forall b :: 0 <= b < |cut| ==> WithinLimits(cut[b], maxMessages, maxBytes)
  }

  /** No more batches and, at the same number, no longer last one. */
  ghost predicate StaysAhead(cut: seq<seq<Item>>, other: seq<seq<Item>>) {
    |cut| <= |other| && (cut != [] && |cut| == |other| ==> |cut[|cut| - 1]| <= |other[|other| - 1]|)
  }

  /** Greedy stays ahead: it has no more batches than the other cut and, at the same number, its last
      batch is not longer. */
  lemma {:induction false} GreedyStaysAhead(items: seq<Item>, cut: seq<seq<Item>>, other: seq<seq<Item>>, maxMessages: int, maxBytes: int)
    requires cut == GreedyCut(items, maxMessages, maxBytes)
    requires OfChunk(items) && IsCut(other, items, maxMessages, maxBytes) && AllFit(items, maxBytes)
    ensures StaysAhead(cut, other)
    decreases |items|, |other|, 2
  {
    if items != [] {
      assert other != [];
      var k := |other| - 1;
      if other[k] == [] {
        WithoutEmpty(items, other, maxMessages, maxBytes);
        GreedyStaysAhead(items, cut, other[..k], maxMessages, maxBytes);
      } else {
        StepStaysAhead(items, cut, other, maxMessages, maxBytes);
      }
    }
  }

  lemma WithoutEmpty(items: seq<Item>, other: seq<seq<Item>>, maxMessages: int, maxBytes: int)
    requires other != [] && other[|other| - 1] == [] && IsCut(other, items, maxMessages, maxBytes)
    ensures IsCut(other[..|other| - 1], items, maxMessages, maxBytes)
  {
    var front := other[..|other| - 1];
    assert Flatten(other) == Flatten(front) + [];
    assert Flatten(front) + [] == Flatten(front);
  }

  lemma LastOfTail(items: seq<Item>, head: seq<Item>, tail: seq<Item>)
    requires head + tail == items && tail != [] && OfChunk(items)
    ensures var shorter := tail[..|tail| - 1];
            && tail == shorter + [items[|items| - 1]] && OfChunk(tail)
            && head + shorter == items[..|items| - 1]
  {
    assert tail == items[|head|..];
  }

  /** The other cut, without the last message, is a cut of the rest. */
  lemma WithoutLast(items: seq<Item>, other: seq<seq<Item>>, shorter: seq<Item>, maxMessages: int, maxBytes: int)
    requires items != [] && other != [] && other[|other| - 1] != []
    requires OfChunk(items) && IsCut(other, items, maxMessages, maxBytes)
    requires shorter == other[|other| - 1][..|other[|other| - 1]| - 1]
    ensures other[|other| - 1] == shorter + [items[|items| - 1]] && OfChunk(other[|other| - 1])
    ensures Flatten(other[..|other| - 1]) + shorter == items[..|items| - 1]
    ensures IsCut(other[..|other| - 1] + [shorter], items[..|items| - 1], maxMessages, maxBytes)
  {
    var k := |other| - 1;
    LastOfTail(items, Flatten(other[..k]), other[k]);
    SizePush(shorter, items[|items| - 1]);
    FlattenPush(other[..k], shorter);
  }

  /** What the cut of all but the last message knows about the other one. */
  lemma {:induction false} BeforeStaysAhead(items: seq<Item>, cut: seq<seq<Item>>, other: seq<seq<Item>>, shorter: seq<Item>,
                                            maxMessages: int, maxBytes: int)
    requires items != [] && other != [] && other[|other| - 1] != []
    requires cut == GreedyCut(items[..|items| - 1], maxMessages, maxBytes)
    requires OfChunk(items) && IsCut(other, items, maxMessages, maxBytes) && AllFit(items, maxBytes)
    requires shorter == other[|other| - 1][..|other[|other| - 1]| - 1]
    ensures StaysAhead(cut, other[..|other| - 1] + [shorter])
    ensures shorter == [] ==> |cut| < |other|
    decreases |items|, |other|, 0
  {
    var front, before := items[..|items| - 1], other[..|other| - 1] + [shorter];
    WithoutLast(items, other, shorter, maxMessages, maxBytes);
    FrontIsOfChunk(items, maxBytes);
    GreedyStaysAhead(front, cut, before, maxMessages, maxBytes);
    if shorter == [] {
      Sequences.Front(other[..|other| - 1], shorter);
      WithoutEmpty(front, before, maxMessages, maxBytes);
      GreedyStaysAhead(front, cut, other[..|other| - 1], maxMessages, maxBytes);
    }
  }

  lemma FrontIsOfChunk(items: seq<Item>, maxBytes: int)
    requires items != [] && OfChunk(items) && AllFit(items, maxBytes)
    ensures OfChunk(items[..|items| - 1]) && AllFit(items[..|items| - 1], maxBytes)
  {
  }

  lemma {:induction false} StepStaysAhead(items: seq<Item>, cut: seq<seq<Item>>, other: seq<seq<Item>>, maxMessages: int, maxBytes: int)
    requires items != [] && other != [] && other[|other| - 1] != []
    requires cut == GreedyCut(items, maxMessages, maxBytes)
    requires OfChunk(items) && IsCut(other, items, maxMessages, maxBytes) && AllFit(items, maxBytes)
    ensures StaysAhead(cut, other)
    decreases |items|, |other|, 1
  {
    var n, k := |items| - 1, |other| - 1;
    var before, shorter := GreedyCut(items[..n], maxMessages, maxBytes), other[k][..|other[k]| - 1];
    BeforeStaysAhead(items, before, other, shorter, maxMessages, maxBytes);
    if |before| == |other| {
      WithoutLast(items, other, shorter, maxMessages, maxBytes);
      FrontIsOfChunk(items, maxBytes);
      GreedyCutIsFaithful(items[..n], before, maxMessages, maxBytes);
      LastBatchJoins(before, other[..k], shorter, items[n], maxMessages, maxBytes);
    }
  }

  lemma LastBatchJoins(cut: seq<seq<Item>>, before: seq<seq<Item>>, shorter: seq<Item>, x: Item, maxMessages: int, maxBytes: int)
    requires cut != [] && cut[|cut| - 1] != [] && |cut[|cut| - 1]| <= |shorter|
    requires Flatten(cut) == Flatten(before) + shorter
    requires OfChunk(shorter + [x]) && WithinLimits(shorter + [x], maxMessages, maxBytes)
    ensures var r := Place(cut, x, maxMessages, maxBytes);
            |r| == |cut| && |r[|r| - 1]| == |cut[|cut| - 1]| + 1
  {
    var last := cut[|cut| - 1];
    BothAreSuffixes(Flatten(cut[..|cut| - 1]), last, Flatten(before), shorter);
    ShorterSuffixTakesOneMore(shorter, last, x, maxMessages, maxBytes);
  }

  lemma BothAreSuffixes(a: seq<Item>, last: seq<Item>, b: seq<Item>, shorter: seq<Item>)
    requires a + last == b + shorter && |last| <= |shorter|
    ensures last == shorter[|shorter| - |last|..]
  {
    var whole := a + last;
    assert last == whole[|whole| - |last|..];
    assert shorter == whole[|whole| - |shorter|..];
  }

  /** Where a batch has room for x, so has each of its suffixes. */
  lemma ShorterSuffixTakesOneMore(shorter: seq<Item>, last: seq<Item>, x: Item, maxMessages: int, maxBytes: int)
    requires last != [] && |last| <= |shorter| && last == shorter[|shorter| - |last|..]
    requires OfChunk(shorter + [x]) && WithinLimits(shorter + [x], maxMessages, maxBytes)
    ensures |last| != maxMessages && Size(last) + Cost(last, x) <= maxBytes
  {
    var k := |shorter| - |last|;
    SizeOfSuffix(shorter + [x], k);
    Sequences.Suffix(shorter, x, k);
    SizePush(last, x);
  }

  /** No cut of the same messages into contiguous batches within the limits has fewer batches. */
  lemma GreedyIsOptimal(items: seq<Item>, other: seq<seq<Item>>, maxMessages: int, maxBytes: int)
    requires OfChunk(items) && IsCut(other, items, maxMessages, maxBytes)
    requires AllFit(items, maxBytes)
    ensures |GreedyCut(items, maxMessages, maxBytes)| <= |other|
  {
    GreedyStaysAhead(items, GreedyCut(items, maxMessages, maxBytes), other, maxMessages, maxBytes);
  }

  // ---------------------------------------------------------------- the items of a chunk

  ghost predicate FromChats(items: seq<Item>, chats: seq<Chat>) {
    && (forall i :: 0 <= i < |items| ==> items[i].chat < |chats| && items[i].header == ChatHeaderBytes(chats[items[i].chat]))
    && (forall i, j :: 0 <= i <= j < |items| ==> items[i].chat <= items[j].chat)
  }

  lemma OneMoreChat(items: seq<Item>, chats: seq<Chat>, more: seq<Item>)
    requires chats != [] && FromChats(items, chats[..|chats| - 1])
    requires more == ItemsOf(chats[|chats| - 1], |chats| - 1, |chats[|chats| - 1].messages|)
    ensures FromChats(items + more, chats)
  {
  }

  lemma {:induction false} AllItemsFromChats(chats: seq<Chat>, items: seq<Item>)
    requires items == AllItems(chats)
    ensures FromChats(items, chats)
  {
    if chats != [] {
      var n := |chats| - 1;
      AllItemsFromChats(chats[..n], AllItems(chats[..n]));
      OneMoreChat(AllItems(chats[..n]), chats, ItemsOf(chats[n], n, |chats[n].messages|));
    }
  }

  lemma {:induction false} KeptFits(items: seq<Item>, kept: seq<Item>, maxBytes: int)
    requires kept == Kept(items, maxBytes)
    ensures AllFit(kept, maxBytes)
  {
    if items != [] {
      KeptFits(items[..|items| - 1], Kept(items[..|items| - 1], maxBytes), maxBytes);
    }
  }

  lemma {:induction false} KeptAreItems(items: seq<Item>, maxBytes: int)
    ensures forall x :: x in Kept(items, maxBytes) ==> x in items
  {
    if items != [] {
      KeptAreItems(items[..|items| - 1], maxBytes);
    }
  }

  lemma {:induction false} KeptFromChats(items: seq<Item>, chats: seq<Chat>, maxBytes: int)
    requires FromChats(items, chats)
    ensures FromChats(Kept(items, maxBytes), chats)
  {
    if items != [] {
      var n := |items| - 1;
      var before := Kept(items[..n], maxBytes);
      KeptFromChats(items[..n], chats, maxBytes);
      KeptAreItems(items[..n], maxBytes);
      if !Oversized(items[n], maxBytes) {
        forall i | 0 <= i < |before|
          ensures before[i].chat <= items[n].chat
        {
          assert before[i] in items[..n];
        }
        assert Kept(items, maxBytes) == before + [items[n]];
      } else {
        assert Kept(items, maxBytes) == before;
      }
    }
  }

  lemma {:induction false} FittingIsKept(items: seq<Item>, maxBytes: int, x: Item)
    requires x in items && !Oversized(x, maxBytes)
    ensures x in Kept(items, maxBytes)
  {
    var n := |items| - 1;
    if x != items[n] {
      FittingIsKept(items[..n], maxBytes, x);
    }
  }

  lemma {:induction false} KeptAndTooLargeAddUp(items: seq<Item>, maxBytes: int, idOf: string -> string)
    ensures |Kept(items, maxBytes)| + |TooLarge(items, maxBytes, idOf)| == |items|
  {
    if items != [] {
      KeptAndTooLargeAddUp(items[..|items| - 1], maxBytes, idOf);
    }
  }

  /** Kept or reported: every message of the chunk is one or the other, and each list keeps the order. */
  lemma KeptAndTooLarge(items: seq<Item>, maxBytes: int, idOf: string -> string)
    ensures |Kept(items, maxBytes)| + |TooLarge(items, maxBytes, idOf)| == |items|
    ensures forall x :: x in items && !Oversized(x, maxBytes) ==> x in Kept(items, maxBytes)
  {
    KeptAndTooLargeAddUp(items, maxBytes, idOf);
    forall x | x in items && !Oversized(x, maxBytes)
      ensures x in Kept(items, maxBytes)
    {
      FittingIsKept(items, maxBytes, x);
    }
  }

  // ---------------------------------------------------------------- what is published

  /** The bytes of a batch as published: each of its chat entries with its header once. */
  function PublishedSize(batch: seq<Chat>): nat {
    if batch == [] then BATCH_ENVELOPE_BYTES
    else
      var n := |batch| - 1;
      PublishedSize(batch[..n]) + ChatHeaderBytes(batch[n]) + MessageBytes(batch[n].messages)
  }

  function MessageBytes(messages: seq<string>): nat {
    if messages == [] then 0 else MessageBytes(messages[..|messages| - 1]) + |messages[|messages| - 1]| + 1
  }

  function Messages(batch: seq<Chat>): seq<string> {
    if batch == [] then [] else Messages(batch[..|batch| - 1]) + batch[|batch| - 1].messages
  }

  function MessagesOf(batch: seq<Item>): seq<string> {
    if batch == [] then [] else MessagesOf(batch[..|batch| - 1]) + [batch[|batch| - 1].message]
  }

  /** Entry k is chat `origin[k]` under its own header, with at least one message. */
  ghost predicate EntriesOf(chats: seq<Chat>, published: seq<Chat>, origin: seq<nat>) {
    && |origin| == |published|
    && (forall k :: 0 <= k < |origin| ==>
          && origin[k] < |chats| && published[k].messages != []
          && published[k] == chats[origin[k]].(messages := published[k].messages))
  }

  ghost predicate Ascending(origin: seq<nat>) {
    forall j, k :: 0 <= j < k < |origin| ==> origin[j] < origin[k]
  }

  /** The entries of a rendered batch are chats of the chunk, none twice, and the last one is still open. */
  ghost predicate Faithful(chats: seq<Chat>, batch: seq<Item>, published: seq<Chat>, origin: seq<nat>) {
    && EntriesOf(chats, published, origin) && Ascending(origin)
    && (batch != [] ==> origin != [] && origin[|origin| - 1] == batch[|batch| - 1].chat)
  }

  ghost function Origin(batch: seq<Item>): seq<nat> {
    if batch == [] then []
    else
      var n := |batch| - 1;
      Origin(batch[..n]) + if Opens(batch[..n], batch[n]) then [batch[n].chat] else []
  }

  lemma {:induction false} RenderOrigin(chats: seq<Chat>, batch: seq<Item>, published: seq<Chat>, origin: seq<nat>)
    requires FromChats(batch, chats)
    requires published == Render(chats, batch) && origin == Origin(batch)
    ensures Faithful(chats, batch, published, origin)
  {
    if batch != [] {
      var front := batch[..|batch| - 1];
      RenderOrigin(chats, front, Render(chats, front), Origin(front));
      OneMoreIsFaithful(chats, batch, Render(chats, front), Origin(front), published, origin);
    }
  }

  lemma OneMoreIsFaithful(chats: seq<Chat>, batch: seq<Item>, before: seq<Chat>, origin: seq<nat>, published: seq<Chat>, origin': seq<nat>)
    requires batch != [] && FromChats(batch, chats) && Faithful(chats, batch[..|batch| - 1], before, origin)
    requires before == Render(chats, batch[..|batch| - 1]) && published == Render(chats, batch)
    requires origin' == origin + if Opens(batch[..|batch| - 1], batch[|batch| - 1]) then [batch[|batch| - 1].chat] else []
    ensures Faithful(chats, batch, published, origin')
  {
    var n := |batch| - 1;
    var x := batch[n];
    if Opens(batch[..n], x) {
      assert n > 0 ==> batch[n - 1].chat < x.chat;
      OpenedIsFaithful(chats, x, before, origin, published, origin');
    } else {
      ExtendedIsFaithful(chats, x, before, origin, published);
      assert origin' == origin;
    }
  }

  lemma OpenedIsFaithful(chats: seq<Chat>, x: Item, before: seq<Chat>, origin: seq<nat>, published: seq<Chat>, origin': seq<nat>)
    requires x.chat < |chats| && EntriesOf(chats, before, origin) && Ascending(origin)
    requires origin != [] ==> origin[|origin| - 1] < x.chat
    requires published == before + [chats[x.chat].(messages := [x.message])] && origin' == origin + [x.chat]
    ensures EntriesOf(chats, published, origin') && Ascending(origin')
  {
  }

  lemma ExtendedIsFaithful(chats: seq<Chat>, x: Item, before: seq<Chat>, origin: seq<nat>, published: seq<Chat>)
    requires before != [] && EntriesOf(chats, before, origin)
    requires var last := before[|before| - 1];
             published == before[..|before| - 1] + [last.(messages := last.messages + [x.message])]
    ensures EntriesOf(chats, published, origin)
  {
  }

  /** Adding one message to a batch, as published. */
  lemma RenderOneMore(chats: seq<Chat>, batch: seq<Item>)
    requires batch != [] && FromChats(batch, chats)
    ensures var n := |batch| - 1;
            var before, after := Render(chats, batch[..n]), Render(chats, batch);
            && Messages(after) == Messages(before) + [batch[n].message]
            && PublishedSize(after) == PublishedSize(before) + Cost(batch[..n], batch[n])
  {
    var n := |batch| - 1;
    var x, before, after := batch[n], Render(chats, batch[..n]), Render(chats, batch);
    if Opens(batch[..n], x) {
      var chat := chats[x.chat];
      assert after == before + [chat.(messages := [x.message])];
      OpenedEntry(chat, before, x.message);
    } else {
      var k := |before| - 1;
      assert after == before[..k] + [before[k].(messages := before[k].messages + [x.message])];
    }
  }

  lemma {:induction false} RenderMessages(chats: seq<Chat>, batch: seq<Item>)
    requires FromChats(batch, chats)
    ensures Messages(Render(chats, batch)) == MessagesOf(batch)
  {
    if batch != [] {
      var front := batch[..|batch| - 1];
      RenderMessages(chats, front);
      RenderOneMore(chats, batch);
    }
  }

  lemma {:induction false} RenderSize(chats: seq<Chat>, batch: seq<Item>)
    requires FromChats(batch, chats)
    ensures PublishedSize(Render(chats, batch)) == Size(batch)
  {
    if batch != [] {
      RenderSize(chats, batch[..|batch| - 1]);
      RenderOneMore(chats, batch);
    }
  }

  /** A rendered batch has the batch's messages in order, each chat at most once, under its own header and
      with at least one message; and its published size is the accounted size. */
  lemma RenderIsFaithful(chats: seq<Chat>, batch: seq<Item>)
    requires FromChats(batch, chats)
    ensures Faithful(chats, batch, Render(chats, batch), Origin(batch))
    ensures Messages(Render(chats, batch)) == MessagesOf(batch)
    ensures PublishedSize(Render(chats, batch)) == Size(batch)
  {
    RenderOrigin(chats, batch, Render(chats, batch), Origin(batch));
    RenderMessages(chats, batch);
    RenderSize(chats, batch);
  }

  lemma OpenedEntry(chat: Chat, before: seq<Chat>, message: string)
    ensures var after := before + [chat.(messages := [message])];
            && Messages(after) == Messages(before) + [message]
            && PublishedSize(after) == PublishedSize(before) + ChatHeaderBytes(chat) + |message| + 1
  {
    var after := before + [chat.(messages := [message])];
    assert after[..|before|] == before;
    assert [message][..0] == [];
    assert MessageBytes([message]) == |message| + 1;
  }

  // ---------------------------------------------------------------- the loops

  lemma {:induction false} FlattenInChunk(chats: seq<Chat>, cut: seq<seq<Item>>)
    requires FromChats(Flatten(cut), chats)
    ensures InChunk(chats, cut)
    ensures forall b :: 0 <= b < |cut| ==> FromChats(cut[b], chats)
  {
    if cut != [] {
      var n := |cut| - 1;
      var front := Flatten(cut[..n]);
      assert FromChats(front, chats) by {
        assert forall i :: 0 <= i < |front| ==> front[i] == Flatten(cut)[i];
      }
      assert FromChats(cut[n], chats) by {
        assert forall i :: 0 <= i < |cut[n]| ==> cut[n][i] == Flatten(cut)[|front| + i];
      }
      FlattenInChunk(chats, cut[..n]);
    }
  }

  lemma RenderAllPush(chats: seq<Chat>, cut: seq<seq<Item>>, batch: seq<Item>)
    requires InChunk(chats, cut) && ChatsIn(chats, batch)
    ensures InChunk(chats, cut + [batch])
    ensures RenderAll(chats, cut + [batch]) == RenderAll(chats, cut) + [Render(chats, batch)]
  {
    var longer := cut + [batch];
    assert forall b :: 0 <= b < |longer| ==> longer[b] == if b < |cut| then cut[b] else batch;
    assert longer[..|cut|] == cut;
  }

  /** The finished batches and the one being filled, which is empty only before the first message. */
  function Whole(finished: seq<seq<Item>>, filling: seq<Item>): seq<seq<Item>> {
    if filling == [] then finished else finished + [filling]
  }

  /** The message does not fit into the batch being filled and starts the next one. */
  predicate Starts(filling: seq<Item>, item: Item, maxMessages: int, maxBytes: int) {
    filling != [] && (|filling| == maxMessages || Size(filling) + Cost(filling, item) > maxBytes)
  }

  lemma PlaceWhole(finished: seq<seq<Item>>, filling: seq<Item>, item: Item, maxMessages: int, maxBytes: int)
    requires filling == [] ==> finished == []
    ensures Place(Whole(finished, filling), item, maxMessages, maxBytes)
            == if Starts(filling, item, maxMessages, maxBytes) then Whole(Whole(finished, filling), [item]) else Whole(finished, filling + [item])
  {
    if filling == [] {
      assert filling + [item] == [item];
    } else {
      assert (finished + [filling])[..|finished|] == finished;
    }
  }

  lemma RenderPush(chats: seq<Chat>, batch: seq<Item>, item: Item)
    requires ChatsIn(chats, batch) && item.chat < |chats|
    ensures ChatsIn(chats, batch + [item])
    ensures var before := Render(chats, batch);
            Render(chats, batch + [item])
            == if Opens(batch, item) then before + [chats[item.chat].(messages := [item.message])]
               else before[|before| - 1 := before[|before| - 1].(messages := before[|before| - 1].messages + [item.message])]
  {
    assert (batch + [item])[..|batch|] == batch;
  }

  lemma KeptPush(items: seq<Item>, item: Item, maxMessages: int, maxBytes: int, idOf: string -> string)
    ensures Kept(items + [item], maxBytes) == Kept(items, maxBytes) + if Oversized(item, maxBytes) then [] else [item]
    ensures TooLarge(items + [item], maxBytes, idOf)
         == TooLarge(items, maxBytes, idOf) + if Oversized(item, maxBytes) then [idOf(item.message)] else []
  {
    assert (items + [item])[..|items|] == items;
  }

  /** The messages of the chats before `chat`, and the first `upTo` of that chat. */
  function SeenItems(chats: seq<Chat>, chat: nat, upTo: nat): seq<Item>
    requires chat < |chats| && upTo <= |chats[chat].messages|
  {
    AllItems(chats[..chat]) + ItemsOf(chats[chat], chat, upTo)
  }

  lemma SeenOneMore(chats: seq<Chat>, chat: nat, j: nat)
    requires chat < |chats| && j < |chats[chat].messages|
    ensures SeenItems(chats, chat, j + 1)
         == SeenItems(chats, chat, j) + [Item(chat, ChatHeaderBytes(chats[chat]), chats[chat].messages[j])]
  {
    assert ItemsOf(chats[chat], chat, j + 1)
        == ItemsOf(chats[chat], chat, j) + [Item(chat, ChatHeaderBytes(chats[chat]), chats[chat].messages[j])];
  }

  lemma SeenWholeChat(chats: seq<Chat>, chat: nat)
    requires chat < |chats|
    ensures SeenItems(chats, chat, |chats[chat].messages|) == AllItems(chats[..chat + 1])
    ensures SeenItems(chats, chat, 0) == AllItems(chats[..chat])
  {
    assert chats[..chat + 1][..chat] == chats[..chat];
    assert AllItems(chats[..chat]) + [] == AllItems(chats[..chat]);
  }

  /** The variables of the loops; `at` is the chat of the last entry of `current`, or -1. */
  datatype Progress = Progress(batches: seq<seq<Chat>>, oversized: seq<string>, current: seq<Chat>, count: int, size: int, at: int)

  function Begin(): Progress {
    Progress([], [], [], 0, BATCH_ENVELOPE_BYTES, -1)
  }

  function CostAfter(p: Progress, item: Item): nat {
    |item.message| + 1 + if p.at == item.chat then 0 else item.header
  }

  /** The batch being filled is closed if the message does not fit into it. */
  function Closed(p: Progress, item: Item, maxMessages: int, maxBytes: int): Progress {
    if p.count > 0 && (p.count == maxMessages || p.size + CostAfter(p, item) > maxBytes) then
      Progress(p.batches + [p.current], p.oversized, [], 0, BATCH_ENVELOPE_BYTES, -1)
    else
      p
  }

  /** The message goes into the batch being filled. */
  function Added(chats: seq<Chat>, p: Progress, item: Item): Progress
    requires item.chat < |chats|
  {
    p.(current := WithMessage(chats, p, item), count := p.count + 1, size := p.size + CostAfter(p, item), at := item.chat)
  }

  function WithMessage(chats: seq<Chat>, p: Progress, item: Item): seq<Chat>
    requires item.chat < |chats|
  {
    if p.at != item.chat || p.current == [] then
      p.current + [chats[item.chat].(messages := [item.message])]
    else
      var last := |p.current| - 1;
      p.current[last := p.current[last].(messages := p.current[last].messages + [item.message])]
  }

  /** One turn of the inner loop. */
  function Turn(chats: seq<Chat>, p: Progress, item: Item, maxMessages: int, maxBytes: int, idOf: string -> string): Progress
    requires item.chat < |chats|
  {
    if Oversized(item, maxBytes) then
      p.(oversized := p.oversized + [idOf(item.message)])
    else
      Added(chats, Closed(p, item, maxMessages, maxBytes), item)
  }

  function Fold(chats: seq<Chat>, items: seq<Item>, maxMessages: int, maxBytes: int, idOf: string -> string): Progress
    requires ChatsIn(chats, items)
  {
    if items == [] then Begin()
    else
      var n := |items| - 1;
      Turn(chats, Fold(chats, items[..n], maxMessages, maxBytes, idOf), items[n], maxMessages, maxBytes, idOf)
  }

  /** The loop variables are `finished` and `filling` as published and accounted. */
  ghost predicate Renders(chats: seq<Chat>, p: Progress, finished: seq<seq<Item>>, filling: seq<Item>) {
    && InChunk(chats, finished) && ChatsIn(chats, filling)
    && p.batches == RenderAll(chats, finished) && p.current == Render(chats, filling)
    && p.count == |filling| && p.size == Size(filling)
    && p.at == if filling == [] then -1 else filling[|filling| - 1].chat
  }

  /** `finished` and `filling` are the greedy cut of the messages kept so far. */
  ghost predicate Cutting(kept: seq<Item>, maxMessages: int, maxBytes: int, finished: seq<seq<Item>>, filling: seq<Item>) {
    (filling == [] ==> finished == []) && GreedyCut(kept, maxMessages, maxBytes) == Whole(finished, filling)
  }

  lemma ClosedRenders(chats: seq<Chat>, p: Progress, f: seq<seq<Item>>, g: seq<Item>, item: Item, maxMessages: int, maxBytes: int)
    requires Renders(chats, p, f, g) && g != []
    ensures Renders(chats, Progress(p.batches + [p.current], p.oversized, [], 0, BATCH_ENVELOPE_BYTES, -1), f + [g], [])
  {
    RenderAllPush(chats, f, g);
  }

  lemma AddedRenders(chats: seq<Chat>, p: Progress, f: seq<seq<Item>>, g: seq<Item>, item: Item)
    requires Renders(chats, p, f, g) && item.chat < |chats|
    ensures Renders(chats, Added(chats, p, item), f, g + [item])
  {
    RenderPush(chats, g, item);
  }

  lemma CuttingOneMore(kept: seq<Item>, f: seq<seq<Item>>, g: seq<Item>, item: Item, maxMessages: int, maxBytes: int,
                       f': seq<seq<Item>>, g': seq<Item>)
    requires Cutting(kept, maxMessages, maxBytes, f, g)
    requires if Starts(g, item, maxMessages, maxBytes) then f' == f + [g] && g' == [item] else f' == f && g' == g + [item]
    ensures Cutting(kept + [item], maxMessages, maxBytes, f', g')
  {
    PlaceWhole(f, g, item, maxMessages, maxBytes);
    Sequences.Front(kept, item);
  }

  lemma AddedToNew(chats: seq<Chat>, p: Progress, f: seq<seq<Item>>, item: Item)
    requires Renders(chats, p, f, []) && item.chat < |chats|
    ensures Renders(chats, Added(chats, p, item), f, [item])
  {
    AddedRenders(chats, p, f, [], item);
    assert [] + [item] == [item];
  }

  lemma TurnRenders(chats: seq<Chat>, p: Progress, item: Item, maxMessages: int, maxBytes: int, idOf: string -> string,
                    kept: seq<Item>, f: seq<seq<Item>>, g: seq<Item>)
    returns (f': seq<seq<Item>>, g': seq<Item>)
    requires Renders(chats, p, f, g) && Cutting(kept, maxMessages, maxBytes, f, g) && item.chat < |chats|
    ensures Renders(chats, Turn(chats, p, item, maxMessages, maxBytes, idOf), f', g')
    ensures Cutting(if Oversized(item, maxBytes) then kept else kept + [item], maxMessages, maxBytes, f', g')
  {
    if Oversized(item, maxBytes) {
      return f, g;
    }
    var q := Closed(p, item, maxMessages, maxBytes);
    if Starts(g, item, maxMessages, maxBytes) {
      ClosedRenders(chats, p, f, g, item, maxMessages, maxBytes);
      f', g' := f + [g], [item];
      AddedToNew(chats, q, f', item);
    } else {
      f', g' := f, g + [item];
      AddedRenders(chats, p, f, g, item);
    }
    CuttingOneMore(kept, f, g, item, maxMessages, maxBytes, f', g');
  }

  /** The loops build the greedy cut. */
  lemma {:induction false} FoldRenders(chats: seq<Chat>, items: seq<Item>, maxMessages: int, maxBytes: int, idOf: string -> string)
    returns (f: seq<seq<Item>>, g: seq<Item>)
    requires ChatsIn(chats, items)
    ensures Renders(chats, Fold(chats, items, maxMessages, maxBytes, idOf), f, g)
    ensures Cutting(Kept(items, maxBytes), maxMessages, maxBytes, f, g)
  {
    if items == [] {
      return [], [];
    }
    var front, item := items[..|items| - 1], items[|items| - 1];
    f, g := FoldRenders(chats, front, maxMessages, maxBytes, idOf);
    f, g := TurnRenders(chats, Fold(chats, front, maxMessages, maxBytes, idOf), item, maxMessages, maxBytes, idOf,
                        Kept(front, maxBytes), f, g);
    assert Kept(front, maxBytes) + [] == Kept(front, maxBytes);
  }

  lemma {:induction false} FoldReports(chats: seq<Chat>, items: seq<Item>, maxMessages: int, maxBytes: int, idOf: string -> string)
    requires ChatsIn(chats, items)
    ensures Fold(chats, items, maxMessages, maxBytes, idOf).oversized == TooLarge(items, maxBytes, idOf)
  {
    if items != [] {
      FoldReports(chats, items[..|items| - 1], maxMessages, maxBytes, idOf);
    }
  }

  lemma FoldIsGreedy(chats: seq<Chat>, maxMessages: int, maxBytes: int, idOf: string -> string)
    requires ChatsIn(chats, AllItems(chats))
    ensures var p := Fold(chats, AllItems(chats), maxMessages, maxBytes, idOf);
            var cut := GreedyCut(Kept(AllItems(chats), maxBytes), maxMessages, maxBytes);
            && InChunk(chats, cut) && p.oversized == TooLarge(AllItems(chats), maxBytes, idOf)
            && (if p.count > 0 then p.batches + [p.current] else p.batches) == RenderAll(chats, cut)
  {
    var items := AllItems(chats);
    var f, g := FoldRenders(chats, items, maxMessages, maxBytes, idOf);
    FoldReports(chats, items, maxMessages, maxBytes, idOf);
    if g != [] {
      RenderAllPush(chats, f, g);
    }
  }

  lemma FoldSeenOneMore(chats: seq<Chat>, i: nat, j: nat, maxMessages: int, maxBytes: int, idOf: string -> string)
    requires i < |chats| && j < |chats[i].messages| && ChatsIn(chats, SeenItems(chats, i, j))
    ensures ChatsIn(chats, SeenItems(chats, i, j + 1))
    ensures Fold(chats, SeenItems(chats, i, j + 1), maxMessages, maxBytes, idOf)
         == Turn(chats, Fold(chats, SeenItems(chats, i, j), maxMessages, maxBytes, idOf),
                 Item(i, ChatHeaderBytes(chats[i]), chats[i].messages[j]), maxMessages, maxBytes, idOf)
  {
    SeenOneMore(chats, i, j);
  }

  /** One message of the inner loop, on the variables of the loops. */
  method SplitMessage(chats: seq<Chat>, i: nat, message: string, maxMessages: int, maxBytes: int, idOf: string -> string, p: Progress)
    returns (q: Progress)
    requires i < |chats| && p.at <= i && (p.at >= 0 ==> p.current != [])
    ensures q == Turn(chats, p, Item(i, ChatHeaderBytes(chats[i]), message), maxMessages, maxBytes, idOf)
    ensures q.at <= i && (q.at >= 0 ==> q.current != [])
  {
    var chat := chats[i];
    var header := ChatHeaderBytes(chat);
    var Progress(batches, oversized, current, count, size, at) := p;
    if BATCH_ENVELOPE_BYTES + header + |message| + 1 > maxBytes {
      return p.(oversized := oversized + [idOf(message)]);
    }
    var cost := |message| + 1;
    if at < i {
      cost := cost + header;
    }
    if count > 0 && (count == maxMessages || size + cost > maxBytes) {
      batches := batches + [current];
      current, count, size, at := [], 0, BATCH_ENVELOPE_BYTES, -1;
      cost := |message| + 1 + header;
    }
    if at < i {
      current := current + [chat.(messages := [message])];
    } else {
      var open := |current| - 1;
      current := current[open := current[open].(messages := current[open].messages + [message])];
    }
    q := Progress(batches, oversized, current, count + 1, size + cost, i);
  }

  /** The inner loop: the messages of one chat. */
  method SplitChat(chats: seq<Chat>, i: nat, maxMessages: int, maxBytes: int, idOf: string -> string, p: Progress)
    returns (q: Progress)
    requires i < |chats| && ChatsIn(chats, SeenItems(chats, i, 0))
    requires p == Fold(chats, SeenItems(chats, i, 0), maxMessages, maxBytes, idOf)
    requires p.at < i && (p.at >= 0 ==> p.current != [])
    ensures ChatsIn(chats, SeenItems(chats, i, |chats[i].messages|))
    ensures q == Fold(chats, SeenItems(chats, i, |chats[i].messages|), maxMessages, maxBytes, idOf)
    ensures q.at <= i && (q.at >= 0 ==> q.current != [])
  {
    q := p;
    for j := 0 to |chats[i].messages|
      invariant ChatsIn(chats, SeenItems(chats, i, j))
      invariant q == Fold(chats, SeenItems(chats, i, j), maxMessages, maxBytes, idOf)
      invariant q.at <= i && (q.at >= 0 ==> q.current != [])
    {
      FoldSeenOneMore(chats, i, j, maxMessages, maxBytes, idOf);
      q := SplitMessage(chats, i, chats[i].messages[j], maxMessages, maxBytes, idOf, q);
    }
  }

  /** The batches are the greedy cut of the messages that fit, as published; the ids of the others are
      reported in order. `idOf` is the provider's id of a message. */
  method Split(chats: seq<Chat>, maxMessages: int, maxBytes: int, idOf: string -> string)
    returns (batches: seq<seq<Chat>>, oversized: seq<string>)
    ensures InChunk(chats, GreedyCut(Kept(AllItems(chats), maxBytes), maxMessages, maxBytes))
    ensures batches == RenderAll(chats, GreedyCut(Kept(AllItems(chats), maxBytes), maxMessages, maxBytes))
    ensures oversized == TooLarge(AllItems(chats), maxBytes, idOf)
  {
    var p := Begin();
    for i := 0 to |chats|
      invariant ChatsIn(chats, AllItems(chats[..i])) && p == Fold(chats, AllItems(chats[..i]), maxMessages, maxBytes, idOf)
      invariant p.at < i && (p.at >= 0 ==> p.current != [])
    {
      SeenWholeChat(chats, i);
      p := SplitChat(chats, i, maxMessages, maxBytes, idOf, p);
    }
    assert chats[..|chats|] == chats;
    FoldIsGreedy(chats, maxMessages, maxBytes, idOf);
    batches, oversized := p.batches, p.oversized;
    if p.count > 0 {
      batches := batches + [p.current];
    }
  }

  // ---------------------------------------------------------------- what Split promises

  /** The published batches hold exactly the messages that fit, in order, each under its own chat's header;
      every batch has at least one message and keeps both limits, and no chat is empty or twice in a batch. */
  lemma SplitIsFaithful(chats: seq<Chat>, maxMessages: int, maxBytes: int)
    ensures var kept := Kept(AllItems(chats), maxBytes);
            var cut := GreedyCut(kept, maxMessages, maxBytes);
            && Flatten(cut) == kept && InChunk(chats, cut)
            && forall b :: 0 <= b < |cut| ==>
                 var published := Render(chats, cut[b]);
                 && Messages(published) == MessagesOf(cut[b]) && published != []
                 && (maxMessages > 0 ==> |Messages(published)| <= maxMessages)
                 && PublishedSize(published) <= maxBytes
                 && Faithful(chats, cut[b], published, Origin(cut[b]))
  {
    var kept := Kept(AllItems(chats), maxBytes);
    var cut := GreedyCut(kept, maxMessages, maxBytes);
    AllItemsFromChats(chats, AllItems(chats));
    KeptFits(AllItems(chats), Kept(AllItems(chats), maxBytes), maxBytes);
    KeptFromChats(AllItems(chats), chats, maxBytes);
    GreedyCutIsFaithful(kept, cut, maxMessages, maxBytes);
    FlattenInChunk(chats, cut);
    forall b | 0 <= b < |cut|
      ensures var published := Render(chats, cut[b]);
              && Messages(published) == MessagesOf(cut[b]) && published != []
              && (maxMessages > 0 ==> |Messages(published)| <= maxMessages)
              && PublishedSize(published) <= maxBytes
              && Faithful(chats, cut[b], published, Origin(cut[b]))
    {
      assert WithinLimits(cut[b], maxMessages, maxBytes);
      RenderIsFaithful(chats, cut[b]);
      MessagesOfLength(cut[b]);
    }
  }

  lemma {:induction false} MessagesOfLength(batch: seq<Item>)
    ensures |MessagesOf(batch)| == |batch|
  {
    if batch != [] {
      MessagesOfLength(batch[..|batch| - 1]);
    }
  }

  /** Split uses as few batches as any cut of the same messages, in the same order, within the same limits. */
  lemma SplitIsOptimal(chats: seq<Chat>, maxMessages: int, maxBytes: int, other: seq<seq<Item>>)
    requires IsCut(other, Kept(AllItems(chats), maxBytes), maxMessages, maxBytes)
    ensures |GreedyCut(Kept(AllItems(chats), maxBytes), maxMessages, maxBytes)| <= |other|
  {
    AllItemsFromChats(chats, AllItems(chats));
    KeptFits(AllItems(chats), Kept(AllItems(chats), maxBytes), maxBytes);
    KeptFromChats(AllItems(chats), chats, maxBytes);
    GreedyIsOptimal(Kept(AllItems(chats), maxBytes), other, maxMessages, maxBytes);
  }
}
