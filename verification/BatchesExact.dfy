/** Which messages of a chunk are batched and which are reported as too large, said of the messages
    themselves. */
module BatchesExact {
  import opened Options
  import opened Batches
  import Sequences

  ghost predicate Ascending(at: seq<nat>) {
    forall j, k :: 0 <= j < k < |at| ==> at[j] < at[k]
  }

  /** A batch that holds only this message takes more than the limit: 512 bytes, those of the chat's header
      and those of the message with a comma. */
  predicate TooLargeAlone(item: Item, maxBytes: int) {
    512 + item.header + |item.message| + 1 > maxBytes
  }

  /** A message is too large exactly when a batch of its own is over the limit. */
  lemma TooLargeIsOverAlone(item: Item, maxMessages: int, maxBytes: int)
    ensures TooLargeAlone(item, maxBytes) <==> Size([item]) > maxBytes
    ensures !TooLargeAlone(item, maxBytes) <==> WithinLimits([item], maxMessages, maxBytes)
  {
    OneMessage(item);
  }

  ghost predicate Picks(at: seq<nat>, items: seq<Item>, maxBytes: int, tooLarge: bool) {
    && Ascending(at)
    && forall i: nat :: i in at <==> i < |items| && (TooLargeAlone(items[i], maxBytes) <==> tooLarge)
  }

  lemma PicksLast(at: seq<nat>, items: seq<Item>, maxBytes: int, tooLarge: bool)
    requires items != [] && Picks(at, items[..|items| - 1], maxBytes, tooLarge)
    ensures var n := |items| - 1;
            Picks(if TooLargeAlone(items[n], maxBytes) <==> tooLarge then at + [n] else at, items, maxBytes, tooLarge)
  {
    var n := |items| - 1;
    forall j | 0 <= j < |at|
      ensures at[j] < n
    {
      assert at[j] in at;
    }
    assert forall i :: 0 <= i < n ==> items[..n][i] == items[i];
  }

  ghost predicate AreItems(kept: seq<Item>, items: seq<Item>, at: seq<nat>) {
    |kept| == |at| && forall j :: 0 <= j < |at| ==> at[j] < |items| && kept[j] == items[at[j]]
  }

  lemma ItemsLast(kept: seq<Item>, items: seq<Item>, at: seq<nat>, n: nat)
    requires n == |items| - 1 && AreItems(kept, items[..n], at)
    ensures AreItems(kept, items, at) && AreItems(kept + [items[n]], items, at + [n])
  {
  }

  /** What is batched is every message that is not too large, in order. */
  lemma {:induction false} KeptExactly(items: seq<Item>, maxBytes: int, kept: seq<Item>) returns (at: seq<nat>)
    requires kept == Kept(items, maxBytes)
    ensures Picks(at, items, maxBytes, false) && AreItems(kept, items, at)
  {
    at := [];
    if items != [] {
      var n := |items| - 1;
      at := KeptExactly(items[..n], maxBytes, Kept(items[..n], maxBytes));
      PicksLast(at, items, maxBytes, false);
      ItemsLast(Kept(items[..n], maxBytes), items, at, n);
      if !TooLargeAlone(items[n], maxBytes) {
        at := at + [n];
      }
    }
  }

  ghost predicate AreIds(ids: seq<string>, items: seq<Item>, at: seq<nat>, idOf: string -> string) {
    |ids| == |at| && forall j :: 0 <= j < |at| ==> at[j] < |items| && ids[j] == idOf(items[at[j]].message)
  }

  lemma IdsLast(ids: seq<string>, items: seq<Item>, at: seq<nat>, idOf: string -> string, n: nat)
    requires n == |items| - 1 && AreIds(ids, items[..n], at, idOf)
    ensures AreIds(ids, items, at, idOf) && AreIds(ids + [idOf(items[n].message)], items, at + [n], idOf)
  {
  }

  /** What is reported is every message that is too large, in order and by its id. */
  lemma {:induction false} TooLargeExactly(items: seq<Item>, maxBytes: int, idOf: string -> string, ids: seq<string>) returns (at: seq<nat>)
    requires ids == TooLarge(items, maxBytes, idOf)
    ensures Picks(at, items, maxBytes, true) && AreIds(ids, items, at, idOf)
  {
    at := [];
    if items != [] {
      var n := |items| - 1;
      at := TooLargeExactly(items[..n], maxBytes, idOf, TooLarge(items[..n], maxBytes, idOf));
      PicksLast(at, items, maxBytes, true);
      IdsLast(TooLarge(items[..n], maxBytes, idOf), items, at, idOf, n);
      if TooLargeAlone(items[n], maxBytes) {
        at := at + [n];
      }
    }
  }

  lemma {:induction false} MessagesInParts(a: seq<Item>, b: seq<Item>)
    ensures MessagesOf(a + b) == MessagesOf(a) + MessagesOf(b)
  {
    if b == [] {
      assert a + b == a;
    } else {
      var n := |b| - 1;
      MessagesInParts(a, b[..n]);
      assert (a + b)[..|a + b| - 1] == a + b[..n];
      Sequences.Regroup(MessagesOf(a), MessagesOf(b[..n]), [b[n].message]);
    }
  }

  lemma {:induction false} MessagesOfChat(chat: Chat, index: nat, upTo: nat)
    requires upTo <= |chat.messages|
    ensures MessagesOf(ItemsOf(chat, index, upTo)) == chat.messages[..upTo]
  {
    if upTo > 0 {
      MessagesOfChat(chat, index, upTo - 1);
      assert ItemsOf(chat, index, upTo)[..upTo - 1] == ItemsOf(chat, index, upTo - 1);
    }
  }

  /** The messages that the splitter looks at are all those of the chunk, chat by chat, each under the bytes
      of its own chat's header: 96, and those of its phone, its identity and its name. */
  lemma {:induction false} LooksAtEveryMessage(chats: seq<Chat>, items: seq<Item>)
    requires items == AllItems(chats)
    ensures MessagesOf(items) == Messages(chats)
    ensures forall i :: 0 <= i < |items| ==>
              items[i].chat < |chats| &&
              var chat := chats[items[i].chat];
              items[i].header == 96 + |chat.phone| + (if chat.lid.Some? then |chat.lid.value| else 0)
                                 + (if chat.profileName.Some? then |chat.profileName.value| else 0)
  {
    AllItemsFromChats(chats, items);
    if chats != [] {
      var n := |chats| - 1;
      LooksAtEveryMessage(chats[..n], AllItems(chats[..n]));
      MessagesInParts(AllItems(chats[..n]), ItemsOf(chats[n], n, |chats[n].messages|));
      MessagesOfChat(chats[n], n, |chats[n].messages|);
      assert chats[n].messages[..|chats[n].messages|] == chats[n].messages;
    }
  }
}
