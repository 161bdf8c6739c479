/** The published batches as JSON: why the bytes that the splitter accounts for are enough.

    As elsewhere a string is its bytes. The escapes are those of Go's encoding/json for bytes below 128. */
module BatchEncoding {
  import opened Options
  import opened Batches

  function Hex(n: nat): char
    requires n < 16
  {
    "0123456789abcdef"[n]
  }

  function EscapedByte(c: char): (r: string)
    ensures |r| >= 1
  {
    if c == '"' then "\\\""
    else if c == '\\' then "\\\\"
    else if c == '\n' then "\\n"
    else if c == '\r' then "\\r"
    else if c == '\t' then "\\t"
    else if c == 8 as char then "\\b"
    else if c == 12 as char then "\\f"
    else if c < ' ' || c == '<' || c == '>' || c == '&' then "\\u00" + [Hex(c as int / 16), Hex(c as int % 16)]
    else [c]
  }

  function Escaped(s: string): string {
    if s == "" then "" else Escaped(s[..|s| - 1]) + EscapedByte(s[|s| - 1])
  }

  function Quoted(s: string): string {
    "\"" + Escaped(s) + "\""
  }

  function OrNull(field: Option<string>): string {
    if field.None? then "null" else Quoted(field.value)
  }

  /** The messages are JSON already. */
  function Listed(texts: seq<string>): string {
    if texts == [] then ""
    else if |texts| == 1 then texts[0]
    else Listed(texts[..|texts| - 1]) + "," + texts[|texts| - 1]
  }

  function EncodedChat(chat: Chat): string {
    "{\"phone\":" + Quoted(chat.phone) + ",\"lid\":" + OrNull(chat.lid) + ",\"profileName\":" + OrNull(chat.profileName)
    + ",\"messages\":[" + Listed(chat.messages) + "]}"
  }

  function EncodedChats(batch: seq<Chat>): seq<string> {
    if batch == [] then [] else EncodedChats(batch[..|batch| - 1]) + [EncodedChat(batch[|batch| - 1])]
  }

  /** `head` is the text of the batch up to its chats: ids, counters and their names. */
  function EncodedBatch(head: string, batch: seq<Chat>): string {
    head + ",\"chats\":[" + Listed(EncodedChats(batch)) + "]}"
  }

  // ---------------------------------------------------------------- lengths

  /** What escaping adds. */
  function Surplus(s: string): nat
  {
    EscapedIsLonger(s);
    |Escaped(s)| - |s|
  }

  lemma {:induction false} EscapedIsLonger(s: string)
    ensures |Escaped(s)| >= |s|
  {
    if s != "" {
      EscapedIsLonger(s[..|s| - 1]);
    }
  }

  function FieldSurplus(field: Option<string>): nat {
    if field.None? then 0 else Surplus(field.value)
  }

  function ChatSurplus(chat: Chat): nat {
    Surplus(chat.phone) + FieldSurplus(chat.lid) + FieldSurplus(chat.profileName)
  }

  function BatchSurplus(batch: seq<Chat>): nat {
    if batch == [] then 0 else BatchSurplus(batch[..|batch| - 1]) + ChatSurplus(batch[|batch| - 1])
  }

  /** The bytes of the texts and of a comma for each. */
  function TextBytes(texts: seq<string>): nat {
    if texts == [] then 0 else TextBytes(texts[..|texts| - 1]) + |texts[|texts| - 1]| + 1
  }

  lemma {:induction false} ListedLength(texts: seq<string>)
    ensures |Listed(texts)| == if texts == [] then 0 else TextBytes(texts) - 1
  {
    if |texts| == 1 {
      assert texts[..0] == [];
    } else if texts != [] {
      ListedLength(texts[..|texts| - 1]);
    }
  }

  lemma {:induction false} MessagesAreTexts(messages: seq<string>)
    ensures MessageBytes(messages) == TextBytes(messages)
  {
    if messages != [] {
      MessagesAreTexts(messages[..|messages| - 1]);
    }
  }

  lemma QuotedLength(s: string)
    ensures |Quoted(s)| == |s| + Surplus(s) + 2
  {
  }

  /** Bytes of a field that is known or is written as null. */
  lemma FieldLength(field: Option<string>)
    ensures |OrNull(field)| == Length(field) + FieldSurplus(field) + if field.None? then 4 else 2
  {
    if field.Some? {
      QuotedLength(field.value);
    }
  }

  /** What the accounted bytes of a chat leave over: its names, quotes and brackets take 48 of the 96, and
      null or the quotes of an identity are still to come. */
  function Spare(chat: Chat): nat {
    96 - 48 - (if chat.lid.None? then 4 else 2) - (if chat.profileName.None? then 4 else 2)
  }

  lemma ChatLength(chat: Chat)
    requires chat.messages != []
    ensures |EncodedChat(chat)| + 1 + Spare(chat)
         == 96 + |chat.phone| + Length(chat.lid) + Length(chat.profileName) + MessageBytes(chat.messages) + ChatSurplus(chat)
  {
    QuotedLength(chat.phone);
    FieldLength(chat.lid);
    FieldLength(chat.profileName);
    ListedLength(chat.messages);
    MessagesAreTexts(chat.messages);
  }

  function SpareOf(batch: seq<Chat>): nat {
    if batch == [] then 0 else SpareOf(batch[..|batch| - 1]) + Spare(batch[|batch| - 1])
  }

  ghost predicate NoneEmpty(batch: seq<Chat>) {
    forall k :: 0 <= k < |batch| ==> batch[k].messages != []
  }

  lemma {:induction false} ChatsLength(batch: seq<Chat>)
    requires NoneEmpty(batch)
    ensures TextBytes(EncodedChats(batch)) + SpareOf(batch) + 512 == PublishedSize(batch) + BatchSurplus(batch)
  {
    if batch != [] {
      var n := |batch| - 1;
      ChatsLength(batch[..n]);
      ChatLength(batch[n]);
      assert (EncodedChats(batch[..n]) + [EncodedChat(batch[n])])[..|EncodedChats(batch[..n])|] == EncodedChats(batch[..n]);
    }
  }

  /** The exact length of a published batch, against what was accounted for it. */
  lemma EncodedLength(head: string, batch: seq<Chat>)
    requires batch != [] && NoneEmpty(batch)
    ensures |EncodedBatch(head, batch)| + SpareOf(batch) + 512 == |head| + 11 + PublishedSize(batch) + BatchSurplus(batch)
  {
    ChatsLength(batch);
    ListedLength(EncodedChats(batch));
    assert EncodedChats(batch) != [];
  }

  // ---------------------------------------------------------------- what Split promises of the bytes

  lemma {:induction false} SpareIsForty(batch: seq<Chat>)
    ensures SpareOf(batch) >= 40 * |batch|
  {
    if batch != [] {
      SpareIsForty(batch[..|batch| - 1]);
    }
  }

  /** Every published batch is at most as long as the limit, once encoded, if its text before the chats takes
      no more than 501 bytes and escaping adds no more than 40 bytes for each of its chats; in particular if
      phones, identities and names need no escapes. */
  lemma BatchesFit(chats: seq<Chat>, maxMessages: int, maxBytes: int, head: string)
    requires |head| <= 501
    ensures var cut := GreedyCut(Kept(AllItems(chats), maxBytes), maxMessages, maxBytes);
            && InChunk(chats, cut)
            && forall b :: 0 <= b < |cut| ==>
                 var published := Render(chats, cut[b]);
                 BatchSurplus(published) <= 40 * |published| ==> |EncodedBatch(head, published)| <= maxBytes
  {
    SplitIsFaithful(chats, maxMessages, maxBytes);
    var cut := GreedyCut(Kept(AllItems(chats), maxBytes), maxMessages, maxBytes);
    forall b | 0 <= b < |cut|
      ensures var published := Render(chats, cut[b]);
              BatchSurplus(published) <= 40 * |published| ==> |EncodedBatch(head, published)| <= maxBytes
    {
      var published := Render(chats, cut[b]);
      assert EntriesOf(chats, published, Origin(cut[b]));
      EncodedLength(head, published);
      SpareIsForty(published);
    }
  }

  predicate NeedsEscape(c: char) {
    c == '"' || c == '\\' || c < ' ' || c == '<' || c == '>' || c == '&'
  }

  lemma {:induction false} PlainHasNoSurplus(s: string)
    requires forall i :: 0 <= i < |s| ==> !NeedsEscape(s[i])
    ensures Surplus(s) == 0
  {
    if s != "" {
      PlainHasNoSurplus(s[..|s| - 1]);
    }
  }

  // ---------------------------------------------------------------- where it fails

  function Quotes(n: nat): (s: string)
    ensures |s| == n
  {
    if n == 0 then "" else Quotes(n - 1) + "\""
  }

  lemma {:induction false} QuotesDouble(n: nat)
    ensures Surplus(Quotes(n)) == n
  {
    if n > 0 {
      QuotesDouble(n - 1);
      assert Quotes(n)[..n - 1] == Quotes(n - 1);
    }
  }

  /** A name that needs escapes can make a batch longer than the limit: a chat named by n quotes, whose only
      message just fits into a batch, takes n - 42 bytes too many when the text before it takes 501. */
  lemma EscapesExceed(n: nat, head: string, phone: string, message: string, chat: Chat, maxBytes: int)
    requires n > 42 && |head| == 501 && Surplus(phone) == 0
    requires chat == Chat(phone, None, Some(Quotes(n)), [message])
    requires maxBytes == 512 + 96 + |phone| + n + |message| + 1
    ensures PublishedSize([chat]) == maxBytes
    ensures |EncodedBatch(head, [chat])| == maxBytes + n - 42
  {
    OneChatSize(chat, message);
    OneChatLength(head, n, phone, message, chat);
  }

  lemma OneChatLength(head: string, n: nat, phone: string, message: string, chat: Chat)
    requires chat == Chat(phone, None, Some(Quotes(n)), [message]) && Surplus(phone) == 0
    ensures |EncodedBatch(head, [chat])| + 42 + 512 == |head| + 11 + 512 + 96 + |phone| + n + |message| + 1 + n
  {
    QuotesDouble(n);
    EncodedLength(head, [chat]);
    OneChatOf(chat);
    OneChatSize(chat, message);
  }

  lemma OneChatOf(chat: Chat)
    ensures SpareOf([chat]) == Spare(chat) && BatchSurplus([chat]) == ChatSurplus(chat)
  {
    assert [chat][..0] == [];
    assert SpareOf([]) == 0 && BatchSurplus([]) == 0;
  }

  lemma OneChatSize(chat: Chat, message: string)
    requires chat.messages == [message]
    ensures PublishedSize([chat]) == 512 + ChatHeaderBytes(chat) + |message| + 1
  {
    assert [chat][..0] == [] && chat.messages[..0] == [];
    assert MessageBytes(chat.messages) == |message| + 1;
  }

  /** A chat with one message that just fits, or less, is published as a batch of its own. */
  lemma AloneIsPublished(chat: Chat, message: string, maxBytes: int, cut: seq<seq<Item>>)
    requires chat.messages == [message] && 512 + ChatHeaderBytes(chat) + |message| + 1 <= maxBytes
    requires cut == GreedyCut(Kept(AllItems([chat]), maxBytes), 0, maxBytes)
    ensures |cut| == 1 && InChunk([chat], cut) && Render([chat], cut[0]) == [chat]
  {
  }

  // ---------------------------------------------------------------- the text before the chats

  function Decimal(n: nat): string {
    if n < 10 then ["0123456789"[n]] else Decimal(n / 10) + ["0123456789"[n % 10]]
  }

  function Tenfold(k: nat): (r: nat)
    ensures r >= 1
  {
    if k == 0 then 1 else 10 * Tenfold(k - 1)
  }

  lemma {:induction false} DecimalLength(n: nat, k: nat)
    requires k > 0 && n < Tenfold(k)
    ensures |Decimal(n)| <= k
  {
    if n >= 10 {
      assert Tenfold(1) == 10 * Tenfold(0);
      DecimalLength(n / 10, k - 1);
    }
  }

  /** The ids and counters of a batch, as they are written before its chats. */
  function Head(tenant: string, channel: string, importId: string, chunkOrder: nat, sourceProgress: nat, index: nat, count: nat): string {
    "{\"kind\":\"batch\",\"tenantId\":" + Quoted(tenant) + ",\"channelId\":" + Quoted(channel) + ",\"importId\":" + Quoted(importId)
    + ",\"source\":\"gateway\",\"chunkOrder\":" + Decimal(chunkOrder) + ",\"sourceProgress\":" + Decimal(sourceProgress)
    + ",\"batchIndex\":" + Decimal(index) + ",\"batchesInChunk\":" + Decimal(count)
  }

  /** With ids of at most 90 bytes each that need no escapes it takes no more than 501 bytes. */
  lemma HeadFits(tenant: string, channel: string, importId: string, chunkOrder: nat, sourceProgress: nat, index: nat, count: nat)
    requires |tenant| <= 90 && |channel| <= 90 && |importId| <= 90
    requires Surplus(tenant) == 0 && Surplus(channel) == 0 && Surplus(importId) == 0
    requires chunkOrder < Tenfold(10) && sourceProgress < Tenfold(10) && index < Tenfold(19) && count < Tenfold(19)
    ensures |Head(tenant, channel, importId, chunkOrder, sourceProgress, index, count)| <= 501
  {
    QuotedLength(tenant);
    QuotedLength(channel);
    QuotedLength(importId);
    DecimalLength(chunkOrder, 10);
    DecimalLength(sourceProgress, 10);
    DecimalLength(index, 19);
    DecimalLength(count, 19);
  }
}
