/** The decisions of the chat module: how a chat-list entry is keyed, named,
    counted and classed, which read-receipt tier a message shows, and which
    sender label a group message carries. Records arrive from the gateway
    with any field possibly missing, so every field the code probes is an
    `Option`. */
module Chat {
  import opened Wrappers
  import Text

  /** A chat's `id`: missing, a plain string, or an object whose
      `_serialized` field may be missing. */
  datatype ChatId = NoId | IdText(s: string) | IdObject(serialized: Option<string>)

  /** The nested `_chat` record some gateways send. */
  datatype ChatExtra = ChatExtra(isGroup: Option<bool>, unreadCount: Option<int>, unread: Option<int>)

  datatype LastMessage = LastMessage(body: Option<string>, timestamp: Option<int>, fromMe: Option<bool>, ack: Option<int>)

  /** An entry of the chat overview. */
  datatype ChatSummary = ChatSummary(
    id: ChatId, name: Option<string>, isGroup: Option<bool>,
    unreadCount: Option<int>, unread: Option<int>,
    inner: Option<ChatExtra>, lastMessage: Option<LastMessage>)

  datatype Person = Person(pushName: Option<string>, name: Option<string>)

  datatype Media = Media(url: Option<string>, mimetype: Option<string>, filename: Option<string>)

  /** A message of a conversation history or of a push event. */
  datatype Message = Message(
    id: Option<string>, from: Option<string>, body: Option<string>, text: Option<string>,
    fromMe: Option<bool>, timestamp: Option<int>, hasMedia: Option<bool>, media: Option<Media>,
    ack: Option<int>, contact: Option<Person>, author: Option<Person>,
    notifyName: Option<string>, fromName: Option<string>)

  /** The reply to a list request as the browser receives it: the request
      failed, or its value is null/undefined, something other than an
      array, or an array of records. */
  datatype Listing<T> = Failed | Nullish | NonList | Items(items: seq<T>)

  /** A string field that is truthy: present and not empty. */
  predicate Filled(o: Option<string>) {
    o.Some? && o.value != ""
  }

  /** A boolean field that is truthy. */
  predicate Set(o: Option<bool>) {
    o == Some(true)
  }

  /** The chain `p0 || p1 || ... || null` over string fields: the first
      truthy probe, or nothing. */
  function FirstFilled(probes: seq<Option<string>>): (r: Option<string>)
    ensures r.None? <==> forall i :: 0 <= i < |probes| ==> !Filled(probes[i])
    ensures forall i :: (0 <= i < |probes| && Filled(probes[i]) &&
                         (forall j :: 0 <= j < i ==> !Filled(probes[j]))) ==> r == probes[i]
  {
    if |probes| == 0 then None
    else if Filled(probes[0]) then probes[0]
    else
      var rest := FirstFilled(probes[1..]);
      assert forall i :: 1 <= i < |probes| ==> probes[i] == probes[1..][i - 1];
      rest
  }

  // ---------------------------------------------------------------------
  // Chat-list entries

  /** The unread count, looked up in four places with `??`. */
  function UnreadCount(c: ChatSummary): (n: int)
    ensures c.unreadCount.Some? ==> n == c.unreadCount.value
    ensures c.unreadCount.None? && c.unread.Some? ==> n == c.unread.value
    ensures c.unreadCount.None? && c.unread.None? && c.inner.Some? && c.inner.value.unreadCount.Some?
            ==> n == c.inner.value.unreadCount.value
    ensures (c.unreadCount.None? && c.unread.None? && c.inner.Some? && c.inner.value.unreadCount.None?
             && c.inner.value.unread.Some?) ==> n == c.inner.value.unread.value
    ensures (c.unreadCount.None? && c.unread.None? &&
             (c.inner.None? || (c.inner.value.unreadCount.None? && c.inner.value.unread.None?))) ==> n == 0
  {
    var innerCount := if c.inner.Some? then c.inner.value.unreadCount else None;
    var innerUnread := if c.inner.Some? then c.inner.value.unread else None;
    var probes := [c.unreadCount, c.unread, innerCount, innerUnread];
    assert probes[0] == c.unreadCount && probes[1] == c.unread && probes[2] == innerCount && probes[3] == innerUnread;
    Coalesce(probes, 0)
  }

  /** An explicit zero count is used even when a later field says otherwise. */
  lemma ExplicitZeroWins(c: ChatSummary)
    requires c.unreadCount == Some(0)
    ensures UnreadCount(c) == 0
  {
  }

  /** Whether a chat is a group: `_chat.isGroup ?? isGroup ?? false`. */
  function GroupFlag(c: ChatSummary): (g: bool)
    ensures c.inner.Some? && c.inner.value.isGroup.Some? ==> g == c.inner.value.isGroup.value
    ensures (c.inner.None? || c.inner.value.isGroup.None?) ==> g == c.isGroup.GetOr(false)
  {
    var innerGroup := if c.inner.Some? then c.inner.value.isGroup else None;
    var probes := [innerGroup, c.isGroup];
    assert probes[0] == innerGroup && probes[1] == c.isGroup;
    Coalesce(probes, false)
  }

  /** The key of a chat-list entry: `id._serialized || id`. */
  datatype ItemKey = KeyText(s: string) | KeyObject

  /** Reading `id._serialized` throws on a chat without id, a string id is
      its own key, an object id is keyed by its `_serialized` when that is
      truthy and by the object itself otherwise. */
  function KeyOf(id: ChatId): (r: Option<ItemKey>)
    ensures r.None? <==> id.NoId?
    ensures id.IdText? ==> r == Some(KeyText(id.s))
    ensures id.IdObject? && Filled(id.serialized) ==> r == Some(KeyText(id.serialized.value))
    ensures id.IdObject? && !Filled(id.serialized) ==> r == Some(KeyObject)
  {
    match id
    case NoId => None
    case IdText(s) => Some(KeyText(s))
    case IdObject(ser) => if Filled(ser) then Some(KeyText(ser.value)) else Some(KeyObject)
  }

  /** The entry's title: the chat name, else the id before '@', else
      "Desconhecido". An object key cannot be split, so it needs a name. */
  function DisplayName(name: Option<string>, key: ItemKey): (r: Option<string>)
    ensures r.None? <==> !Filled(name) && key.KeyObject?
    ensures Filled(name) ==> r == name
    ensures !Filled(name) && key.KeyText? ==>
              r.Some? && r.value != "" &&
              (r.value == "Desconhecido" <==> Text.Before(key.s, '@') == "" || Text.Before(key.s, '@') == "Desconhecido") &&
              (Text.Before(key.s, '@') != "" ==> r.value == Text.Before(key.s, '@'))
  {
    if Filled(name) then name
    else match key
      case KeyObject => None
      case KeyText(s) =>
        var local := Text.Before(s, '@');
        if local != "" then Some(local) else Some("Desconhecido")
  }

  /** The status class of a chat-list entry. */
  datatype StatusClass = NoClass | GroupUnread | GroupRead | Unread | Sent | Received

  /** The active entry gets no status class; groups are unread or read;
      individual chats are unread, else sent or received by their last
      message, else unclassed. */
  function ClassFor(active: bool, group: bool, unread: int, last: Option<LastMessage>): (k: StatusClass)
    ensures k == GroupUnread <==> !active && group && unread > 0
    ensures k == GroupRead <==> !active && group && unread <= 0
    ensures k == Unread <==> !active && !group && unread > 0
    ensures k == Sent <==> !active && !group && unread <= 0 && last.Some? && Set(last.value.fromMe)
    ensures k == Received <==> !active && !group && unread <= 0 && last.Some? && !Set(last.value.fromMe)
    ensures k == NoClass <==> active || (!group && unread <= 0 && last.None?)
  {
    if active then NoClass
    else if group then (if unread > 0 then GroupUnread else GroupRead)
    else if unread > 0 then Unread
    else if last.Some? then (if Set(last.value.fromMe) then Sent else Received)
    else NoClass
  }

  /** The read-receipt tier shown next to a message. */
  datatype AckIcon = NoIcon | SentTick | DeliveredTicks | ReadTicks

  /** Only own messages show a tier: 1 sent, 2 delivered, 3 read. */
  function AckIconFor(ack: Option<int>, fromMe: Option<bool>): (i: AckIcon)
    ensures i == SentTick <==> Set(fromMe) && ack == Some(1)
    ensures i == DeliveredTicks <==> Set(fromMe) && ack == Some(2)
    ensures i == ReadTicks <==> Set(fromMe) && ack == Some(3)
    ensures i == NoIcon <==> !Set(fromMe) || ack !in {Some(1), Some(2), Some(3)}
  {
    if !Set(fromMe) then NoIcon
    else if ack == Some(1) then SentTick
    else if ack == Some(2) then DeliveredTicks
    else if ack == Some(3) then ReadTicks
    else NoIcon
  }

  /** What a chat-list entry shows. */
  datatype ChatItem = ChatItem(
    key: ItemKey, name: string, group: bool, unread: int,
    statusClass: StatusClass, active: bool, ack: AckIcon, preview: string)

  /** One chat's entry: `None` when rendering it throws, `Some(None)` when
      it is skipped for a falsy key, else the entry. */
  function RenderChat(current: Option<string>, c: ChatSummary): (r: Option<Option<ChatItem>>)
    ensures r.None? <==> c.id.NoId? || (KeyOf(c.id) == Some(KeyObject) && !Filled(c.name))
    ensures r == Some(None) <==> KeyOf(c.id) == Some(KeyText(""))
    ensures r.Some? && r.value.Some? ==>
              var e := r.value.value;
              && e.key == KeyOf(c.id).value
              && (e.active <==> e.key.KeyText? && current == Some(e.key.s))
              && e.unread == UnreadCount(c) && e.group == GroupFlag(c)
              && e.statusClass == ClassFor(e.active, e.group, e.unread, c.lastMessage)
              && Some(e.name) == DisplayName(c.name, e.key)
              && e.ack == (if c.lastMessage.Some? then AckIconFor(c.lastMessage.value.ack, c.lastMessage.value.fromMe) else NoIcon)
              && e.preview == (if c.lastMessage.Some? && Filled(c.lastMessage.value.body) then c.lastMessage.value.body.value else "")
  {
    match KeyOf(c.id)
    case None => None
    case Some(key) =>
      if key == KeyText("") then Some(None)
      else
        match DisplayName(c.name, key)
        case None => None
        case Some(name) =>
          var active := key.KeyText? && current == Some(key.s);
          var unread := UnreadCount(c);
          var group := GroupFlag(c);
          var last := c.lastMessage;
          var ack := if last.Some? then AckIconFor(last.value.ack, last.value.fromMe) else NoIcon;
          var preview := if last.Some? && Filled(last.value.body) then last.value.body.value else "";
          Some(Some(ChatItem(key, name, group, unread, ClassFor(active, group, unread, last), active, ack, preview)))
  }

  /** `.join('')` over the mapped entries: the join fails when any entry
      threw, and an empty entry adds nothing. */
  function JoinEntries(entries: seq<Option<Option<ChatItem>>>): (r: Option<seq<ChatItem>>)
    ensures r.Some? ==> |r.value| <= |entries|
  {
    if |entries| == 0 then Some([])
    else
      var rest := JoinEntries(entries[1..]);
      if entries[0].None? || rest.None? then None
      else Some((if entries[0].value.Some? then [entries[0].value.value] else []) + rest.value)
  }

  /** The join fails exactly when some entry threw. */
  lemma {:induction false} JoinFailsIffEntryThrows(entries: seq<Option<Option<ChatItem>>>)
    ensures JoinEntries(entries).None? <==> exists i :: 0 <= i < |entries| && entries[i].None?
  {
    if |entries| > 0 {
      var tail := entries[1..];
      JoinFailsIffEntryThrows(tail);
      if JoinEntries(tail).None? {
        var i :| 0 <= i < |tail| && tail[i].None?;
        assert entries[i + 1].None?;
      }
      if exists i :: 0 <= i < |entries| && entries[i].None? {
        var i :| 0 <= i < |entries| && entries[i].None?;
        if i > 0 {
          assert tail[i - 1] == entries[i];
        }
      }
    }
  }

  /** Every item of a successful join is one of the entries. */
  lemma {:induction false} JoinedItemsAreEntries(entries: seq<Option<Option<ChatItem>>>)
    requires JoinEntries(entries).Some?
    ensures forall k :: 0 <= k < |JoinEntries(entries).value| ==>
              exists i :: 0 <= i < |entries| && entries[i] == Some(Some(JoinEntries(entries).value[k]))
  {
    if |entries| > 0 {
      var tail := entries[1..];
      var rest := JoinEntries(tail).value;
      var r := JoinEntries(entries).value;
      JoinedItemsAreEntries(tail);
      forall k | 0 <= k < |r|
        ensures exists i :: 0 <= i < |entries| && entries[i] == Some(Some(r[k]))
      {
        if entries[0].value.Some? && k == 0 {
          assert entries[0] == Some(Some(r[k]));
        } else {
          var k' := if entries[0].value.Some? then k - 1 else k;
          assert r[k] == rest[k'];
          var i :| 0 <= i < |tail| && tail[i] == Some(Some(rest[k']));
          assert entries[i + 1] == Some(Some(r[k]));
        }
      }
    }
  }

  /** The item an entry contributes to the list: its value when it was
      rendered, nothing when it was skipped or threw. */
  function Contribution(e: Option<Option<ChatItem>>): seq<ChatItem> {
    if e.Some? && e.value.Some? then [e.value.value] else []
  }

  /** The rendered entries, in order, skipping the empty ones. */
  function Present(entries: seq<Option<Option<ChatItem>>>): (r: seq<ChatItem>)
    ensures |r| <= |entries|
  {
    if |entries| == 0 then []
    else Present(entries[..|entries| - 1]) + Contribution(entries[|entries| - 1])
  }

  /** An item is present exactly when some entry rendered it. */
  lemma {:induction false} PresentHoldsRendered(entries: seq<Option<Option<ChatItem>>>)
    ensures forall v :: v in Present(entries) <==> Some(Some(v)) in entries
  {
    if |entries| > 0 {
      var init, last := entries[..|entries| - 1], entries[|entries| - 1];
      PresentHoldsRendered(init);
      assert entries == init + [last];
    }
  }

  /** `Present` read from the front. */
  lemma {:induction false} PresentCons(e: Option<Option<ChatItem>>, rest: seq<Option<Option<ChatItem>>>)
    ensures Present([e] + rest) == Contribution(e) + Present(rest)
  {
    var s := [e] + rest;
    if |rest| == 0 {
      assert s[..0] == [];
    } else {
      var init, last := rest[..|rest| - 1], rest[|rest| - 1];
      PresentCons(e, init);
      assert s[..|s| - 1] == [e] + init;
      calc {
        Present(s);
        Present([e] + init) + Contribution(last);
        Contribution(e) + Present(init) + Contribution(last);
        Contribution(e) + Present(rest);
      }
    }
  }

  /** A successful join is exactly the rendered entries in order. */
  lemma {:induction false} JoinIsPresent(entries: seq<Option<Option<ChatItem>>>)
    requires JoinEntries(entries).Some?
    ensures JoinEntries(entries).value == Present(entries)
  {
    if |entries| > 0 {
      JoinIsPresent(entries[1..]);
      PresentCons(entries[0], entries[1..]);
      assert entries == [entries[0]] + entries[1..];
    }
  }

  /** `renderChats`: each chat mapped to its entry, then joined. */
  function RenderChats(current: Option<string>, chats: seq<ChatSummary>): (r: Option<seq<ChatItem>>)
    ensures r.Some? ==> |r.value| <= |chats|
  {
    JoinEntries(seq(|chats|, i requires 0 <= i < |chats| => RenderChat(current, chats[i])))
  }

  /** The render fails exactly when some chat's entry throws. */
  lemma RenderFailsIffChatThrows(current: Option<string>, chats: seq<ChatSummary>)
    ensures RenderChats(current, chats).None? <==> exists i :: 0 <= i < |chats| && RenderChat(current, chats[i]).None?
  {
    var entries := seq(|chats|, i requires 0 <= i < |chats| => RenderChat(current, chats[i]));
    JoinFailsIffEntryThrows(entries);
    if exists i :: 0 <= i < |chats| && RenderChat(current, chats[i]).None? {
      var i :| 0 <= i < |chats| && RenderChat(current, chats[i]).None?;
      assert entries[i].None?;
    }
  }

  /** A successful render lists the entries of the chats in chat order,
      skipping exactly the chats with an empty key. */
  lemma RenderedInChatOrder(current: Option<string>, chats: seq<ChatSummary>)
    requires RenderChats(current, chats).Some?
    ensures RenderChats(current, chats).value ==
            Present(seq(|chats|, i requires 0 <= i < |chats| => RenderChat(current, chats[i])))
  {
    JoinIsPresent(seq(|chats|, i requires 0 <= i < |chats| => RenderChat(current, chats[i])));
  }

  /** In a successful render every chat with a non-empty key is listed. */
  lemma EveryKeyedChatIsListed(current: Option<string>, chats: seq<ChatSummary>, i: nat)
    requires RenderChats(current, chats).Some? && i < |chats|
    requires KeyOf(chats[i].id) != Some(KeyText(""))
    ensures RenderChat(current, chats[i]).Some? && RenderChat(current, chats[i]).value.Some?
    ensures RenderChat(current, chats[i]).value.value in RenderChats(current, chats).value
  {
    var entries := seq(|chats|, i requires 0 <= i < |chats| => RenderChat(current, chats[i]));
    RenderFailsIffChatThrows(current, chats);
    RenderedInChatOrder(current, chats);
    PresentHoldsRendered(entries);
    assert entries[i] == RenderChat(current, chats[i]);
  }

  /** Every entry of a successful render is the entry of one of the chats,
      skipping those with a falsy key. */
  lemma EntriesComeFromChats(current: Option<string>, chats: seq<ChatSummary>)
    requires RenderChats(current, chats).Some?
    ensures forall k :: 0 <= k < |RenderChats(current, chats).value| ==>
              exists i :: 0 <= i < |chats| && RenderChat(current, chats[i]) == Some(Some(RenderChats(current, chats).value[k]))
  {
    var entries := seq(|chats|, i requires 0 <= i < |chats| => RenderChat(current, chats[i]));
    JoinedItemsAreEntries(entries);
  }

  /** An active entry is keyed by the current chat and carries no status
      class. */
  lemma {:induction false} ActiveEntryIsCurrent(current: Option<string>, chats: seq<ChatSummary>)
    requires RenderChats(current, chats).Some?
    ensures forall k :: 0 <= k < |RenderChats(current, chats).value| && RenderChats(current, chats).value[k].active ==>
              current.Some? && RenderChats(current, chats).value[k].key == KeyText(current.value)
              && RenderChats(current, chats).value[k].statusClass == NoClass
  {
    var items := RenderChats(current, chats).value;
    EntriesComeFromChats(current, chats);
    forall k | 0 <= k < |items| && items[k].active
      ensures current.Some? && items[k].key == KeyText(current.value) && items[k].statusClass == NoClass
    {
      var i :| 0 <= i < |chats| && RenderChat(current, chats[i]) == Some(Some(items[k]));
    }
  }

  /** `loadChats`: a failed request is an empty list; every other reply,
      array or not, is passed on. */
  function LoadChats(reply: Listing<ChatSummary>): (r: Listing<ChatSummary>)
    ensures !r.Failed?
    ensures reply.Failed? ==> r == Items([])
    ensures !reply.Failed? ==> r == reply
  {
    if reply.Failed? then Items([]) else reply
  }

  /** Whether a chat matches an id in the selection lookup:
      `chat.id?._serialized || chat.id` compared strictly. */
  predicate Matches(c: ChatSummary, chatId: string) {
    match c.id
    case NoId => false
    case IdText(s) => s == chatId
    case IdObject(ser) => Filled(ser) && ser.value == chatId
  }

  /** `chats.find(...)`: the first matching chat. */
  function FindChat(chats: seq<ChatSummary>, chatId: string): (r: Option<ChatSummary>)
    ensures r.None? <==> forall i :: 0 <= i < |chats| ==> !Matches(chats[i], chatId)
    ensures r.Some? ==> exists i :: 0 <= i < |chats| && chats[i] == r.value && Matches(chats[i], chatId)
                                  && forall j :: 0 <= j < i ==> !Matches(chats[j], chatId)
  {
    if |chats| == 0 then None
    else if Matches(chats[0], chatId) then Some(chats[0])
    else
      var rest := FindChat(chats[1..], chatId);
      assert forall i :: 1 <= i < |chats| ==> chats[i] == chats[1..][i - 1];
      if rest.Some? then
        var i :| 0 <= i < |chats[1..]| && chats[1..][i] == rest.value && Matches(chats[1..][i], chatId)
                 && forall j :: 0 <= j < i ==> !Matches(chats[1..][j], chatId);
        assert chats[i + 1] == rest.value;
        assert forall j :: 0 <= j < i + 1 ==> !Matches(chats[j], chatId) by {
          forall j | 0 <= j < i + 1 ensures !Matches(chats[j], chatId) {
            if j > 0 { assert chats[j] == chats[1..][j - 1]; }
          }
        }
        rest
      else rest
  }

  // ---------------------------------------------------------------------
  // Message bubbles

  /** The regular expression `^[1-9]\d{9,14}$` with the extra length bound:
      a digit 1-9 followed by 9 to 14 digits. */
  predicate IsPhoneNumber(s: string): (b: bool)
    ensures b ==> 10 <= |s| <= 15 && s[0] != '0' && '@' !in s
  {
    10 <= |s| <= 15 && '1' <= s[0] <= '9' && forall i :: 0 <= i < |s| ==> Text.IsDigit(s[i])
  }

  /** The chat info marks a group: `_chat?.isGroup ?? isGroup`, false
      without chat info. */
  predicate InfoIsGroup(info: Option<ChatSummary>) {
    info.Some? &&
    (var c := info.value;
     var innerGroup := if c.inner.Some? then c.inner.value.isGroup else None;
     Set(if innerGroup.Some? then innerGroup else c.isGroup))
  }

  /** The name fields probed for a sender, in order. */
  function NameProbes(m: Message): (p: seq<Option<string>>)
    ensures |p| == 6
  {
    [ if m.contact.Some? then m.contact.value.pushName else None,
      if m.contact.Some? then m.contact.value.name else None,
      if m.author.Some? then m.author.value.pushName else None,
      if m.author.Some? then m.author.value.name else None,
      m.notifyName,
      m.fromName ]
  }

  /** A name found by the probes is never empty. */
  lemma {:induction false} FoundNameIsFilled(probes: seq<Option<string>>)
    ensures FirstFilled(probes).Some? ==> Filled(FirstFilled(probes))
  {
    if |probes| > 0 && !Filled(probes[0]) {
      FoundNameIsFilled(probes[1..]);
    }
  }

  /** The label of a sender without a name: the id's local part when it
      looks like a phone number, else a generic group member, and
      "Desconhecido" without a sender id. */
  function FallbackLabel(from: Option<string>): (r: string)
    ensures r != ""
    ensures !Filled(from) ==> r == "Desconhecido"
    ensures Filled(from) && IsPhoneNumber(Text.Before(from.value, '@')) ==> r == Text.Before(from.value, '@')
    ensures Filled(from) && !IsPhoneNumber(Text.Before(from.value, '@')) ==> r == "Membro do grupo"
  {
    if Filled(from) then
      var local := Text.Before(from.value, '@');
      if IsPhoneNumber(local) then local else "Membro do grupo"
    else "Desconhecido"
  }

  /** The sender label of a bubble: shown only in a group and only for
      messages not sent by the user; the first name found, else the
      fallback. */
  function SenderLabel(info: Option<ChatSummary>, m: Message): (r: Option<string>)
    ensures r.Some? <==> InfoIsGroup(info) && !Set(m.fromMe)
    ensures r.Some? ==> r.value != ""
    ensures r.Some? && FirstFilled(NameProbes(m)).Some? ==> r == FirstFilled(NameProbes(m))
    ensures r.Some? && FirstFilled(NameProbes(m)).None? ==> r == Some(FallbackLabel(m.from))
  {
    if InfoIsGroup(info) && !Set(m.fromMe) then
      FoundNameIsFilled(NameProbes(m));
      match FirstFilled(NameProbes(m))
      case Some(name) => Some(name)
      case None => Some(FallbackLabel(m.from))
    else None
  }

  /** Without chat info no label is shown. */
  lemma NoInfoNoLabel(m: Message)
    ensures SenderLabel(None, m).None?
  {
  }

  /** A contact push name beats every other source. */
  lemma ContactPushNameFirst(info: Option<ChatSummary>, m: Message)
    requires InfoIsGroup(info) && !Set(m.fromMe)
    requires m.contact.Some? && Filled(m.contact.value.pushName)
    ensures SenderLabel(info, m) == m.contact.value.pushName
  {
    assert Filled(NameProbes(m)[0]);
  }

  /** A nameless sender whose id's local part is a phone number is
      labelled with that number, whatever the id's domain. */
  lemma PhoneIdIsShown(number: string, domain: string)
    requires IsPhoneNumber(number)
    ensures FallbackLabel(Some(number + "@" + domain)) == number
  {
    var id := number + "@" + domain;
    assert id[|number|] == '@';
    assert forall i :: 0 <= i < |number| ==> id[i] == number[i];
    Text.BeforeFirst(id, '@', |number|);
    assert id[..|number|] == number;
  }

  /** An id whose local part is longer than any phone number is hidden
      behind a generic label. */
  lemma InternalIdIsHidden(local: string, domain: string)
    requires |local| > 15 && '@' !in local
    ensures FallbackLabel(Some(local + "@" + domain)) == "Membro do grupo"
  {
    var id := local + "@" + domain;
    assert id[|local|] == '@';
    assert forall i :: 0 <= i < |local| ==> id[i] == local[i];
    Text.BeforeFirst(id, '@', |local|);
    assert id[..|local|] == local;
  }

  /** A leading zero is not a phone number. */
  lemma LeadingZeroIsNotPhone()
    ensures !IsPhoneNumber("0123456789")
  {
  }

  /** What a message bubble shows. `placeholder` marks a bubble with neither text
      nor media, which the source fills with a diagnostic placeholder. */
  datatype Bubble = Bubble(
    outgoing: bool, sender: Option<string>, text: string,
    showsMedia: bool, placeholder: bool, timestamp: Option<int>)

  /** `createMessageHtml`'s decisions for one message. */
  function BubbleOf(info: Option<ChatSummary>, m: Message): (b: Bubble)
    ensures b.outgoing <==> Set(m.fromMe)
    ensures b.sender == SenderLabel(info, m)
    ensures b.text == (if Filled(m.body) then m.body.value else if Filled(m.text) then m.text.value else "")
    ensures b.showsMedia <==> Set(m.hasMedia) && m.media.Some? && Filled(m.media.value.url)
    ensures b.placeholder <==> b.text == "" && !b.showsMedia
    ensures b.timestamp == m.timestamp
  {
    var probes := [m.body, m.text];
    assert probes[0] == m.body && probes[1] == m.text;
    var text := FirstFilled(probes).GetOr("");
    var media := Set(m.hasMedia) && m.media.Some? && Filled(m.media.value.url);
    Bubble(Set(m.fromMe), SenderLabel(info, m), text, media, text == "" && !media, m.timestamp)
  }
}
