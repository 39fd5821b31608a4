/** The page state behind the conversation view: the selected chat, its
    chat-list record, the message pane and the chat list. Selecting a chat
    is asynchronous: the selection is recorded at once, and the chat-list
    lookup and the history arrive later as separate events. Neither event
    checks that its chat is still the selected one. */
module Conversation {
  import opened Wrappers
  import opened Chat
  import Timeline

  /** An entry of the message pane. */
  datatype PaneEntry = NoMessagesNotice | MessageBubble(b: Bubble)

  /** `renderMessages`: a notice when there is nothing to show, else one
      bubble per message, in the order given. */
  function RenderMessages(info: Option<ChatSummary>, messages: Option<seq<Message>>): (p: seq<PaneEntry>)
    ensures messages.None? || messages.value == [] ==> p == [NoMessagesNotice]
    ensures messages.Some? && messages.value != [] ==>
              |p| == |messages.value| &&
              forall i :: 0 <= i < |p| ==> p[i] == MessageBubble(BubbleOf(info, messages.value[i]))
  {
    if messages.None? || messages.value == [] then [NoMessagesNotice]
    else
      var ms := messages.value;
      seq(|ms|, i requires 0 <= i < |ms| => MessageBubble(BubbleOf(info, ms[i])))
  }

  /** The key a bubble is ordered by: its timestamp, 0 when missing. */
  function BubbleTime(e: PaneEntry): int
    requires e.MessageBubble?
  {
    e.b.timestamp.GetOr(0)
  }

  /** A rendered history shows its bubbles in ascending timestamp order. */
  lemma RenderedHistoryAscending(info: Option<ChatSummary>, ms: seq<Message>)
    requires ms != []
    ensures var p := RenderMessages(info, Some(Timeline.SortByTime(ms)));
            (forall i :: 0 <= i < |p| ==> p[i].MessageBubble?) &&
            forall i, j :: 0 <= i < j < |p| ==> BubbleTime(p[i]) <= BubbleTime(p[j])
  {
    var sorted := Timeline.SortByTime(ms);
    Timeline.SortByTimeSorted(ms);
    var p := RenderMessages(info, Some(sorted));
    forall i, j | 0 <= i < j < |p| ensures BubbleTime(p[i]) <= BubbleTime(p[j]) {
      assert Timeline.TimeKey(sorted[i]) <= Timeline.TimeKey(sorted[j]);
    }
  }

  class View {
    /** The selected chat id (`currentChat`). */
    var currentChat: Option<string>
    /** The chat-list record of the selected chat (`currentChatInfo`). */
    var currentChatInfo: Option<ChatSummary>
    /** The message pane. */
    var pane: seq<PaneEntry>
    /** The chat list. */
    var chatList: seq<ChatItem>
    /** How many chat-list reloads the page has started. */
    var chatListRequests: nat

    constructor()
      ensures currentChat.None? && currentChatInfo.None?
      ensures pane == [] && chatList == [] && chatListRequests == 0
    {
      currentChat := None;
      currentChatInfo := None;
      pane := [];
      chatList := [];
      chatListRequests := 0;
    }

    /** `setCurrentChat`: selecting a chat forgets the previous chat's record. */
    method SetCurrentChat(chatId: string)
      modifies this
      ensures currentChat == Some(chatId) && currentChatInfo.None?
      ensures pane == old(pane) && chatList == old(chatList) && chatListRequests == old(chatListRequests)
    {
      currentChat := Some(chatId);
      currentChatInfo := None;
    }

    /** A click on a chat: the selection is recorded before any request is
        sent (`selectChat` in the page, then in the chat module). */
    method BeginSelect(chatId: string)
      modifies this
      ensures currentChat == Some(chatId) && currentChatInfo.None?
      ensures pane == old(pane) && chatList == old(chatList) && chatListRequests == old(chatListRequests)
    {
      SetCurrentChat(chatId);
      currentChat := Some(chatId);
    }

    /** The chat-list lookup of a selection returns: the record of the chat
        with that id, or none when the request failed, the reply is not an
        array or no chat matches. The result is stored even if another chat
        has been selected in the meantime. */
    method ChatInfoArrived(chatId: string, reply: Listing<ChatSummary>)
      modifies this
      ensures currentChatInfo == (if reply.Items? then FindChat(reply.items, chatId) else None)
      ensures currentChatInfo.Some? ==> Matches(currentChatInfo.value, chatId)
      ensures currentChat == old(currentChat) && pane == old(pane)
      ensures chatList == old(chatList) && chatListRequests == old(chatListRequests)
    {
      if reply.Items? {
        currentChatInfo := FindChat(reply.items, chatId);
      } else {
        currentChatInfo := None;
      }
    }

    /** The history of a selection returns. An array is sorted in place by
        timestamp and rendered with the chat record current at that moment;
        a null reply shows the no-messages notice; a failed request or a
        reply that is not an array leaves the pane as it was. */
    method HistoryArrived(reply: Listing<Message>)
      modifies this
      ensures reply.Items? ==> pane == RenderMessages(old(currentChatInfo), Some(Timeline.SortByTime(reply.items)))
      ensures reply.Nullish? ==> pane == [NoMessagesNotice]
      ensures reply.Failed? || reply.NonList? ==> pane == old(pane)
      ensures currentChat == old(currentChat) && currentChatInfo == old(currentChatInfo)
      ensures chatList == old(chatList) && chatListRequests == old(chatListRequests)
    {
      match reply
      case Items(ms) =>
        var a := new Message[|ms|](i requires 0 <= i < |ms| => ms[i]);
        assert a[..] == ms;
        Timeline.SortByTimestamp(a);
        pane := RenderMessages(currentChatInfo, Some(a[..]));
      case Nullish =>
        pane := RenderMessages(currentChatInfo, None);
      case _ =>
    }

    /** A chat-list reload is started. */
    method RequestChatList()
      modifies this
      ensures chatListRequests == old(chatListRequests) + 1
      ensures currentChat == old(currentChat) && currentChatInfo == old(currentChatInfo)
      ensures pane == old(pane) && chatList == old(chatList)
    {
      chatListRequests := chatListRequests + 1;
    }

    /** A chat-list reload returns. A failed request shows an empty list; an
        array is rendered against the selected chat; a reply that is not an
        array, or a chat whose rendering throws, leaves the list unchanged. */
    method ChatListArrived(reply: Listing<ChatSummary>)
      modifies this
      ensures reply.Failed? ==> chatList == []
      ensures reply.Items? && RenderChats(old(currentChat), reply.items).Some? ==>
                chatList == RenderChats(old(currentChat), reply.items).value
      ensures reply.Items? && RenderChats(old(currentChat), reply.items).None? ==> chatList == old(chatList)
      ensures reply.Nullish? || reply.NonList? ==> chatList == old(chatList)
      ensures currentChat == old(currentChat) && currentChatInfo == old(currentChatInfo)
      ensures pane == old(pane) && chatListRequests == old(chatListRequests)
    {
      var chats := LoadChats(reply);
      if chats.Items? {
        var rendered := RenderChats(currentChat, chats.items);
        if rendered.Some? {
          chatList := rendered.value;
        }
      }
    }
  }

  /** Two quick clicks: chat A is selected, then chat B; A's lookup and
      history arrive afterwards. The pane shows A's history while B is the
      selected chat, and B is labelled with A's record. */
  method StaleSelectionIsShown(a: ChatSummary, m: Message) returns (v: View)
    requires a.id == IdText("A@c.us")
    ensures v.currentChat == Some("B@c.us")
    ensures v.currentChatInfo == Some(a)
    ensures v.pane == [MessageBubble(BubbleOf(Some(a), m))]
  {
    v := new View();
    v.BeginSelect("A@c.us");
    v.BeginSelect("B@c.us");
    v.ChatInfoArrived("A@c.us", Items([a]));
    v.HistoryArrived(Items([m]));
    assert [m][..0] == [];
    assert Timeline.SortByTime([m]) == [m];
  }
}
