/** The operator console's client-side state: the active and closed chat
    lists, the chat currently open with its message list, the analytics
    counters, the draft input and the connection status. Every state
    update of the component is a pure transition here; the results of the
    REST calls and the socket payloads are parameters, and so is the
    wall-clock timestamp written into a preview. */
module AdminConsole {
  import opened Protocol
  import opened Text
  import Connection

  /** A chat list entry as the console keeps it. */
  datatype Chat = Chat(
    id: string,
    lastMessage: Option<string>,
    updatedAt: Option<string>,
    status: ChatStatus,
    userName: Option<string>)

  /** The owning user of a chat summary delivered by the chat list endpoint. */
  datatype RawUser = RawUser(name: Option<string>)

  /** A chat summary as the chat list endpoint delivers it. */
  datatype RawChat = RawChat(
    id: string,
    lastMessage: Option<string>,
    updatedAt: Option<string>,
    status: ChatStatus,
    user: Option<RawUser>)

  /** The counters delivered by the analytics endpoint, as whole numbers.
      The component keeps them as JavaScript numbers; integers are exact
      for whole counts below 2^53. */
  datatype Analytics = Analytics(activeCount: int, closedCount: int, totalCount: int)

  datatype Console = Console(
    activeChats: seq<Chat>,
    closedChats: seq<Chat>,
    openChat: Option<Chat>,
    messages: seq<Message>,
    input: string,
    status: Connection.Status,
    analytics: Analytics)

  /** Preview shown for a chat whose summary carries no last message. */
  const NoMessagesYet: string := "No messages yet"

  /** Ids of a list of entries, in order. */
  function Ids(chats: seq<Chat>): seq<string>
  {
    seq(|chats|, i requires 0 <= i < |chats| => chats[i].id)
  }

  /** Number of entries whose id is `id`. */
  function CountId(chats: seq<Chat>, id: string): nat
  {
    if chats == [] then 0
    else (if chats[0].id == id then 1 else 0) + CountId(chats[1..], id)
  }

  // ---------------------------------------------------------------------
  // Mount and initial load

  /** State on mount, once the connection status has been read from the
      shared socket. */
  function Init(connected: bool): (c: Console)
    ensures c.activeChats == [] && c.closedChats == [] && c.messages == []
    ensures c.openChat.None? && c.input == ""
    ensures c.status == Connection.Online <==> connected
    ensures c.status != Connection.Offline
    ensures c.analytics == Analytics(0, 0, 0)
  {
    Console([], [], None, [], "", Connection.Initial(connected), Analytics(0, 0, 0))
  }

  /** Maps a chat summary to a list entry. A missing last message and an
      empty one alike become the placeholder preview; the user's name,
      when present, becomes the entry's display name. */
  function MapChat(raw: RawChat): (c: Chat)
    ensures c.id == raw.id && c.status == raw.status && c.updatedAt == raw.updatedAt
    ensures c.lastMessage.Some? && c.lastMessage.value != []
    ensures raw.lastMessage.Some? && raw.lastMessage.value != [] ==> c.lastMessage == raw.lastMessage
    ensures raw.lastMessage.None? || raw.lastMessage.value == [] ==> c.lastMessage == Some(NoMessagesYet)
    ensures c.userName.Some? <==> raw.user.Some? && raw.user.value.name.Some?
    ensures c.userName.Some? ==> c.userName == raw.user.value.name
  {
    var preview :=
      if raw.lastMessage.Some? && raw.lastMessage.value != [] then raw.lastMessage.value
      else NoMessagesYet;
    var name := if raw.user.Some? then raw.user.value.name else None;
    Chat(raw.id, Some(preview), raw.updatedAt, raw.status, name)
  }

  function MapChats(raws: seq<RawChat>): seq<Chat>
  {
    seq(|raws|, i requires 0 <= i < |raws| => MapChat(raws[i]))
  }

  /** Installs the three fetched results: each list entry is the mapped
      summary at the same position, so both lists keep the server's order
      and ids and every entry has a non-empty preview; the analytics
      are taken as delivered, and the open chat, its messages, the draft
      and the status are untouched. */
  function Loaded(s: Console, activeData: seq<RawChat>, closedData: seq<RawChat>, stats: Analytics): (r: Console)
    ensures |r.activeChats| == |activeData| && |r.closedChats| == |closedData|
    ensures forall i :: 0 <= i < |activeData| ==> r.activeChats[i] == MapChat(activeData[i])
    ensures forall i :: 0 <= i < |closedData| ==> r.closedChats[i] == MapChat(closedData[i])
    ensures forall i :: 0 <= i < |activeData| ==> r.activeChats[i].id == activeData[i].id
    ensures forall i :: 0 <= i < |closedData| ==> r.closedChats[i].id == closedData[i].id
    ensures forall c :: c in r.activeChats + r.closedChats ==> c.lastMessage.Some? && c.lastMessage.value != []
    ensures r.analytics == stats
    ensures r.openChat == s.openChat && r.messages == s.messages
    ensures r.input == s.input && r.status == s.status
  {
    s.(activeChats := MapChats(activeData), closedChats := MapChats(closedData), analytics := stats)
  }

  // ---------------------------------------------------------------------
  // Connection status

  /** A `connect` or `disconnect` event; nothing but the status changes. */
  function OnLink(s: Console, e: Connection.LinkEvent): (r: Console)
    ensures r.status == Connection.Online <==> e == Connection.Connect
    ensures r.status == Connection.Offline <==> e == Connection.Disconnect
    ensures r.(status := s.status) == s
  {
    s.(status := Connection.OnEvent(s.status, e))
  }

  // ---------------------------------------------------------------------
  // Opening a chat

  /** Selecting a chat opens it and joins its room. The message list is
      replaced only when the history request answers (`MessagesLoaded`). */
  function OpenChat(s: Console, chat: Chat): (r: (Console, Emit))
    ensures r.0.openChat == Some(chat)
    ensures r.1 == JoinChat(chat.id)
    ensures r.0.(openChat := s.openChat) == s
  {
    (s.(openChat := Some(chat)), JoinChat(chat.id))
  }

  /** The history of the open chat has arrived. */
  function MessagesLoaded(s: Console, history: seq<Message>): (r: Console)
    ensures r.messages == history
    ensures r.(messages := s.messages) == s
  {
    s.(messages := history)
  }

  // ---------------------------------------------------------------------
  // Receiving a message

  /** Appends an incoming message unless it repeats the last one held
      (same sender and same content). Only the immediately preceding
      message is compared. */
  function AppendDedup(prev: seq<Message>, m: Message): (r: seq<Message>)
    ensures |prev| <= |r| <= |prev| + 1
    ensures r[..|prev|] == prev
    ensures r != [] && r[|r| - 1] == m
    ensures |r| == |prev| <==> |prev| > 0 && prev[|prev| - 1] == m
  {
    if |prev| > 0 && prev[|prev| - 1].content == m.content && prev[|prev| - 1].sender == m.sender then prev
    else prev + [m]
  }

  /** Sets the preview and timestamp of every entry whose id is `chatId`. */
  function PatchPreview(chats: seq<Chat>, chatId: string, content: string, now: string): (r: seq<Chat>)
    ensures |r| == |chats|
    ensures forall i :: 0 <= i < |chats| ==>
      r[i].id == chats[i].id && r[i].status == chats[i].status && r[i].userName == chats[i].userName
    ensures forall i :: 0 <= i < |chats| && chats[i].id == chatId ==>
      r[i].lastMessage == Some(content) && r[i].updatedAt == Some(now)
    ensures forall i :: 0 <= i < |chats| && chats[i].id != chatId ==> r[i] == chats[i]
  {
    if chats == [] then []
    else
      var head :=
        if chats[0].id == chatId then chats[0].(lastMessage := Some(content), updatedAt := Some(now))
        else chats[0];
      [head] + PatchPreview(chats[1..], chatId, content, now)
  }

  /** The `receive-message` handler. The message list changes only when a
      chat is open and the event belongs to it; the previews of both lists
      are patched whichever chat the event belongs to. */
  function Receive(s: Console, chatId: string, m: Message, now: string): (r: Console)
    ensures s.openChat.Some? && s.openChat.value.id == chatId ==> r.messages == AppendDedup(s.messages, m)
    ensures r.messages != s.messages ==> s.openChat.Some? && s.openChat.value.id == chatId
    ensures r.activeChats == PatchPreview(s.activeChats, chatId, m.content, now)
    ensures r.closedChats == PatchPreview(s.closedChats, chatId, m.content, now)
    ensures r.openChat == s.openChat && r.input == s.input
    ensures r.status == s.status && r.analytics == s.analytics
  {
    var messages :=
      if s.openChat.Some? && chatId == s.openChat.value.id then AppendDedup(s.messages, m)
      else s.messages;
    s.(messages := messages,
       activeChats := PatchPreview(s.activeChats, chatId, m.content, now),
       closedChats := PatchPreview(s.closedChats, chatId, m.content, now))
  }

  // ---------------------------------------------------------------------
  // Sending a reply

  /** `sendMessage`: refused without effect when the trimmed draft is
      empty, no chat is open, or the open chat is closed; otherwise emits
      the untrimmed draft as an ADMIN message for the open chat and clears
      the draft. The message list waits for the server's echo. */
  function Send(s: Console): (r: (Console, Option<Emit>))
    ensures r.1.None? <==> IsBlank(s.input) || s.openChat.None? || s.openChat.value.status == Closed
    ensures r.1.None? ==> r.0 == s
    ensures r.1.Some? ==> r.1.value == SendMessage(Some(s.openChat.value.id), s.input, Admin)
    ensures r.1.Some? ==> !IsBlank(r.1.value.content)
    ensures r.1.Some? ==> r.0.input == [] && r.0.(input := s.input) == s
  {
    if Trim(s.input) == [] || s.openChat.None? || s.openChat.value.status == Closed then (s, None)
    else (s.(input := ""), Some(SendMessage(Some(s.openChat.value.id), s.input, Admin)))
  }

  // ---------------------------------------------------------------------
  // Closing a chat

  /** The entries whose id differs from `id`, in their original order; the
      list is shorter by the number of entries carrying `id`. */
  function RemoveId(chats: seq<Chat>, id: string): (r: seq<Chat>)
    ensures |r| == |chats| - CountId(chats, id)
  {
    if chats == [] then []
    else if chats[0].id == id then RemoveId(chats[1..], id)
    else [chats[0]] + RemoveId(chats[1..], id)
  }

  /** The filtered list holds exactly the entries whose id differs. */
  lemma {:induction false} RemoveIdMembers(chats: seq<Chat>, id: string)
    ensures forall c :: c in RemoveId(chats, id) <==> c in chats && c.id != id
    decreases |chats|
  {
    if chats != [] {
      RemoveIdMembers(chats[1..], id);
      assert chats == [chats[0]] + chats[1..];
    }
  }

  /** One less than `n`, but never below zero. */
  function DecrementClamped(n: int): (r: int)
    ensures r >= 0
    ensures n >= 1 ==> r == n - 1
    ensures n < 1 ==> r == 0
  {
    if n - 1 > 0 then n - 1 else 0
  }

  /** `closeChatFromAdmin`. Nothing happens when no chat is open or the
      open chat is already closed. Otherwise the close request is sent;
      `delivered` tells whether it got any HTTP answer (the status code is
      not inspected). Without an answer the awaited call throws and the
      state is left as it was. With one, the open chat becomes CLOSED,
      every entry with its id leaves the active list, the closed copy is
      put at the front of the closed list, one chat moves from the active
      to the closed counter with the active counter clamped at zero, and
      the total is kept. */
  function CloseChat(s: Console, delivered: bool): (r: Console)
    ensures s.openChat.None? || s.openChat.value.status == Closed || !delivered ==> r == s
    ensures s.openChat.Some? && s.openChat.value.status != Closed && delivered ==>
      var chat := s.openChat.value;
      && r.openChat == Some(chat.(status := Closed))
      && r.activeChats == RemoveId(s.activeChats, chat.id)
      && (forall c :: c in r.activeChats ==> c in s.activeChats && c.id != chat.id)
      && (forall c :: c in s.activeChats && c.id != chat.id ==> c in r.activeChats)
      && |r.activeChats| + |r.closedChats| == |s.activeChats| + |s.closedChats| + 1 - CountId(s.activeChats, chat.id)
      && r.closedChats == [chat.(status := Closed)] + s.closedChats
      && r.analytics.activeCount == (if s.analytics.activeCount >= 1 then s.analytics.activeCount - 1 else 0)
      && r.analytics.closedCount == s.analytics.closedCount + 1
      && r.analytics.totalCount == s.analytics.totalCount
      && r.messages == s.messages && r.input == s.input && r.status == s.status
    ensures r.analytics.activeCount >= 0 || r == s
  {
    if s.openChat.None? || s.openChat.value.status == Closed || !delivered then s
    else
      RemoveIdMembers(s.activeChats, s.openChat.value.id);
      var closed := s.openChat.value.(status := Closed);
      s.(openChat := Some(closed),
         activeChats := RemoveId(s.activeChats, s.openChat.value.id),
         closedChats := [closed] + s.closedChats,
         analytics := s.analytics.(
           activeCount := DecrementClamped(s.analytics.activeCount),
           closedCount := s.analytics.closedCount + 1))
  }
}
