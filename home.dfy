/** The Home page's conversation state machine: the transient list of
    rendered messages, the store fields it reads and sets (`input`,
    `isSending`, `activeChatId`, `chats`), and logs of what leaves the page:
    socket emits, store dispatches and HTTP requests. */
module HomePage {
  import opened JsString
  import opened Conversation

  /** `socket.emit("ai-message", {chat, content})`. */
  datatype Emit = Emit(chat: string, content: string)

  /** The payload of an inbound "ai-response" event. */
  datatype Payload = Payload(chat: string, content: string)

  /** The store actions the page dispatches. */
  datatype Action =
    | StartNewChat(chat: Chat)
    | SelectChat(id: string)
    | SetInput(text: string)
    | SendingStarted
    | SendingFinished
    | AddUserMessage(chatId: string, content: string)
    | AddAIMessage(replyChatId: Option<string>, content: string)
    | SetChats(list: seq<Chat>)

  /** The HTTP requests the page issues. */
  datatype Request = ListChats | CreateChat(title: string) | FetchMessages(chatId: string)

  /** JavaScript truthiness of the active chat id: null, undefined and the
      empty string all count as "no chat selected". */
  predicate IsSet(id: Option<string>) {
    id.Some? && id.value != ""
  }

  /** What the page puts on the socket: a chat id that is set and a
      non-empty, already-trimmed text. */
  predicate WellFormedEmit(e: Emit) {
    e.chat != "" && e.content != [] && Trim(e.content) == e.content
  }

  /** What the dispatch log says about sending, read oldest first: whether
      no `sendingStarted` was dispatched while an earlier send was still
      outstanding, whether a send is outstanding now (the last of the
      `sendingStarted` and `sendingFinished` dispatches is a start), and how
      many sends were started. */
  datatype SendTrack = SendTrack(noOverlap: bool, outstanding: bool, starts: nat)

  /** The effect of one dispatch on what the log says about sending. */
  function Step(t: SendTrack, a: Action): SendTrack {
    match a
    case SendingStarted => SendTrack(t.noOverlap && !t.outstanding, true, t.starts + 1)
    case SendingFinished => SendTrack(t.noOverlap, false, t.starts)
    case _ => t
  }

  /** The dispatch log read from its first action to its last. */
  function Track(log: seq<Action>): SendTrack {
    if log == [] then SendTrack(true, false, 0)
    else Step(Track(log[..|log| - 1]), log[|log| - 1])
  }

  /** Reading a log extended by one action is one more step. */
  lemma TrackAppend(log: seq<Action>, a: Action)
    ensures Track(log + [a]) == Step(Track(log), a)
  {
    assert (log + [a])[..|log|] == log;
  }

  /** The count kept by Track is the number of `sendingStarted` dispatches. */
  lemma {:induction false} StartsCount(log: seq<Action>)
    ensures Track(log).starts == multiset(log)[SendingStarted]
  {
    if log != [] {
      var prefix := log[..|log| - 1];
      StartsCount(prefix);
      assert log == prefix + [log[|log| - 1]];
    }
  }

  /** The three dispatches of an accepted send start exactly one send and
      leave it outstanding; they overlap an earlier send exactly when one was
      outstanding. */
  lemma SendDispatches(log: seq<Action>, chatId: string, text: string)
    ensures var t := Track(log);
      Track(log + [SendingStarted, AddUserMessage(chatId, text), SetInput("")])
        == SendTrack(t.noOverlap && !t.outstanding, true, t.starts + 1)
  {
    TrackAppend(log, SendingStarted);
    TrackAppend(log + [SendingStarted], AddUserMessage(chatId, text));
    TrackAppend(log + [SendingStarted] + [AddUserMessage(chatId, text)], SetInput(""));
    assert log + [SendingStarted] + [AddUserMessage(chatId, text)] + [SetInput("")]
        == log + [SendingStarted, AddUserMessage(chatId, text), SetInput("")];
  }

  /** The two dispatches of a reply finish whatever send was outstanding and
      start none. */
  lemma ReplyDispatches(log: seq<Action>, chatId: Option<string>, text: string)
    ensures var t := Track(log);
      Track(log + [AddAIMessage(chatId, text), SendingFinished]) == SendTrack(t.noOverlap, false, t.starts)
  {
    TrackAppend(log, AddAIMessage(chatId, text));
    TrackAppend(log + [AddAIMessage(chatId, text)], SendingFinished);
    assert log + [AddAIMessage(chatId, text)] + [SendingFinished]
        == log + [AddAIMessage(chatId, text), SendingFinished];
  }

  /** A `sendingStarted` followed by no `sendingFinished` leaves a send
      outstanding. */
  lemma {:induction false} OutstandingAfterStart(log: seq<Action>, i: nat, j: nat)
    requires i < j <= |log| && log[i] == SendingStarted
    requires forall k :: i < k < j ==> log[k] != SendingFinished
    ensures Track(log[..j]).outstanding
  {
    var prefix := log[..j];
    assert prefix[|prefix| - 1] == log[j - 1];
    if j - 1 > i && log[j - 1] != SendingStarted {
      assert prefix[..|prefix| - 1] == log[..j - 1];
      OutstandingAfterStart(log, i, j - 1);
    }
  }

  /** What a log free of overlapping sends means: between any two
      `sendingStarted` dispatches there is a `sendingFinished`, so no two
      sends are ever in flight together. */
  lemma {:induction false} StartsSeparatedByFinish(log: seq<Action>, i: nat, j: nat)
    requires Track(log).noOverlap
    requires i < j < |log| && log[i] == SendingStarted && log[j] == SendingStarted
    ensures exists k :: i < k < j && log[k] == SendingFinished
  {
    var prefix := log[..|log| - 1];
    if j < |log| - 1 {
      assert prefix[i] == log[i] && prefix[j] == log[j];
      StartsSeparatedByFinish(prefix, i, j);
      var k :| i < k < j && prefix[k] == SendingFinished;
      assert log[k] == SendingFinished;
    } else if forall k :: i < k < j ==> log[k] != SendingFinished {
      assert log[..j] == prefix;
      OutstandingAfterStart(log, i, j);
      assert false;
    }
  }

  class Home {
    /** The component-local `messages` list that is rendered. */
    var messages: seq<Msg>
    /** Store fields. */
    var input: string
    var isSending: bool
    var activeChatId: Option<string>
    var chats: seq<Chat>
    /** The `activeChatId` captured by the current "ai-response" listener,
        taken when the subscribing effect last ran. */
    var listenerChatId: Option<string>
    /** Outbound traffic, oldest first. */
    var emits: seq<Emit>
    var dispatched: seq<Action>
    var requests: seq<Request>

    /** Every emit is well formed; there are as many emits as
        `sendingStarted` dispatches (see StartsCount); no `sendingStarted` is
        dispatched while an earlier one has not been followed by a
        `sendingFinished` (see StartsSeparatedByFinish); and while the log
        says a send is outstanding, `isSending` is set. */
    ghost predicate Valid()
      reads this
    {
      && (forall i :: 0 <= i < |emits| ==> WellFormedEmit(emits[i]))
      && Track(dispatched).noOverlap
      && Track(dispatched).starts == |emits|
      && (Track(dispatched).outstanding ==> isSending)
    }

    /** The guard of `sendMessage`. */
    predicate CanSend()
      reads this
    {
      Trim(input) != "" && IsSet(activeChatId) && !isSending
    }

    /** First render and the mounting effect: an empty message list, the
        store's initial fields, a listener subscribed with the current chat
        id and the chat-list request on its way. */
    constructor (activeChatId: Option<string>, input: string, isSending: bool, chats: seq<Chat>)
      ensures Valid()
      ensures this.messages == [] && this.input == input && this.isSending == isSending
      ensures this.activeChatId == activeChatId && this.chats == chats
      ensures listenerChatId == activeChatId
      ensures emits == [] && dispatched == [] && requests == [ListChats]
    {
      this.messages := [];
      this.input := input;
      this.isSending := isSending;
      this.activeChatId := activeChatId;
      this.chats := chats;
      this.listenerChatId := activeChatId;
      this.emits := [];
      this.dispatched := [];
      this.requests := [ListChats];
    }

    /** The chat-list request resolves: the store receives the server's list
        reversed. When the request fails this handler never runs. */
    method ChatsLoaded(serverChats: seq<Chat>)
      requires Valid()
      modifies this
      ensures Valid()
      ensures chats == Reverse(serverChats)
      ensures dispatched == old(dispatched) + [SetChats(Reverse(serverChats))]
      ensures messages == old(messages) && input == old(input) && isSending == old(isSending)
      ensures activeChatId == old(activeChatId) && listenerChatId == old(listenerChatId)
      ensures emits == old(emits) && requests == old(requests)
    {
      var list := Reverse(serverChats);
      TrackAppend(dispatched, SetChats(list));
      dispatched := dispatched + [SetChats(list)];
      chats := list;
    }

    /** The effect runs again after `activeChatId` changed: a new listener
        captures the current id and the chat list is requested again. */
    method Resubscribe()
      requires Valid()
      modifies this
      ensures Valid()
      ensures listenerChatId == activeChatId
      ensures requests == old(requests) + [ListChats]
      ensures messages == old(messages) && input == old(input) && isSending == old(isSending)
      ensures activeChatId == old(activeChatId) && chats == old(chats)
      ensures emits == old(emits) && dispatched == old(dispatched)
    {
      requests := requests + [ListChats];
      listenerChatId := activeChatId;
    }

    /** The composer's `setInput`: the user edits the pending text. */
    method EditInput(v: string)
      requires Valid()
      modifies this
      ensures Valid()
      ensures input == v && dispatched == old(dispatched) + [SetInput(v)]
      ensures messages == old(messages) && isSending == old(isSending)
      ensures activeChatId == old(activeChatId) && chats == old(chats)
      ensures listenerChatId == old(listenerChatId)
      ensures emits == old(emits) && requests == old(requests)
    {
      TrackAppend(dispatched, SetInput(v));
      dispatched := dispatched + [SetInput(v)];
      input := v;
    }

    /** `getMessages`: `response` is the fetched history, or None when the
        request fails. A history overwrites the rendered list wholesale; a
        failed request leaves it as it was. Nothing else on the page
        changes. */
    method GetMessages(chatId: string, response: Option<seq<Record>>)
      requires Valid()
      modifies this
      ensures Valid()
      ensures messages == if response.Some? then MapHistory(response.value) else old(messages)
      ensures requests == old(requests) + [FetchMessages(chatId)]
      ensures input == old(input) && isSending == old(isSending)
      ensures activeChatId == old(activeChatId) && chats == old(chats)
      ensures listenerChatId == old(listenerChatId)
      ensures emits == old(emits) && dispatched == old(dispatched)
    {
      requests := requests + [FetchMessages(chatId)];
      if response.Some? {
        messages := MapHistory(response.value);
      }
    }

    /** The sidebar's `onSelectChat`: the chat becomes active, then its
        history replaces the rendered list. When the history request fails
        the previous chat's list stays on screen. */
    method OnSelectChat(id: string, response: Option<seq<Record>>)
      requires Valid()
      modifies this
      ensures Valid()
      ensures activeChatId == Some(id)
      ensures messages == if response.Some? then MapHistory(response.value) else old(messages)
      ensures dispatched == old(dispatched) + [SelectChat(id)]
      ensures requests == old(requests) + [FetchMessages(id)]
      ensures input == old(input) && isSending == old(isSending) && chats == old(chats)
      ensures listenerChatId == old(listenerChatId) && emits == old(emits)
    {
      TrackAppend(dispatched, SelectChat(id));
      dispatched := dispatched + [SelectChat(id)];
      activeChatId := Some(id);
      GetMessages(id, response);
    }

    /** `handleNewChat`. `prompted` is what the title prompt returned (None
        when cancelled); `created` is the chat the server answers with (None
        when the request fails); `activeAfter`, `chatsAfter` and `inputAfter`
        are the store's fields as the `startNewChat` reducer leaves them; and
        `history` is the new chat's fetched history (None when that request
        fails). An absent or blank title returns before any request. A failed
        creation stops after its request. Otherwise `startNewChat` is
        dispatched and the new chat's history is loaded. */
    method HandleNewChat(prompted: Option<string>, created: Option<Chat>,
                         activeAfter: Option<string>, chatsAfter: seq<Chat>, inputAfter: string,
                         history: Option<seq<Record>>)
      requires Valid()
      modifies this
      ensures Valid()
      ensures NewChatTitle(prompted).None? ==> unchanged(this)
      ensures NewChatTitle(prompted).Some? && created.None? ==>
        && requests == old(requests) + [CreateChat(NewChatTitle(prompted).value)]
        && messages == old(messages) && dispatched == old(dispatched)
        && input == old(input) && isSending == old(isSending)
        && activeChatId == old(activeChatId) && chats == old(chats)
        && listenerChatId == old(listenerChatId) && emits == old(emits)
      ensures NewChatTitle(prompted).Some? && created.Some? ==>
        && requests == old(requests) + [CreateChat(NewChatTitle(prompted).value), FetchMessages(created.value.id)]
        && dispatched == old(dispatched) + [StartNewChat(created.value)]
        && messages == (if history.Some? then MapHistory(history.value) else old(messages))
        && activeChatId == activeAfter && chats == chatsAfter && input == inputAfter
        && isSending == old(isSending)
        && listenerChatId == old(listenerChatId) && emits == old(emits)
    {
      var title := NewChatTitle(prompted);
      if title.None? {
        return;
      }
      requests := requests + [CreateChat(title.value)];
      if created.None? {
        return;
      }
      TrackAppend(dispatched, StartNewChat(created.value));
      dispatched, activeChatId, chats, input := dispatched + [StartNewChat(created.value)], activeAfter, chatsAfter, inputAfter;
      GetMessages(created.value.id, history);
    }

    /** `sendMessage`. A blank input, no active chat or a send already in
        flight changes nothing. Otherwise the trimmed input is appended as a
        user message (every earlier message kept), sending starts, the input
        is cleared and the same text is emitted for the active chat. */
    method SendMessage()
      requires Valid()
      modifies this
      ensures Valid()
      ensures !old(CanSend()) ==> unchanged(this)
      ensures old(CanSend()) ==>
        && |messages| == |old(messages)| + 1
        && messages[..|old(messages)|] == old(messages)
        && messages[|old(messages)|] == Msg(User, Trim(old(input)))
        && input == "" && isSending
        && emits == old(emits) + [Emit(old(activeChatId).value, Trim(old(input)))]
        && dispatched == old(dispatched) + [SendingStarted,
             AddUserMessage(old(activeChatId).value, Trim(old(input))), SetInput("")]
        && requests == old(requests) && activeChatId == old(activeChatId)
        && chats == old(chats) && listenerChatId == old(listenerChatId)
      ensures old(CanSend()) ==>
        var sent := emits[|emits| - 1];
        sent.content != [] && sent.content == messages[|messages| - 1].content
    {
      var trimmed := Trim(input);
      if trimmed == "" || !IsSet(activeChatId) || isSending {
        return;
      }
      var chatId := activeChatId.value;
      SendDispatches(dispatched, chatId, trimmed);
      TrimIdempotent(input);
      // sendingStarted, the optimistic append, addUserMessage, setInput(''), emit
      isSending, messages := true, messages + [Msg(User, trimmed)];
      dispatched, input := dispatched + [SendingStarted, AddUserMessage(chatId, trimmed), SetInput("")], "";
      emits := emits + [Emit(chatId, trimmed)];
    }

    /** The "ai-response" listener. The reply is appended to whatever list is
        showing and recorded under the chat id the listener captured; the
        payload's own chat id is not consulted. Any reply ends sending. */
    method OnAiResponse(payload: Payload)
      requires Valid()
      modifies this
      ensures Valid()
      ensures |messages| == |old(messages)| + 1
      ensures messages[..|old(messages)|] == old(messages)
      ensures messages[|old(messages)|] == Msg(Ai, payload.content)
      ensures messages == old(messages) + [Msg(Ai, payload.content)]
      ensures !isSending
      ensures dispatched == old(dispatched) + [AddAIMessage(listenerChatId, payload.content), SendingFinished]
      ensures input == old(input) && activeChatId == old(activeChatId) && chats == old(chats)
      ensures listenerChatId == old(listenerChatId)
      ensures emits == old(emits) && requests == old(requests)
    {
      ReplyDispatches(dispatched, listenerChatId, payload.content);
      messages := messages + [Msg(Ai, payload.content)];
      dispatched := dispatched + [AddAIMessage(listenerChatId, payload.content), SendingFinished];
      isSending := false;
    }
  }

  /** Two sends with only typing in between put at most one message on the
      socket: once the first is accepted, the second is refused whatever was
      typed. */
  method SendTypeSend(h: Home, typed: string)
    requires h.Valid()
    modifies h
    ensures h.Valid()
    ensures |h.emits| <= |old(h.emits)| + 1
    ensures old(h.CanSend()) ==>
      && h.emits == old(h.emits) + [Emit(old(h.activeChatId).value, Trim(old(h.input)))]
      && h.messages == old(h.messages) + [Msg(User, Trim(old(h.input)))]
      && h.input == typed && h.isSending
  {
    h.SendMessage();
    h.EditInput(typed);
    h.SendMessage();
  }

  /** A reply re-enables sending: after an accepted send and its reply, a
      non-blank input is sent again to the same chat. */
  method SendReplySend(h: Home, reply: Payload, typed: string)
    requires h.Valid()
    modifies h
    ensures h.Valid()
    ensures old(h.CanSend()) && Trim(typed) != "" ==>
      && |h.emits| == |old(h.emits)| + 2
      && h.emits[|h.emits| - 1] == Emit(old(h.activeChatId).value, Trim(typed))
      && h.isSending
  {
    h.SendMessage();
    h.OnAiResponse(reply);
    h.EditInput(typed);
    h.SendMessage();
  }

  /** Selecting a chat, sending and receiving the reply leaves the page
      showing exactly what a fresh fetch of that chat shows once the server
      has stored the user's text and the assistant's answer. */
  method LoadSendReply(h: Home, id: string, history: seq<Record>, typed: string, reply: Payload)
    requires h.Valid()
    modifies h
    ensures h.Valid()
    ensures id != "" && Trim(typed) != "" && !old(h.isSending) ==>
      h.messages == MapHistory(history + [Record("user", Trim(typed)), Record("assistant", reply.content)])
      && !h.isSending
  {
    h.OnSelectChat(id, Some(history));
    h.EditInput(typed);
    ghost var accepted := h.CanSend();
    h.SendMessage();
    ghost var sent := h.messages;
    assert accepted ==> sent == MapHistory(history) + [Msg(User, Trim(typed))];
    h.OnAiResponse(reply);
    assert h.messages == sent + [Msg(Ai, reply.content)];
    ReloadMatchesOptimisticView(history, Trim(typed), reply.content);
  }

  /** When the history request for a newly selected chat fails, the previous
      chat's messages stay on screen, the next send is appended to them, and
      its text is emitted to the newly selected chat. */
  method FailedLoadThenSend(h: Home, id: string, typed: string)
    requires h.Valid()
    modifies h
    ensures h.Valid()
    ensures id != "" && Trim(typed) != "" && !old(h.isSending) ==>
      && h.messages == old(h.messages) + [Msg(User, Trim(typed))]
      && h.emits == old(h.emits) + [Emit(id, Trim(typed))]
  {
    h.OnSelectChat(id, None);
    h.EditInput(typed);
    h.SendMessage();
  }
}
