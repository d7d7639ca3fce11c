# Chat page conversation state, in Dafny

This project models the client-side conversation state machine of the chat
application's Home page (`frontend/src/pages/Home.jsx`). The page keeps:

- a transient, rendered list `messages` of `{type, content}` entries
  (`type` is `'user'` or `'ai'`);
- three store fields it reads and writes: `input`, `isSending` and
  `activeChatId`, plus the store's chat list `chats`;
- a socket on which it emits `ai-message` events `{chat, content}` and
  receives `ai-response` events.

Four events drive it: loading a chat's history (a wholesale overwrite of
`messages` with the fetched `{role, content}` records mapped to
`{type, content}`), sending (guarded by a non-blank trimmed input, a selected
chat and no send in flight), receiving a reply (append an `ai` message, clear
`isSending`), and creating a chat (the prompted title is trimmed and a
missing or blank title stops the action).

Files:

- `js_string.dfy` (module `JsString`): JavaScript's `String.prototype.trim`,
  with the ECMAScript set of white-space and line-terminator characters.
- `conversation.dfy` (module `Conversation`): the values the page handles and
  its expression-only transformations: the history mapping, the reversal of
  the chat list, and the new-chat title guard.
- `home.dfy` (module `HomePage`): class `Home`, whose fields are the page's
  state and whose methods are its event handlers. Outbound traffic is kept as
  three logs: socket emits, store dispatches and HTTP requests. HTTP
  responses are parameters, and `None` stands for a failed request. `Valid()`
  is the invariant every handler preserves:
  - every emit carries a set chat id and a non-empty, already-trimmed text;
  - there are exactly as many emits as `sendingStarted` dispatches
    (`StartsCount`);
  - no `sendingStarted` is dispatched while an earlier one has not been
    followed by a `sendingFinished`, so between any two emits the page
    received a reply (`StartsSeparatedByFinish`);
  - while the dispatch log shows a send outstanding, `isSending` is true.

The store's reducers are not part of this model. The actions `setInput`,
`selectChat`, `sendingStarted`, `sendingFinished` and `setChats` are modelled
as the plain field setters their names describe. `addUserMessage` and
`addAIMessage` are only recorded in the dispatch log; `startNewChat` is
recorded, and its effect on the store is given by parameters.

Behaviour of the code that the model keeps as it is:

- The reply handler never reads the payload's chat id. It appends to
  whatever list is showing. It records the reply in the store under the chat
  id its listener captured when the subscribing effect last ran, which can be
  stale (`listenerChatId`).
- Every reply clears the single global `isSending`, whichever chat it
  answers.
- The chat list is stored as the reverse of the server's list.
- Creating a chat does not dispatch `selectChat`; whatever `startNewChat`
  does to the store is a parameter of `HandleNewChat`.
- Failed requests are not handled. A failed history fetch after selecting a
  chat leaves the new chat active while the previous chat's messages stay on
  screen, and the next send is appended to them but emitted to the new chat
  (`FailedLoadThenSend`). A failed creation stops after its request. A failed
  chat-list fetch never stores a list.

## Model

| member | source | states |
|---|---|---|
| `JsString.TrimStartShape` | frontend/src/pages/Home.jsx:68 | the leading cut of `trim` removes a prefix made only of white space and stops at a non-space character |
| `JsString.TrimEndShape` | frontend/src/pages/Home.jsx:68 | the trailing cut of `trim` removes a suffix made only of white space and stops at a non-space character |
| `JsString.TrimSpec` | frontend/src/pages/Home.jsx:68 | `s.trim()` is the contiguous piece of `s` between a leading and a trailing white-space run; it has no white space at either end, and it is empty (falsy) exactly when `s` is all white space |
| `JsString.TrimSlice` | frontend/src/pages/Home.jsx:68 | `s.trim()` is a contiguous slice of `s` with only white space before and after it |
| `JsString.TrimTight` | frontend/src/pages/Home.jsx:68 | `s.trim()` has no white space at either end |
| `JsString.TrimEmpty` | frontend/src/pages/Home.jsx:69 | `s.trim()` is empty, so falsy, exactly when `s` is all white space |
| `JsString.TrimIdempotent` | frontend/src/pages/Home.jsx:68 | trimming an already-trimmed string changes nothing, so the text that is appended and emitted is its own trim |
| `Conversation.MapHistory` | frontend/src/pages/Home.jsx:58-61 | the rendered history has the fetched list's length and order, keeps each content, and an entry has type `user` exactly when its role is `"user"` (`ai` otherwise) |
| `Conversation.MapHistoryAppend` | frontend/src/pages/Home.jsx:58-61 | mapping a longer history gives the mapping of the shorter one followed by the mapping of the added records |
| `Conversation.ReloadMatchesOptimisticView` | frontend/src/pages/Home.jsx:58-63 | after the server stores `{user, sent}` and `{assistant, reply}`, a re-fetch renders the old view plus exactly the user message and the AI message the page appended by hand |
| `Conversation.Reverse` | frontend/src/pages/Home.jsx:97 | the stored chat list has the server list's length and holds the server's last chat first, its second-to-last second, and so on |
| `Conversation.ReversePermutes` | frontend/src/pages/Home.jsx:97 | the stored chat list holds exactly the server's chats, with the same multiplicities |
| `Conversation.NewChatTitle` | frontend/src/pages/Home.jsx:36-38 | a cancelled prompt or a blank title gives no title; any other title is given trimmed, non-empty and without white space at either end |
| `HomePage.Home.constructor` | frontend/src/pages/Home.jsx:21-105 | the first render (lines 21-32) has an empty message list and the store's fields; the mount effect (lines 91-105) subscribes a listener that captures the current chat id and sends only the chat-list request |
| `HomePage.Home.ChatsLoaded` | frontend/src/pages/Home.jsx:96-98 | the store's chat list becomes the reverse of the server's list via one `setChats` dispatch; nothing else changes |
| `HomePage.Home.Resubscribe` | frontend/src/pages/Home.jsx:91-128 | a re-run of the effect gives a listener that captures the current `activeChatId` and requests the chat list again; nothing else changes |
| `HomePage.Home.EditInput` | frontend/src/pages/Home.jsx:163 | typing sets `input` through one `setInput` dispatch; nothing else changes |
| `HomePage.Home.GetMessages` | frontend/src/pages/Home.jsx:52-64 | loading history issues one fetch request; a successful response replaces `messages` wholesale with the mapped history, a failed one leaves `messages` as it was; `isSending`, `input`, the chat id and the emits are untouched |
| `HomePage.Home.OnSelectChat` | frontend/src/pages/Home.jsx:139-143 | selecting a chat makes it active through one `selectChat` dispatch, then its mapped history replaces `messages`, or the old list stays when the fetch fails |
| `HomePage.Home.HandleNewChat` | frontend/src/pages/Home.jsx:35-49 | a cancelled or blank title returns with no request and no change of state; a failed creation adds only the request for the trimmed title; otherwise `startNewChat` is dispatched, the store fields take the values that reducer leaves, and the new chat's history is fetched and replaces `messages` when the fetch succeeds |
| `HomePage.Home.SendMessage` | frontend/src/pages/Home.jsx:67-88 | a blank trimmed input, no active chat or a send in flight changes nothing; otherwise exactly one `{user, trimmed}` message is appended with every earlier one kept, `input` becomes `""`, `isSending` becomes true, and exactly one emit `{activeChatId, trimmed}` is logged, whose content is non-empty and equals the appended message |
| `HomePage.Home.OnAiResponse` | frontend/src/pages/Home.jsx:105-121 | a reply appends exactly one `{ai, payload.content}` with the prefix kept, records it under the listener's captured chat id whatever the payload's chat id, and clears `isSending` |
| `HomePage.StartsCount` | frontend/src/pages/Home.jsx:71 | the number of started sends read off the dispatch log is the number of `sendingStarted` actions in it |
| `HomePage.SendDispatches` | frontend/src/pages/Home.jsx:71-81 | the three dispatches of an accepted send start exactly one send and leave it outstanding; they overlap an earlier send exactly when one was outstanding |
| `HomePage.ReplyDispatches` | frontend/src/pages/Home.jsx:115-120 | the two dispatches of a reply leave no send outstanding, start none, and keep the log free of overlapping sends if it was |
| `HomePage.OutstandingAfterStart` | frontend/src/pages/Home.jsx:71 | after a `sendingStarted` with no `sendingFinished` since, a send is outstanding |
| `HomePage.StartsSeparatedByFinish` | frontend/src/pages/Home.jsx:69-71 | in a log free of overlapping sends, any two `sendingStarted` dispatches have a `sendingFinished` between them: a second send happens only after a reply |
| `HomePage.SendTypeSend` | frontend/src/pages/Home.jsx:67-81 | two sends with only typing in between emit at most one message; after an accepted first send the second changes nothing, whatever was typed |
| `HomePage.SendReplySend` | frontend/src/pages/Home.jsx:67-121 | after an accepted send and a reply, a non-blank input is sent again to the same chat: a reply re-enables sending |
| `HomePage.LoadSendReply` | frontend/src/pages/Home.jsx:52-121 | select a chat, send, then receive the reply: the page shows exactly what a fresh fetch shows once the server has stored the user text and the answer |
| `HomePage.FailedLoadThenSend` | frontend/src/pages/Home.jsx:52-88 | when the history fetch for a newly selected chat fails, the next send is appended to the previous chat's list on screen and emitted to the newly selected chat |

## Left out

- HTTP calls, URLs and credentials: every response is a method parameter (`response`, `history`, `serverChats`, `created`), with `None` for a failed request. Each request is recorded in `requests`. A failed chat-list request is the case where `ChatsLoaded` is never called.
- HomePage.Home.HandleNewChat: assumes the `startNewChat` reducer leaves `isSending` unchanged. Its effect on `activeChatId`, `chats` and `input` is taken as parameters, because the reducer is not part of this model.
- Socket connection lifecycle (`io(...)`, `setSocket`, `disconnect` on effect cleanup): the socket is taken as connected. Before `setSocket` has run, the socket is null. A send in that window would throw at `socket.emit` after the local updates. That case is not modelled.
- Asynchronous ordering: each handler runs as one atomic step, and awaited responses arrive inside the handler that awaits them. `Resubscribe` is an event the environment may fire at any time. The timing React chooses for re-running the effect after `activeChatId` changes is not modelled, and neither is the interleaving of a fetch completion with socket events.
- The store's reducers (`chatSlice.js`): only the five setters are applied to fields. `addUserMessage` and `addAIMessage` are logged without semantics, and `startNewChat` is logged with its effect on the store given by parameters. The store's initial state is a constructor parameter.
- `activeChat` (the `chats.find` lookup) is computed but never read, so it is not modelled.
- Rendering: the JSX, sidebar toggling (`setSidebarOpen`), the welcome banner, `window.prompt` (its answer is the `prompted` parameter) and `console.log`.
- `frontend/src/components/chat/ChatMessages.jsx` (a UI component whose reply logic calls a module that is not part of this model) and `backend/src/models/chat.model.js` (a schema declaration with no behaviour).
- The server side: persisting messages, calling the AI responder, ownership checks. `ReloadMatchesOptimisticView` assumes that the server appended the user record and the assistant record.
- String encoding: JavaScript strings are UTF-16 code units, and this model uses Unicode scalar values. Every character `trim` removes lies in the Basic Multilingual Plane, so both give the same trim.
