# WhatsApp gateway client and backend stores, modelled in Dafny

This project models the core of a small WhatsApp web client and its backend.

- **Browser client.** The request layer (`api.js`) turns each HTTP exchange into a value or a typed error. The session protocol (`session.js`) creates, starts and configures the gateway session and runs the status-driven QR flow. The real-time event channel (`websocket.js`) keeps one module-level socket handle, reconnects after every close and routes frames to the page's callbacks. The chat module (`chat.js`) decides how chat-list entries and message bubbles are keyed, named, counted, classed and ordered. The page controller (`app.js`) routes channel callbacks, appends pushed messages, checks the status and guards sending.
- **Backend.** The per-session favourites store (`favorites.py`) keeps an ordered, duplicate-free JSON list per session. The connection registry (`websocket_manager.py`) keeps the open event-channel connections per phone and broadcasts gateway events to them.

Modules and files:

| file | module | models |
|---|---|---|
| `wrappers.dfy` | `Wrappers` | `Option`, `Result` and the `??` chain |
| `text.dfy` | `Text` | string helpers: `split('@')[0]`, `includes`, `trim`, decimal rendering |
| `json.dfy` | `Json` | JSON values, property access that may throw, JavaScript truthiness |
| `api.dfy` | `Api` | `api.js` |
| `session.dfy` | `Session` | `session.js` |
| `channel.dfy` | `Channel` | `websocket.js`, as a class over the module state |
| `chat.dfy` | `Chat` | the pure decisions of `chat.js` |
| `timeline.dfy` | `Timeline` | the in-place stable sort of a fetched history |
| `conversation.dfy` | `Conversation` | the selection state of `chat.js` and the message pane, as a class |
| `app.dfy` | `App` | `app.js` |
| `favorites.dfy` | `Favorites` | `favorites.py`, as a class over the files of the data directory |
| `registry.dfy` | `Registry` | `websocket_manager.py`, as a class over the connection map |

How the model is built:

- **Network.** Every request is described by its answer. `Fetched` is a response or a rejection. `Gateway` holds the answer to each kind of request, so a protocol run is a function of the gateway's answers. Each run returns its result together with the ordered trace of requests it sent.
- **Suspension points.** The browser code awaits between steps. Those steps become separate event methods on the state classes: a selection begins, its chat-list lookup arrives, its history arrives. Because of this, interleavings such as a stale selection can be exhibited.
- **Backend I/O.** The favourites file system is a map from path to file content, and whether a write succeeds is a parameter. Connections are opaque identities, and which sends raise is a parameter of the broadcast.

## Model

| member | source | states |
|---|---|---|
| Api.ReadBody | application/static/api.js:26-41 | A body declared `application/json` is parsed, and failing to parse it is an error "Invalid JSON response: <status>" with no status. Any other body is read as text. |
| Api.HttpError | application/static/api.js:43-51 | A non-ok response's error carries the status and the data. Null data makes reading `data.message` throw a TypeError instead. |
| Api.Rewrap | application/static/api.js:58-69 | A TypeError mentioning `fetch` becomes the connection error with status 0. Every other error passes unchanged. |
| Api.ApiRequest | application/static/api.js:16-71 | A request succeeds exactly when the response is ok and its body is readable, and then yields that body. |
| Api.HttpErrorMessage | application/static/api.js:43-46 | The message of a non-ok response is `data.message` when truthy, else `data.error` when truthy, else `HTTP <status>`. |
| Api.ErrorStatusOrigin | application/static/api.js:43-68 | Only two kinds of error carry a status: a non-ok response's error carries that response's status, and a network failure carries 0. |
| Api.InvalidJsonHasNoStatus | application/static/api.js:29-37 | An unparsable JSON body fails without a status, whether or not the response was ok. |
| Api.GetSessionStatus | application/static/api.js:121-130 | A readable 404 becomes `{status: 'STOPPED'}`, so the status query never fails with 404. Successes pass through, and every other failure is rethrown unchanged. |
| Api.GetQRCode | application/static/api.js:163-169 | The QR fetch yields the image exactly for an ok response. Its errors never carry a status. |
| Api.CreateSessionBody | application/static/api.js:80-102 | The creation body names the default session and starts it. It tags the session with the phone, or `web` when the phone is empty. It subscribes the webhook to message and session-status events. |
| Session.CreateSession | application/static/session.js:29-41 | Creation is tried first. A 422 instead updates the default session's webhooks. Any other error propagates. |
| Session.ConfigureWebhooks | application/static/session.js:64-75 | The flow sends one configuration update and always completes, whatever the update's outcome. |
| Session.StartSession | application/static/session.js:117-120 | Webhooks are configured first, then the start request is sent. Only the start request's error propagates. |
| Session.CheckSessionStatus | application/static/session.js:47-59 | The result is the first listed session. An empty list gives a STOPPED record. A failed listing, or a null one, gives an ERROR record. |
| Session.StartAndWait | application/static/session.js:103-107 | A stopped session is started, then 2000 ms pass. A start failure ends the flow before the pause. |
| Session.Prepare | application/static/session.js:98-107 | A failed or absent status creates the session. A stopped one is started. Otherwise nothing is sent. No status or QR request is sent at this step. |
| Session.QrFlow | application/static/session.js:80-112 | The status query comes first, and a failed query ends the flow with its error. A QR image is returned only from a successful QR fetch, which is then the last request. The result is null exactly for a linked session. A status record whose status cannot be read ends the flow with that error after the query alone. A failed creation or start ends the flow with its error, and no QR is fetched. |
| Session.GenerateQRCode | application/static/session.js:80-112 | The step-by-step flow equals `QrFlow`: the status query, then no request for a linked session, creation or start as `Prepare` says, then one QR fetch. |
| Session.LinkedSessionNeedsNoQr | application/static/session.js:93-96 | A WORKING or AUTHENTICATED session gets only the status query and no QR. |
| Session.FailedOrMissingIsCreated | application/static/session.js:98-101 | A FAILED or missing status leads to a creation request right after the status query. The session is never started. |
| Session.StoppedIsStartedThenWaited | application/static/session.js:103-111 | A STOPPED session runs exactly: status query, start, 2000 ms pause, QR fetch. |
| Session.QrFetchedOnceAtTheEnd | application/static/session.js:109-111 | When the QR is requested, the request is sent once and last, and the flow's result is that fetch's outcome. |
| Session.DirectFetch | application/static/session.js:93-111 | A status that is not linked and calls for neither creation nor start (SCAN_QR_CODE, STARTING) goes straight from the status query to the QR fetch. |
| Session.NonLinkedEndsInQrFetch | application/static/session.js:93-111 | Every session that is not linked and whose preparation succeeds ends in exactly one QR fetch, sent last, whose outcome is the flow's result. |
| Session.MissingSessionIsStarted | application/static/session.js:80-107 | A session unknown to the gateway (404) is started, never created. |
| Channel.Dispatch | application/static/websocket.js:97-123 | A callback runs exactly when the event name is known and the caller supplied that callback. It gets `qr` or `payload` as its argument. |
| Channel.MessageAliases | application/static/websocket.js:110-113 | `message` and `message.any` reach the same callback with the same payload. |
| Channel.OnFrame | application/static/websocket.js:46-53 | A frame that fails to parse, or parses to null, runs no callback. Any other frame is dispatched. |
| Channel.Client.constructor | application/static/websocket.js:24-25 | The channel starts with no handle and an empty phone. |
| Channel.Client.Connect | application/static/websocket.js:35-39 | Connecting with a handle present does nothing. Otherwise it records the phone and opens one socket at `base/phone`. |
| Channel.Client.Disconnect | application/static/websocket.js:72-77 | Disconnecting starts closing the current socket and clears the handle. |
| Channel.Client.IsConnected | application/static/websocket.js:82-84 | Connected means the handle is set and its socket is open. |
| Channel.Client.SocketOpened | application/static/websocket.js:41-44 | The socket becomes open, and `onOpen` runs if it was supplied. |
| Channel.Client.SocketClosed | application/static/websocket.js:55-61 | A close clears the handle, whichever socket it names. `onClose` runs, and exactly one 5000 ms reconnect is scheduled. |
| Channel.Client.SocketErrored | application/static/websocket.js:63-66 | An error runs only `onError` and changes no state. |
| Channel.Client.FrameReceived | application/static/websocket.js:46-53 | A frame runs the callback `OnFrame` picks, using that socket's handlers. |
| Channel.Client.FireTimer | application/static/websocket.js:60 | A reconnect uses the phone stored when it fires and the handlers it captured. |
| Channel.LocalDisconnectReconnects | application/static/websocket.js:55-77 | After a local disconnect, the close event still reconnects to the same phone. |
| Channel.LiveCount | application/static/websocket.js:35-77 | The count is the number of sockets still connecting or open. |
| Channel.StaleCloseForgetsNewerSocket | application/static/websocket.js:55-84 | A late close from the old socket clears the newer socket's handle. The page then reports "not connected" and ends up with two live sockets. |
| Chat.FirstFilled | application/static/chat.js:281-287 | The `\|\|` chain picks the first truthy probe, and yields nothing when no probe is truthy. |
| Chat.UnreadCount | application/static/chat.js:363-367 | The first present count wins: `unreadCount`, `unread`, `_chat.unreadCount`, `_chat.unread`, else 0. |
| Chat.ExplicitZeroWins | application/static/chat.js:363 | An explicit `unreadCount` of 0 wins over every later field. |
| Chat.GroupFlag | application/static/chat.js:388 | `_chat.isGroup` wins when present, else `isGroup`, else false. |
| Chat.KeyOf | application/static/chat.js:353 | A chat without an id throws. A string id is its own key. An object id is keyed by `_serialized` when that is truthy, else by the object itself. |
| Chat.DisplayName | application/static/chat.js:356 | The name wins when it is truthy. Otherwise the id's part before '@' is used, else "Desconhecido". An object key without a name throws. |
| Chat.ClassFor | application/static/chat.js:396-439 | Each status class holds exactly in its own case, and the active entry has none. |
| Chat.AckIconFor | application/static/chat.js:201-207 | Only own messages show a tick tier: 1 sent, 2 delivered, 3 read. |
| Chat.RenderChat | application/static/chat.js:351-463 | One chat's entry throws exactly when the chat has no id, or an object id without `_serialized` and no name. It is skipped exactly when its key is the empty string. Otherwise it carries the chat's key, display name, unread count, group flag, status class, tick tier and the last message's body as preview (empty when that is falsy). It is active exactly when its key is the current chat. |
| Chat.RenderChats | application/static/chat.js:349-465 | The rendered list has at most one entry per chat. |
| Chat.Present | application/static/chat.js:351-463 | The rendered entries in order, skipping the empty ones, are never more than the entries. |
| Chat.PresentHoldsRendered | application/static/chat.js:351-463 | An item is present exactly when some entry rendered it. |
| Chat.JoinIsPresent | application/static/chat.js:351-463 | A successful join is exactly the rendered entries, in order. |
| Chat.RenderedInChatOrder | application/static/chat.js:349-465 | A successful render lists the chats' entries in chat order, skipping exactly those with an empty key. |
| Chat.EveryKeyedChatIsListed | application/static/chat.js:349-465 | In a successful render every chat with a non-empty key has its entry listed. |
| Chat.JoinFailsIffEntryThrows | application/static/chat.js:351-463 | Joining the mapped entries fails exactly when one of them threw. |
| Chat.JoinedItemsAreEntries | application/static/chat.js:351-463 | Every item of a successful join is one of the mapped entries. Empty entries add nothing. |
| Chat.RenderFailsIffChatThrows | application/static/chat.js:349-465 | The chat list render fails exactly when some chat's entry throws. |
| Chat.EntriesComeFromChats | application/static/chat.js:349-465 | Every entry of a successful render is the entry of one of the chats. Chats with a falsy key are skipped. |
| Chat.ActiveEntryIsCurrent | application/static/chat.js:397-442 | An active entry is keyed by the current chat and has no status class. |
| Chat.LoadChats | application/static/chat.js:33-44 | A failed request becomes an empty list. Every other reply is passed on. |
| Chat.FindChat | application/static/chat.js:67-70 | The lookup returns the first chat whose `id._serialized \|\| id` equals the id, and nothing when none does. |
| Chat.FallbackLabel | application/static/chat.js:289-307 | A nameless sender is shown by the phone-like local part of its id, else "Membro do grupo", else "Desconhecido" when there is no id. |
| Chat.SenderLabel | application/static/chat.js:275-307 | A label is shown exactly for messages not sent by the user in a group. It is the first name found, else the fallback. |
| Chat.NoInfoNoLabel | application/static/chat.js:260 | Without chat info the chat is not a group, so no label is shown. |
| Chat.ContactPushNameFirst | application/static/chat.js:281-287 | The contact's push name beats every other name source. |
| Chat.PhoneIdIsShown | application/static/chat.js:291-297 | A nameless sender whose id's part before '@' is a phone number is labelled with that number, whatever the domain. |
| Chat.InternalIdIsHidden | application/static/chat.js:298-301 | An id whose part before '@' is longer than any phone number is hidden behind "Membro do grupo". |
| Chat.NameProbes | application/static/chat.js:281-287 | The sender name is looked for in six fields. |
| Chat.IsPhoneNumber | application/static/chat.js:294 | A phone number has 10 to 15 characters, does not start with 0 and contains no '@'. |
| Chat.LeadingZeroIsNotPhone | application/static/chat.js:294 | A digit string starting with 0 is not a phone number. |
| Chat.BubbleOf | application/static/chat.js:226-344 | A bubble shows body, else text. Media shows only when there is a URL. The placeholder appears exactly when there is neither text nor media. The direction is `fromMe`. |
| Timeline.SortByTime | application/static/chat.js:122-127 | The sorted history has as many messages as the fetched one. |
| Timeline.SortByTimeSorted | application/static/chat.js:122-127 | The sorted history is in ascending timestamp order, with a missing timestamp counted as 0. |
| Timeline.SortByTimePermutes | application/static/chat.js:123-127 | Sorting neither loses nor invents messages. |
| Timeline.SortByTimeStable | application/static/chat.js:123-127 | Messages with equal timestamps keep their fetched order. |
| Timeline.InsertLast | application/static/chat.js:123-127 | One insertion pass leaves the prefix as `InsertBack` of the old prefix and does not touch the rest. |
| Timeline.SortByTimestamp | application/static/chat.js:122-127 | The in-place sort leaves the array equal to `SortByTime` of its old contents. |
| Timeline.SortExample | application/static/chat.js:124-126 | Timestamps 50, missing, 30 come back as missing, 30, 50. |
| Conversation.RenderMessages | application/static/app.js:598-646 | A missing or empty history shows the no-messages notice. Otherwise there is one bubble per message, in order. |
| Conversation.RenderedHistoryAscending | application/static/chat.js:122-130 | A rendered history shows its bubbles in ascending time order. |
| Conversation.View.constructor | application/static/chat.js:23-24 | No chat is selected and no chat record is held. |
| Conversation.View.SetCurrentChat | application/static/chat.js:168-172 | Selecting a chat forgets the previous chat's record. |
| Conversation.View.BeginSelect | application/static/app.js:514-530 | A click records the selection before any request is sent. |
| Conversation.View.ChatInfoArrived | application/static/chat.js:56-99 | The stored record is the first matching chat of an array reply, else none. It is stored whatever chat is selected by then. |
| Conversation.View.HistoryArrived | application/static/chat.js:102-138 | An array is sorted in place and rendered. Null shows the notice. A failure or a non-array leaves the pane as it was. |
| Conversation.View.RequestChatList | application/static/app.js:367 | A chat-list reload is started. |
| Conversation.View.ChatListArrived | application/static/app.js:480-497 | A failed request clears the list. An array is rendered. A throwing render, or a non-array reply, leaves the list as it was. |
| Conversation.StaleSelectionIsShown | application/static/chat.js:49-139 | After two quick clicks, chat B is selected while A's history is shown, labelled with A's record. |
| App.Route | application/static/app.js:53-96 | `onReady` shows the chat and reloads it. A chat update reloads. A message goes to `handleNewMessage`. An auth failure goes back to login. A QR refresh is shown. Every other callback only logs. |
| App.Stripped | application/static/app.js:719-725 | A pushed message keeps only body, direction, timestamp and media. |
| App.HandleNewMessage | application/static/app.js:713-740 | A message for the open chat is appended. Every message with a payload reloads the chat list. A missing payload does nothing. |
| App.PushedGroupMessageHasUnknownSender | application/static/app.js:719-731 | A pushed group message from someone else is labelled "Desconhecido". |
| App.OnCall | application/static/app.js:53-96 | The chat list is reloaded exactly on ready, on chat update, and on a message with a payload. Only messages touch the pane. |
| App.CheckStatus | application/static/app.js:213-249 | The status query comes first. A QR fetch follows exactly while the status is SCAN_QR_CODE. A failed QR fetch is ignored. A failed query, or a null answer whose status cannot be read, shows the error text. |
| App.MissingSessionShownStopped | application/static/app.js:216-230 | A session unknown to the gateway is shown as STOPPED, with no QR fetch. |
| App.GenerateQR | application/static/app.js:137-164 | Without a phone nothing is sent. A QR is shown exactly when the flow yields one. A failed flow shows its error message. A linked session has its status queried again: that second answer is shown, or its error message when it fails. |
| App.RecheckOnlyWhenLinked | application/static/app.js:145-156 | The status is queried a second time only for a linked session, right after the flow's own status query. |
| App.SendMessage | application/static/app.js:651-660 | A message is sent exactly when a chat is selected and the input is not blank. The text sent is trimmed, and the input is cleared. |
| Favorites.Sanitize | backend/favorites.py:29 | Each '/' and '\\' of the session name becomes '_', and every other character is kept in place. |
| Favorites.FilePath | backend/favorites.py:18-30 | The path is `data/users/`, then the sanitised session, then `_favorites.json`. |
| Favorites.FileName | backend/favorites.py:29-30 | The file name is the sanitised session followed by `_favorites.json`, and contains no separator. |
| Favorites.FileStaysInDirectory | backend/favorites.py:28-30 | Every session's file lies directly inside `data/users`. |
| Favorites.SeparatorsCollide | backend/favorites.py:29 | Sessions `a/b`, `a_b` and `a\b` share one file. |
| Favorites.Dedup | backend/favorites.py:78-79 | De-duplication leaves no duplicates and keeps exactly the same ids. |
| Favorites.DedupKeepsFirstOccurrenceOrder | backend/favorites.py:78-79 | De-duplicated ids appear in the order of their first occurrence. |
| Favorites.DedupOfDistinct | backend/favorites.py:79 | A list without duplicates is unchanged. |
| Favorites.RemoveFirstDropsFirst | backend/favorites.py:125 | `list.remove` drops exactly the first occurrence and keeps the rest in order. |
| Favorites.Store.constructor | backend/favorites.py:13-15 | The data directory is created if missing and keeps the files it already holds. |
| Favorites.Store.IsFavorite | backend/favorites.py:131-143 | An id is a favourite exactly when the session's file holds a list that contains it. |
| Favorites.Store.Favorites | backend/favorites.py:33-61 | A file holding a list is read as that list. A missing file, or one that is not a list or is unreadable, reads as empty. |
| Favorites.Store.SaveFavorites | backend/favorites.py:64-88 | A successful write stores the de-duplicated list and reports true. A failed write changes nothing and reports false. |
| Favorites.Store.AddFavorite | backend/favorites.py:91-108 | A present id writes nothing and succeeds. An absent id is appended and saved. A success means the id is a favourite. |
| Favorites.Store.RemoveFavorite | backend/favorites.py:111-128 | An absent id writes nothing and succeeds. A present id has its first occurrence removed and the list saved. |
| Favorites.AddAppends | backend/favorites.py:102-106 | Adding to a duplicate-free list appends at the end and keeps the others in order. |
| Favorites.RemoveDrops | backend/favorites.py:122-126 | Removing from a duplicate-free list drops exactly that id and keeps the others in order. |
| Favorites.RemoveKeepsDuplicatedId | backend/favorites.py:122-126 | In a list holding an id twice, removing it keeps the second copy. |
| Favorites.AddIsIdempotent | backend/favorites.py:102-108 | A second add of the same id succeeds and writes nothing. |
| Registry.Pairs | backend/websocket_manager.py:65 | The registered pairs are exactly the (connection, phone) memberships, so the total is zero exactly when there are none. |
| Registry.Without | backend/websocket_manager.py:46-49 | A disconnect removes exactly that pair and never leaves an empty entry. |
| Registry.RemovePairs | backend/websocket_manager.py:92-94 | Removing a set of pairs never leaves an empty entry. |
| Registry.RemovePairsPairs | backend/websocket_manager.py:78-94 | Removing a set of pairs removes exactly those pairs. |
| Registry.WithoutAfterRemove | backend/websocket_manager.py:93-94 | Disconnecting one more pair after a set of them is the same as removing both together. |
| Registry.Manager.constructor | backend/websocket_manager.py:18-20 | The registry starts empty. |
| Registry.Manager.Connect | backend/websocket_manager.py:22-36 | The connection joins its phone's set, which is created on first use. |
| Registry.Manager.Disconnect | backend/websocket_manager.py:38-51 | An unknown phone changes nothing. An emptied phone is dropped. No entry is ever left empty. |
| Registry.SendAll | backend/websocket_manager.py:78-90 | Every connection is tried once. `sent` counts the sends that did not raise. The collected list holds exactly the ones that raised. |
| Registry.Manager.DisconnectAll | backend/websocket_manager.py:92-94 | Disconnecting the collected list removes exactly its pairs. |
| Registry.Manager.Broadcast | backend/websocket_manager.py:53-99 | Nothing happens for empty data, no connections, or unserialisable data. Otherwise the working connections receive the message, and exactly the broken ones are removed. |
| Registry.Manager.KeepAlive | backend/websocket_manager.py:101-113 | A client disconnect unregisters the connection. Any other error propagates and leaves it registered. |
| Registry.ErroredConnectionLingers | backend/websocket_manager.py:101-113 | A connection whose receive loop failed otherwise stays registered until a later broadcast to it fails. |

### Behaviours of the code worth knowing

- **A chat without an id breaks the whole list.** Entries are keyed by `chat.id._serialized || chat.id` (`application/static/chat.js:353`). Reading `_serialized` of a missing id throws, so `renderChats` throws for the whole list (`Chat.KeyOf`, `Chat.RenderFailsIffChatThrows`) instead of skipping the entry. The page catches the error and keeps the old list (`Conversation.View.ChatListArrived`). An object id without `_serialized` throws only when the chat also has no name.
- **The page's 404 branches are never taken.** `getSessionStatus` already turns a 404 into `{status: 'STOPPED'}`, so the 404 branches at `application/static/session.js:85-88` and `application/static/app.js:219-221` never run. A session the gateway does not know is therefore started, not created (`Session.MissingSessionIsStarted`). Both branches are kept in the model, where they are unreachable.
- **The selection lookup checks for an array too late.** `chats.find` runs at `application/static/chat.js:58` before the array check at line 63. A reply that is not an array therefore throws, and the catch stores no record, which is what the array check would have done.
- **A history that is not an array shows nothing.** `messages?.map` at `application/static/chat.js:110` throws for a value that is neither an array nor null. So only a null reply reaches the no-messages notice.
- **Selections are not checked for staleness.** Neither the lookup nor the history checks that its chat is still selected (`Conversation.StaleSelectionIsShown`).
- **Pushed group messages have no sender.** The pushed message record drops all sender fields, so a pushed group message from someone else is labelled "Desconhecido" (`App.PushedGroupMessageHasUnknownSender`).
- **A local disconnect does not stop reconnection.** The close event of the disconnected socket still schedules a reconnect. A late close event clears the handle of a newer socket (`Channel.StaleCloseForgetsNewerSocket`).
- **Removing a duplicated favourite keeps it.** `remove_favorite` removes only the first occurrence before de-duplicating. A hand-edited file that lists an id twice keeps that id as a favourite (`Favorites.RemoveKeepsDuplicatedId`).
- **An errored connection lingers.** A connection whose receive loop ends with an error other than a client disconnect is not unregistered (`Registry.ErroredConnectionLingers`).

## Left out

- HTML generation, DOM lookups and CSS are left out. Only the decisions that feed them are modelled: entry key, name, classes, tick tier, sender label, text, media flag and placeholder.
- `formatMessageTime` and the time strings are left out: date formatting belongs to the browser's locale library.
- `renderMediaHtml` and its URL rewriting are left out. Only whether media is shown is modelled.
- The screens and notifications of `ui.js` are left out, and so are the notifications in `app.js`. Neither is part of the core.
- The mock mode (`mock.js` and the mock branches of `app.js`) is left out. It is a demo path outside the core.
- The probing for module presence (`getChatModule`, `apiModule && apiModule.getChats`, the 100 ms retries of `loadChats`) is left out. The model assumes every module is loaded.
- Real time is left out. The 5000 ms reconnect and the 2000 ms settle pause appear as a pending timer and a `Wait` request.
- `fetch`, `response.json()` and `URL.createObjectURL` are left out. A response is given as its status, content type, text and parse result, and a QR image is an opaque number.
- Decoding JSON into records is left out. Chats and messages arrive as records whose fields are all optional. Fields that are present with the wrong type are not modelled.
- Objects that carry a `length` but are not strings or arrays are left out: `Session.CheckSessionStatus` treats them as having no length.
- The app's `checkSessionStatus` wrapper (`application/static/app.js:125-134`) is left out. Its catch branch cannot run, because `Session.CheckSessionStatus` never throws.
- `deleteSession`, `stopSession`, `logout`, `listSessions` and the app's own `createSession`, `startSession` and `stopSession` wrappers are left out. Each is a single request with no logic.
- The URL encoding and limit in `getMessages` are left out. Requests are not modelled as URLs.
- The error notice of `renderMessages` is left out. With records as messages, rendering a bubble cannot throw.
- The rendering fallbacks for a missing chat module (`createSimpleMessageHtml` and the inline chat-list fallback) are left out. They are outside the core.
- The global registration at `application/static/websocket.js:88-92` is left out. It touches only browser globals.
- `originalError` on the connection error is left out, because nothing reads it.
- Floating-point timestamps and counts are left out. They are integers in the model.
- On the backend, `routes.py`, `main.py`, `config.py`, `api_proxy.py`, `setup.py`, `webhook_handler.py` and `test_webhook.py` are left out. They are HTTP plumbing around the two stores.
- The effects of `websocket.accept()` are left out, and so is a failure of it.
- Concurrent coroutines that change the registry while `broadcast` awaits a send are left out.
- Partially written favourites files are left out. A write either fully replaces the file or leaves it untouched.
- Registry.Manager.KeepAlive: the receive loop is reduced to the way it ends, because the received texts are discarded.
- Registry.Manager.Broadcast: assumes the registry has no empty entries, which the registry's own methods guarantee. The log-only `total_sent` messages are not modelled.
