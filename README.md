# Chat client conversation engine — a Dafny model

This project models the client-side conversation engine of a real-time chat application.
A signed-in user picks a conversation: the global feed, a room, a channel or a private thread with one peer.
The client then does five things:

- it loads that conversation's history over REST;
- it keeps a live buffer of messages pushed over a socket and filters them by the active conversation;
- it renders history and live messages in one list, stably sorted by creation time;
- it sends messages, with an optional file upload first;
- it resolves author ids to display names through a shared cache.

The model also covers the sidebar's room, channel and conversation lists with their name search, and the message list's "read" mark.

Modules:

- `Wrappers`: `Option`.
- `Subsequence`: the order-preserving subsequence relation used by the list filters.
- `JsText`: the JavaScript string operations used: `trim` over the ECMAScript whitespace set, ASCII `toLowerCase`/`toUpperCase`, and `includes`.
- `Responses`: the two JSON body shapes the REST endpoints return, and one `fetch` outcome.
- `ChatHistory`: the message record, the conversation context, and the history hook `useChatHistory`.
  - Its guard, URL selection, response normalisation and failure handling.
  - The class `Hook`.
- `UserNames`: the missing-author computation, the `User <id>` fallback, and the merge into the name cache.
- `ChatView`: the merged, stably sorted message list.
- `ChatPage`: relevance of pushed messages, de-duplication, join events, the send pipeline and the username effect.
  - The class `Page` holds the component's state: live buffer, emitted socket events, inputs, name cache.
- `MessageList`: the last own message and its read mark, and the list's own name cache (class `ListView`).
- `Sidebar`: list normalisation, conversation id and name fallback, the name filters, and the class `Panel`.

Socket emits are appended to an event log (`Page.emitted`).
Every network reply (history, upload, user lookup, sidebar lists) is a parameter of the method that consumes it.
Each request made is recorded in a log: REST fetches in `requests`, user lookups in `lookups`, and file uploads in `Page.uploads`.

Behaviours of the code that the model keeps as they are:

- De-duplication of pushed messages consults only the live buffer, not the loaded history.
  `ChatPage.HistoryOverlapShowsTwice` shows that a message present in both appears twice in the view.
- The history loader has no guard against a reply that arrives after the context changed.
  `Hook.LoadMessages` takes the context the request was issued for.
- The sidebar's list fetches do not look at the HTTP status, unlike the history loader (`Sidebar.SidebarIgnoresStatus`).
- Relevance compares optional ids, so a room context with no id accepts every message without a room id (`ChatPage.RoomWithoutIdAcceptsRoomless`).

## Model

| member | source | states |
|---|---|---|
| JsText.Trim | src/pages/ChatPage.tsx:89 | `trim()` is empty exactly when every character is whitespace; a non-empty result neither starts nor ends with whitespace |
| JsText.TrimEnd | src/pages/ChatPage.tsx:89 | the trailing-whitespace strip is a prefix of the input, ends in a non-space and dropped only whitespace |
| JsText.IncludesIffOccurs | src/components/Sidebar.tsx:74-75 | the `includes` scan succeeds exactly when the query occurs at some position of the name |
| JsText.IncludesEmpty | src/components/Sidebar.tsx:74 | every string includes the empty query |
| JsText.LowerIdempotent | src/components/Sidebar.tsx:74-75 | lower-casing is idempotent, so lower-casing the query again changes nothing |
| Responses.Normalize | src/hooks/useChatHistory.ts:48 | a bare array is used as is; an object yields its list field, or `[]` when the field is missing |
| ChatHistory.SkipsLoad | src/hooks/useChatHistory.ts:23-26 | the loader's guard: no user id, or a non-global context with no truthy selected id |
| ChatHistory.HistoryUrl | src/hooks/useChatHistory.ts:28-37 | the URL starts with the room, channel or private-messages prefix for a context of that kind with a selected id, and is `/api/messages` otherwise |
| ChatHistory.HistoryUrlRoutes | src/hooks/useChatHistory.ts:28-37 | when the guard passes, the selected URL parses back to the intended endpoint; global has no parameters, room and channel are keyed by the selected id with the user id, private carries both user ids (ids containing `/` or `&` excluded) |
| ChatHistory.LoadedMessages | src/hooks/useChatHistory.ts:39-52 | a non-empty history comes only from a 2xx reply with a parsed body, and it is that body normalised |
| ChatHistory.FailuresLoadNothing | src/hooks/useChatHistory.ts:43-51 | a transport error, an error status or an unparsable body all leave an empty history |
| ChatHistory.BothShapesLoad | src/hooks/useChatHistory.ts:48 | a bare array and a `{messages}` object load the same messages; an object without the field loads none |
| ChatHistory.Hook.constructor | src/hooks/useChatHistory.ts:19 | the hook starts with no messages and no requests |
| ChatHistory.Hook.LoadMessages | src/hooks/useChatHistory.ts:21-53 | without a user id, or for a non-global context with no selection, it clears the messages and fetches nothing; otherwise it fetches the context's URL once and stores the reply's messages, or `[]` on any failure |
| UserNames.ResolvedName | src/pages/ChatPage.tsx:35-39 | a lookup yields the response's non-empty `username`, otherwise `User <id>`, and a failed lookup always yields `User <id>`; the name is never empty |
| UserNames.UniqueAuthors | src/pages/ChatPage.tsx:28 | the author ids of the messages, each exactly once |
| UserNames.Unknown | src/pages/ChatPage.tsx:29 | the ids not yet in the cache; no id repeats when none did in the input |
| UserNames.MissingIds | src/components/MessageList.tsx:29-30 | exactly the distinct authors of the messages that have no cached name, with no duplicates |
| UserNames.BuildNameMap | src/pages/ChatPage.tsx:41-44 | the collected map has exactly the looked-up ids as keys, each mapped to its resolved name |
| UserNames.MergeNames | src/pages/ChatPage.tsx:45 | the merged cache has the keys of both maps; new names win and all other earlier entries are kept |
| UserNames.ResolutionCoversAuthors | src/pages/ChatPage.tsx:26-47 | merging the names of exactly the missing ids gives every author a cached name and changes no earlier entry |
| UserNames.ShownName | src/pages/ChatPage.tsx:172 | the displayed author: the cached non-empty name, else the loading label |
| UserNames.Initial | src/pages/ChatPage.tsx:167 | the avatar letter: the upper-cased first letter of the cached name, else `?` |
| UserNames.CachedAuthorIsShown | src/pages/ChatPage.tsx:167-172 | a cached author is shown with the cached name and its upper-cased initial; an uncached one with the loading label and `?` |
| UserNames.MergeKeepsNamesNonEmpty | src/components/MessageList.tsx:38-46 | merging resolved names keeps every cached name non-empty |
| ChatView.Time | src/pages/ChatPage.tsx:143 | the sort key: the message's creation time, 0 when it has none |
| ChatView.Insert | src/pages/ChatPage.tsx:142-144 | one insertion step: the message goes before the first element that is not earlier |
| ChatView.SortByTime | src/pages/ChatPage.tsx:142-144 | the comparator sort, as an insertion sort from the back of the list; its properties are the lemmas below |
| ChatView.InsertPermutes | src/pages/ChatPage.tsx:142-144 | inserting a message adds exactly that message |
| ChatView.InsertAbove | src/pages/ChatPage.tsx:142-144 | insertion introduces no time below a bound that all inputs respect |
| ChatView.InsertAscending | src/pages/ChatPage.tsx:142-144 | inserting into an ascending list keeps it ascending |
| ChatView.SortPermutes | src/pages/ChatPage.tsx:142-144 | the sort is a permutation of its input |
| ChatView.SortAscending | src/pages/ChatPage.tsx:142-144 | the sort orders messages by `createdAt`, with a missing time counting as 0 |
| ChatView.WithTimeConcat | src/pages/ChatPage.tsx:142 | the messages with a given time in a concatenation are those of the first part, then those of the second |
| ChatView.WithTimeInsert | src/pages/ChatPage.tsx:142-144 | insertion puts a message ahead of every message with the same time already present |
| ChatView.SortIsStable | src/pages/ChatPage.tsx:142-144 | the sort is stable: for every time, messages keep their input order |
| ChatView.MergedView | src/pages/ChatPage.tsx:142-144 | the rendered list holds exactly the history and live messages, in ascending time order |
| ChatView.MergedViewStable | src/pages/ChatPage.tsx:142-144 | among equal times, history messages come before live ones, each in its own order |
| ChatView.WithTimeOfAscendingHead | src/pages/ChatPage.tsx:142-144 | in an ascending list the first message leads its time group and no earlier time occurs |
| ChatView.WithTimeBelowAll | src/pages/ChatPage.tsx:142-144 | a time below every message's time selects nothing |
| ChatView.WithTimeNonEmpty | src/pages/ChatPage.tsx:142-144 | every message's own time selects at least that message |
| ChatView.WithTimeTail | src/pages/ChatPage.tsx:142-144 | dropping the first message drops it from its own time group only |
| ChatView.StableSortUnique | src/pages/ChatPage.tsx:142-144 | two ascending lists with the same messages in the same order at every time are equal |
| ChatView.MergedViewCharacterised | src/pages/ChatPage.tsx:142-144 | the rendered list is the only ascending list that keeps history ahead of live within each time |
| ChatView.MergeExample | src/pages/ChatPage.tsx:142-144 | history at 10 and 20, then live at 20 and 5, render as 5, 10, history 20, live 20 |
| ChatPage.Relevant | src/pages/ChatPage.tsx:64-70 | the relevance test of a pushed message, comparing optional ids as `===` does |
| ChatPage.RelevanceByContext | src/pages/ChatPage.tsx:64-70 | global accepts exactly the global messages; room and channel accept exactly the messages stamped with the selected id; private accepts exactly the two directions of the thread |
| ChatPage.PrivateThreadSymmetric | src/pages/ChatPage.tsx:68-70 | both participants of a private thread accept the same messages |
| ChatPage.RoomWithoutIdAcceptsRoomless | src/pages/ChatPage.tsx:66 | a room context with no id accepts any message with no room id |
| ChatPage.Received | src/pages/ChatPage.tsx:72-77 | the buffer is unchanged or gains the message at its end; it grows exactly when the message is relevant and its id is not live; a relevant message is live afterwards; live ids stay distinct |
| ChatPage.ReceiveIdempotent | src/pages/ChatPage.tsx:73-76 | delivering the same message again changes nothing |
| ChatPage.ReceivedStaysRelevant | src/pages/ChatPage.tsx:72-77 | the live buffer only ever holds messages of the active context |
| ChatPage.HistoryOverlapShowsTwice | src/pages/ChatPage.tsx:74 | a relevant message already in the history and pushed again appears twice in the view |
| ChatPage.JoinEvents | src/pages/ChatPage.tsx:52-59 | at most one event; one exactly for a room or channel with a selected id, and it names that id and the user; none for global or private |
| ChatPage.IsBlank | src/pages/ChatPage.tsx:89 | `!text.trim()` holds exactly when every character of the text is whitespace |
| ChatPage.PassesValidation | src/pages/ChatPage.tsx:89-96 | the two checks before anything leaves the client: something to send, and a selected chat unless global |
| ChatPage.BuildPayload | src/pages/ChatPage.tsx:117-125 | each id field is set only for its own chat type and then holds the selected id; a non-global context with an id sets one |
| ChatPage.SendResult | src/pages/ChatPage.tsx:88-125 | a blank text without a file is ignored; a non-global context with no selection is refused; a failed upload aborts; otherwise a payload with the user, the text, the chat type and the uploaded URL (or `''`) is sent |
| ChatPage.WhitespaceOnlyIsIgnored | src/pages/ChatPage.tsx:89 | text made only of whitespace, without a file, is never sent |
| ChatPage.SentPayloadStampsOneId | src/pages/ChatPage.tsx:117-125 | a sent payload carries the selected id in exactly the field of its chat type, and none for global |
| ChatPage.SentMessageReturnsToSender | src/pages/ChatPage.tsx:117-125 | the server's echo of a sent payload is relevant to the sender's own context |
| ChatPage.Page.constructor | src/pages/ChatPage.tsx:17-23 | the page starts with an empty live buffer, empty inputs and cache, and the join of its first context |
| ChatPage.Page.SwitchContext | src/pages/ChatPage.tsx:49-59 | a change of chat type, selected id or user empties the live buffer and emits exactly the new context's join events; re-selecting the active context changes nothing |
| ChatPage.Page.Receive | src/pages/ChatPage.tsx:61-78 | the buffer becomes `Received` of the old one, keeping it relevant and duplicate-free |
| ChatPage.Page.LoadHistory | src/pages/ChatPage.tsx:22 | the history hook loads for the page's active context |
| ChatPage.Page.EditText | src/pages/ChatPage.tsx:199 | typing sets the text input |
| ChatPage.Page.ChooseFile | src/pages/ChatPage.tsx:207 | picking a file sets the file input |
| ChatPage.Page.Send | src/pages/ChatPage.tsx:88-134 | the outcome is `SendResult`; one `sendMessage` is emitted exactly when sent; a file is uploaded exactly when validation passed; inputs are cleared only after a send |
| ChatPage.Page.AllMessages | src/pages/ChatPage.tsx:142-144 | the rendered list is an ascending permutation of history and live |
| ChatPage.Page.ResolveUsernames | src/pages/ChatPage.tsx:26-47 | lookups are issued for exactly the missing authors of history and live; the cache gains exactly those ids; afterwards every author has a cached name that is shown; earlier names are kept and new ones are resolved names |
| MessageList.OwnMessages | src/components/MessageList.tsx:57 | the kept messages are an order-preserving subsequence holding exactly the messages written by the current user |
| MessageList.OwnMessagesCounts | src/components/MessageList.tsx:57 | every own message is kept as many times as it is listed, and no other message is kept |
| MessageList.OwnMessagesConcat | src/components/MessageList.tsx:57 | filtering a concatenation concatenates the filtered parts |
| MessageList.LastOwnMessageId | src/components/MessageList.tsx:56-58 | the id of the last element of the own-message filter, absent when it is empty |
| MessageList.LastOwnMessageIdSnoc | src/components/MessageList.tsx:56-58 | appending a message makes it the last own one when the user wrote it, else changes nothing |
| MessageList.LastOwnMessageIdNone | src/components/MessageList.tsx:56-58 | there is no last own id exactly when the user wrote none of the messages |
| MessageList.LastOwnMessageIdSome | src/components/MessageList.tsx:56-58 | a last own id is the id at the last position holding the user's message |
| MessageList.ShowsReadMark | src/components/MessageList.tsx:83 | the read mark shows when the read status is on and the message's id is the last own id |
| MessageList.ReadMarkOnLatestOwnOnly | src/components/MessageList.tsx:83 | with distinct ids and the read status on, a message shows the mark exactly when it is the user's latest |
| MessageList.ListView.constructor | src/components/MessageList.tsx:26 | the list starts with an empty name cache |
| MessageList.ListView.ResolveUsernames | src/components/MessageList.tsx:28-48 | lookups are issued for exactly the missing authors; the cache gains exactly those ids, each with its resolved name; afterwards every author has a shown cached name; earlier names are kept |
| Sidebar.ListOrEmpty | src/components/Sidebar.tsx:37-45 | a parsed reply is normalised whatever its status; a transport or parse failure gives `[]` |
| Sidebar.SidebarIgnoresStatus | src/components/Sidebar.tsx:39 | an error reply lists the same items as a success, where the history loader would load nothing |
| Sidebar.ConversationId | src/components/Sidebar.tsx:52 | a conversation's key: the peer's user id when truthy, else the conversation's own id |
| Sidebar.NeedsLookup | src/components/Sidebar.tsx:53-54 | a conversation needs a user lookup exactly when it carries no truthy username |
| Sidebar.ConversationItem | src/components/Sidebar.tsx:52-63 | the entry is keyed by the peer id (else the conversation id) and named by the listed username, else the looked-up name, else `User <id>`; the name is never empty |
| Sidebar.EnrichConversations | src/components/Sidebar.tsx:49-65 | one entry per listed conversation, in order |
| Sidebar.LookupUrls | src/components/Sidebar.tsx:53-56 | every conversation without a name triggers a lookup of its id, every lookup is for such a conversation, and there are no more lookups than conversations |
| Sidebar.FilterByName | src/components/Sidebar.tsx:74-75 | the filter keeps an order-preserving subsequence holding exactly the entries whose lower-cased name contains the lower-cased query |
| Sidebar.FilterByNameCounts | src/components/Sidebar.tsx:74-75 | every matching entry is kept as many times as it is listed, and no other entry is kept |
| Sidebar.FilterConcat | src/components/Sidebar.tsx:74 | filtering a concatenation concatenates the filtered parts |
| Sidebar.EmptyQueryKeepsAll | src/components/Sidebar.tsx:74 | an empty search keeps every entry |
| Sidebar.QueryCaseIgnored | src/components/Sidebar.tsx:74 | two queries equal up to ASCII case filter alike; in particular a lower-cased query filters like the original |
| Sidebar.Panel.constructor | src/components/Sidebar.tsx:24-34 | the panel starts with empty lists and empty searches |
| Sidebar.Panel.RefreshData | src/components/Sidebar.tsx:36-68 | each list becomes its reply's items, or `[]` on failure; conversations are enriched in order; the three list requests and the user lookups are recorded |
| Sidebar.Panel.SetSearchRoom | src/components/Sidebar.tsx:91 | typing sets the room search |
| Sidebar.Panel.SetSearchChannel | src/components/Sidebar.tsx:114 | typing sets the channel search |
| Sidebar.Panel.FilteredRooms | src/components/Sidebar.tsx:74 | the shown rooms are an order-preserving subsequence holding each matching room as often as it is listed and no other, and all rooms when the search is empty |
| Sidebar.Panel.FilteredChannels | src/components/Sidebar.tsx:75 | the shown channels are an order-preserving subsequence holding each matching channel as often as it is listed and no other, and all channels when the search is empty |

## Left out

- JSX rendering, CSS classes, the chat-type header, and `formatDate`, which depends on `Date` and locale formatting.
- The socket connection itself: emits are appended to `Page.emitted`, and listener registration and removal are not modelled.
  Pushed messages are delivered by calling `Page.Receive`.
- `fetch`: every reply is a parameter, and every request is appended to a log.
  Promise completion order and React's re-render scheduling are not modelled: a load, a lookup round or a refresh runs atomically with the replies it is given.
- The username effect re-running while an earlier lookup round is in flight: two overlapping rounds could look up the same id twice; each `ResolveUsernames` call is one completed round.
- `console.log`, `console.error` and `alert` calls have no modelled effect.
- The file input's DOM reset after a send; the `file` field is cleared.
- `createdAt` is an ISO string in the source. The model uses its millisecond value directly; an unparsable date (`NaN` in the comparator) is not modelled.
- Unicode case mapping: `toLowerCase`/`toUpperCase` are modelled on ASCII letters only.
- URL encoding: ids are interpolated as is, so `HistoryUrlRoutes` requires ids free of `/` and `&`.
- ChatPage.Page.Send: a 2xx upload reply without a `url` field (which would send `fileUrl: undefined`) is not modelled; an upload is either a URL or a failure.
- The `in` operator also finds inherited object keys such as `constructor`; the model's cache is a plain map.
- A `messages`, `rooms`, `channels` or `conversations` field that is present but not an array is not modelled.
- ChatPage.Page.SwitchContext: the effect also re-runs when the socket object changes; the model has a single socket, so only the chat type, selected id and user trigger it.
- Sidebar.LookupUrls: its contract states which conversations are looked up, not the order of the lookups, which run concurrently.
- Login, App routing, the create-room and create-channel modals, the search-and-join and start-private-chat dialogs, and the standalone message input component are outside this model.
