# TelegramChatService: the chat cache and the main chat list

This project models the chat cache of `TelegramChatService`, a Spring service that wraps a
TDLib client. The service keeps three pieces of state:

- `chats`, a map from chat id to the chat record TDLib sent;
- `mainChatList`, a `TreeSet` of `OrderedChat` keys (chat id, order) for the chats' positions in
  the main chat list, ordered by higher order first and then by higher chat id;
- `haveFullMainChatList`, a flag set once TDLib has answered that the main list is exhausted.

Inbound updates (`handleUpdate`) keep the cache and the index current. `getChats` answers the
top `limit` chats of the index. When the index is too short and the list is not known to be
complete, it first asks TDLib to load the missing chats and runs again from the callback.
`getChatById` answers from the cache or asks TDLib for the chat once.

Modules, one per file:

- `Wrappers`: `Option` and `Result`.
- `TdApi`: the TDLib values the service reads (chat, position, chat type, message, the updates
  it handles and the responses to LoadChats and GetChat).
- `OrderedChats`: `OrderedChat.compareTo` and `equals`, and the `TreeSet` as a sequence kept
  strictly sorted by that order, with `add` and `remove`. A sorted set has one listing, so
  iterating the set is reading the sequence from the front.
- `ChatViews`: `getChatType`, `extractMessageText` and `convertToDto`.
- `ChatState`: the three fields as a value, and one function per thing the service does to them.
  These functions are the specification.
- `ChatInvariants`: what updates keep true. Every index key names a cached chat. When each new
  chat arrives once, each chat's keys are exactly the keys of its main-list positions.
  The module also holds the laws of the position merge of `UpdateChatPosition`.
- `ChatQueries`: properties of the two read paths and the worked pagination example.
- `ChatService`: the class `TelegramChatService`, whose fields change in place. Its loops are
  written out: the first-main-entry search and array copy of `UpdateChatPosition`, the two loops
  of `setChatPositions`, the answer loop of `getMainChatList`, and the retry chain of `getChats`.
  Each method is proved to leave the fields, and to return, exactly what the matching
  `ChatState` function gives.

TDLib is not called. Its answers are inputs. For `getChats`, each LoadChats request is answered
by the next element of a sequence of `Backfill(updates, response)`. The updates are the ones
TDLib delivers before the callback runs. When the sequence runs out, the call is still waiting.
For `getChatById`, the lookup and the GetChat callback are two steps.
The session's authorization is a boolean parameter.

Some behaviours of the code differ from what one would expect of such a cache. The model keeps
what the code does:

- `convertToDto` leaves `lastMessageText` null and `lastMessageDate` 0 when the chat has no last
  message, rather than an empty text. The model has `None` and 0.
- `setChatPositions` removes and inserts a key for every main-list entry, order 0 included,
  although TDLib uses order 0 to mean "not in this list". `UpdateChatPosition` with order 0 still
  takes the chat out of the index, because its merge drops the old entry and adds none
  (`ChatInvariants.ZeroOrderRemovesFromIndex`). A new chat or a last-message update carrying a
  main entry of order 0 does get an order-0 key (`ChatInvariants.NewChatIndexesZeroOrder`).
- `UpdateNewChat` replaces the cached record and clears only the new record's positions before
  `setChatPositions`. The keys of an earlier record for the same id stay in the index. The
  invariant "each chat's keys are exactly those of its main-list entries" therefore holds only
  when each new-chat update names a chat not yet cached (`ChatInvariants.HandleUpdatesConsistent`).
  A lemma about a concrete sequence of two new-chat updates for one chat proves that it fails
  otherwise (`ChatInvariants.RepeatedNewChatKeepsStaleKey`).
- `getChatById` stores a fetched chat under the id of the returned record, with the positions
  TDLib sent, but gives it no index keys (`ChatQueries.FetchedChatCachedNotListed`). If the
  fetched chat has a main-list position, the invariant no longer holds
  (`ChatQueries.FetchWithMainPositionUnindexed`).

## Model

| member | source | states |
|---|---|---|
| OrderedChats.Equals | src/main/java/com/cypexa/telegram/client/service/TelegramChatService.java:338-343 | two keys are equal exactly when they have the same chat id and the same order, that is when they are the same key |
| OrderedChats.CompareTo | src/main/java/com/cypexa/telegram/client/service/TelegramChatService.java:328-336 | the result is -1, 0 or 1; negative exactly when the first key has the higher order, or the same order and the higher chat id; positive exactly in the mirror case; 0 exactly when `equals` holds |
| OrderedChats.CompareToIsStrictTotalOrder | src/main/java/com/cypexa/telegram/client/service/TelegramChatService.java:327-343 | compareTo is antisymmetric, reflexive at 0 and transitive, and returns 0 only for identical keys, so it is a valid TreeSet order that agrees with equals |
| OrderedChats.Insert | src/main/java/com/cypexa/telegram/client/service/TelegramChatService.java:275 | TreeSet.add keeps the index strictly sorted, its key set becomes the old one plus the key, and its size grows by one exactly when the key was absent |
| OrderedChats.Remove | src/main/java/com/cypexa/telegram/client/service/TelegramChatService.java:267 | TreeSet.remove keeps the index strictly sorted, its key set becomes the old one minus the key, and its size shrinks by one exactly when the key was present |
| OrderedChats.SortedUnique | src/main/java/com/cypexa/telegram/client/service/TelegramChatService.java:26 | two strictly sorted listings of the same key set are equal, so the iteration order of the index is fixed by its keys |
| ChatViews.GetChatType | src/main/java/com/cypexa/telegram/client/service/TelegramChatService.java:296-308 | each of "private", "group", "channel", "supergroup", "secret" and "unknown" is returned exactly for its own kind of chat type |
| ChatViews.ExtractMessageText | src/main/java/com/cypexa/telegram/client/service/TelegramChatService.java:310-315 | a text message gives its text; any other content gives the empty string |
| ChatViews.ConvertToDto | src/main/java/com/cypexa/telegram/client/service/TelegramChatService.java:282-294 | the summary carries the chat's id, title and type name; with a last message, its date and extracted text; without one, date 0 and no text |
| ChatViews.ConvertToDtoIgnoresPositions | src/main/java/com/cypexa/telegram/client/service/TelegramChatService.java:282-294 | the summary does not depend on the chat's positions |
| ChatState.RemoveMainKeys | src/main/java/com/cypexa/telegram/client/service/TelegramChatService.java:265-269 | the removal loop keeps the index sorted and takes out exactly the keys of the given main-list entries |
| ChatState.InsertMainKeys | src/main/java/com/cypexa/telegram/client/service/TelegramChatService.java:273-277 | the insertion loop keeps the index sorted and adds exactly the keys of the given main-list entries |
| ChatState.SetChatPositions | src/main/java/com/cypexa/telegram/client/service/TelegramChatService.java:262-280 | the index stays sorted; its keys become the old keys minus those of the chat's current main entries, plus those of the new main entries; the chat's positions are replaced and nothing else changes |
| ChatState.FirstMainIndex | src/main/java/com/cypexa/telegram/client/service/TelegramChatService.java:237-242 | the search stops at the first main-list entry, or at the end when there is none; no entry before it is a main-list one |
| ChatState.MergeMainPosition | src/main/java/com/cypexa/telegram/client/service/TelegramChatService.java:237-252 | the merged array has the length the code allocates (one more when the order is not 0, one less when a main entry was found), starts with the incoming position when its order is not 0, and holds nothing but that position and old entries |
| ChatState.HandleUpdate | src/main/java/com/cypexa/telegram/client/service/TelegramChatService.java:193-260 | every update keeps the index sorted and leaves the completeness flag alone |
| ChatState.HandleUpdates | src/main/java/com/cypexa/telegram/client/service/TelegramChatService.java:193-260 | a stream of updates keeps the index sorted and leaves the completeness flag alone |
| ChatState.TopCount | src/main/java/com/cypexa/telegram/client/service/TelegramChatService.java:86-88 | the answer loop walks min(limit, size) keys, never more than the index holds or than a non-negative limit, and none for a limit of 0 or less |
| ChatState.ResolveChats | src/main/java/com/cypexa/telegram/client/service/TelegramChatService.java:88-96 | the answer has at most one chat per key, and holds exactly the summaries of the cached chats the keys name (keys of uncached chats are skipped); when every key names a cached chat it has exactly one per key, in key order |
| ChatState.MainChatListStep | src/main/java/com/cypexa/telegram/client/service/TelegramChatService.java:52-100 | LoadChats is requested exactly when the list is not known complete and limit exceeds the index size, and then for the missing number; otherwise the answer has at most min(limit, size) chats and the index size as total |
| ChatState.OnLoadChats | src/main/java/com/cypexa/telegram/client/service/TelegramChatService.java:59-77 | the callback changes only the flag; the flag is set exactly on error 404; it retries exactly on 404 or Ok; another error fails with its message; any other response fails as a wrong response |
| ChatState.RunMainChatList | src/main/java/com/cypexa/telegram/client/service/TelegramChatService.java:52-100 | the retry chain keeps the index sorted; a loaded reply is exactly the answer of one run over the final state; a waiting call is exactly the positive LoadChats request of the final state; a failure is a LoadChats error or a wrong response; with the list already complete it answers at once and changes nothing; it ends with the flag set only if it started set or some answer was 404 |
| ChatState.GetChats | src/main/java/com/cypexa/telegram/client/service/TelegramChatService.java:34-50 | an unauthorized call fails with "not authorized" and changes nothing |
| ChatState.LookupChat | src/main/java/com/cypexa/telegram/client/service/TelegramChatService.java:102-119 | an unauthorized lookup fails with "not authorized"; an authorized one answers the summary of the cached chat exactly when the id is cached and asks TDLib for that id exactly when it is not |
| ChatState.OnGetChat | src/main/java/com/cypexa/telegram/client/service/TelegramChatService.java:120-131 | a returned chat is cached under its own id and answered as its summary, and the index and flag are untouched; an error fails with its message; any other response fails as unexpected; both leave the state as it was |
| ChatInvariants.HandleUpdateKeyedById | src/main/java/com/cypexa/telegram/client/service/TelegramChatService.java:195-258 | every update keeps each cached chat stored under its own id |
| ChatInvariants.EmptyIsConsistent | src/main/java/com/cypexa/telegram/client/service/TelegramChatService.java:25-27 | the initial empty cache and index satisfy the consistency invariant |
| ChatInvariants.MainPositionsAppend | src/main/java/com/cypexa/telegram/client/service/TelegramChatService.java:265-277 | the main-list and other-list entries of a concatenation are the concatenations of each part's |
| ChatInvariants.NoMainBeforeFirst | src/main/java/com/cypexa/telegram/client/service/TelegramChatService.java:237-242 | before the found index there are no main-list entries |
| ChatInvariants.FirstMainIndexAbsent | src/main/java/com/cypexa/telegram/client/service/TelegramChatService.java:237-243 | the search runs to the end exactly when the positions have no main-list entry |
| ChatInvariants.SplitAtMain | src/main/java/com/cypexa/telegram/client/service/TelegramChatService.java:248-252 | skipping the found entry removes the first main-list entry and keeps every other entry in order |
| ChatInvariants.MergeMainPositionShape | src/main/java/com/cypexa/telegram/client/service/TelegramChatService.java:237-252 | the merge keeps the other lists' entries in order, drops only the first main entry, puts the incoming one first exactly when its order is not 0, and has the array length the code allocates |
| ChatInvariants.MergeKeepsOneMain | src/main/java/com/cypexa/telegram/client/service/TelegramChatService.java:237-252 | with at most one main entry before, the merge leaves exactly the incoming position when its order is not 0 and no main entry otherwise |
| ChatInvariants.MergeIdempotent | src/main/java/com/cypexa/telegram/client/service/TelegramChatService.java:237-252 | merging the same position twice gives the same positions as merging it once |
| ChatInvariants.SetChatPositionsKeys | src/main/java/com/cypexa/telegram/client/service/TelegramChatService.java:262-280 | after setChatPositions, the chat's keys are exactly those of its new main entries and every other chat's keys are unchanged |
| ChatInvariants.SetChatPositionsConsistent | src/main/java/com/cypexa/telegram/client/service/TelegramChatService.java:262-280 | setChatPositions preserves the consistency invariant |
| ChatInvariants.HandleUpdateTracked | src/main/java/com/cypexa/telegram/client/service/TelegramChatService.java:193-260 | every update, in any order, keeps every index key naming a cached chat |
| ChatInvariants.HandleUpdateConsistent | src/main/java/com/cypexa/telegram/client/service/TelegramChatService.java:193-260 | every update preserves the consistency invariant when a new-chat update names an uncached chat |
| ChatInvariants.HandleUpdatesConsistent | src/main/java/com/cypexa/telegram/client/service/TelegramChatService.java:193-260 | any stream of updates preserves the consistency invariant under the same condition on each new-chat update |
| ChatInvariants.HandleUpdatesTracked | src/main/java/com/cypexa/telegram/client/service/TelegramChatService.java:193-260 | any stream of updates keeps every index key naming a cached chat and every chat under its own id |
| ChatInvariants.RunMainChatListTracked | src/main/java/com/cypexa/telegram/client/service/TelegramChatService.java:52-100 | the retry chain, with any updates arriving before each callback, keeps every index key naming a cached chat and every chat under its own id |
| ChatInvariants.OneKeyPerListedChat | src/main/java/com/cypexa/telegram/client/service/TelegramChatService.java:26 | in a consistent state, a chat with one main entry has exactly one index key, the one with that entry's order |
| ChatInvariants.MainKeysOfMain | src/main/java/com/cypexa/telegram/client/service/TelegramChatService.java:273-277 | the keys a positions array gives are those of its main-list entries |
| ChatInvariants.NonMainPositionIgnored | src/main/java/com/cypexa/telegram/client/service/TelegramChatService.java:229-232 | a position update for a list other than the main one changes nothing |
| ChatInvariants.UnknownChatIgnored | src/main/java/com/cypexa/telegram/client/service/TelegramChatService.java:207-258 | title, last-message and position updates for an uncached chat change nothing |
| ChatInvariants.TitleUpdate | src/main/java/com/cypexa/telegram/client/service/TelegramChatService.java:207-216 | a title update replaces only that chat's title and leaves the index alone |
| ChatInvariants.LastMessageUpdate | src/main/java/com/cypexa/telegram/client/service/TelegramChatService.java:217-227 | a last-message update replaces the last message and the positions; the chat's keys become those of its new main entries; other chats' keys are unchanged |
| ChatInvariants.ZeroOrderRemovesFromIndex | src/main/java/com/cypexa/telegram/client/service/TelegramChatService.java:228-258 | a main-list position of order 0 leaves the chat with no index key while it stays cached and answerable by id |
| ChatInvariants.SetSamePositions | src/main/java/com/cypexa/telegram/client/service/TelegramChatService.java:262-280 | setting a chat's positions to the ones it has, with its keys present, changes nothing |
| ChatInvariants.PositionUpdateIdempotent | src/main/java/com/cypexa/telegram/client/service/TelegramChatService.java:228-258 | the same main-list position update applied twice gives the same state as once |
| ChatInvariants.RepeatedNewChatKeepsStaleKey | src/main/java/com/cypexa/telegram/client/service/TelegramChatService.java:195-206 | a second new-chat update for a cached chat leaves the old key beside the new one, breaking the invariant |
| ChatInvariants.NewChatIndexesZeroOrder | src/main/java/com/cypexa/telegram/client/service/TelegramChatService.java:273-277 | a main-list entry of order 0 in a new chat is indexed |
| ChatQueries.TopChatsFollowIndex | src/main/java/com/cypexa/telegram/client/service/TelegramChatService.java:83-98 | with every key cached, the answer is one summary per key of the first min(limit, size) keys in index order, and those keys precede every key left out |
| ChatQueries.GetChatsAnswersTop | src/main/java/com/cypexa/telegram/client/service/TelegramChatService.java:34-100 | whatever updates arrive during the retries, a loaded getChats reply is one summary per key of the first min(limit, size) keys of the final index, in index order, with the index size as total |
| ChatQueries.AnswerWithinLimit | src/main/java/com/cypexa/telegram/client/service/TelegramChatService.java:86-98 | an answer has no more chats than the index, no more than a non-negative limit, and the index size as total |
| ChatQueries.ResolveOnlyKeyed | src/main/java/com/cypexa/telegram/client/service/TelegramChatService.java:88-96 | the answer holds no chat whose id no walked key names |
| ChatQueries.ExhaustedListAnswers | src/main/java/com/cypexa/telegram/client/service/TelegramChatService.java:61-66 | a 404 sets the flag and retries, and the retry answers |
| ChatQueries.CompleteListAlwaysAnswers | src/main/java/com/cypexa/telegram/client/service/TelegramChatService.java:54 | once the list is known complete, every run answers without asking TDLib |
| ChatQueries.ExhaustedBackfillEnds | src/main/java/com/cypexa/telegram/client/service/TelegramChatService.java:52-100 | getChats ends at the first 404 answer with the index size as the total |
| ChatQueries.ExhaustedReturnsAllIndexed | src/main/java/com/cypexa/telegram/client/service/TelegramChatService.java:52-100 | with too few keys and a 404 answer, getChats returns every indexed chat in order with their number as total, and only the flag changes |
| ChatQueries.OkWithoutUpdatesRepeats | src/main/java/com/cypexa/telegram/client/service/TelegramChatService.java:71-74 | an Ok answer with no updates leaves the call exactly where it was |
| ChatQueries.NewListedChat | src/main/java/com/cypexa/telegram/client/service/TelegramChatService.java:195-206 | a new chat with one main position adds that one key to the index and caches the chat |
| ChatQueries.TwoListedChats | src/main/java/com/cypexa/telegram/client/service/TelegramChatService.java:195-206 | chats 1 (order 100) and 2 (order 50) arriving give the index 1, 2 |
| ChatQueries.ChatMovesUp | src/main/java/com/cypexa/telegram/client/service/TelegramChatService.java:228-258 | moving chat 2 to order 200 gives the index 2, 1 |
| ChatQueries.FirstPage | src/main/java/com/cypexa/telegram/client/service/TelegramChatService.java:83-98 | a query for two over the index 1, 2 answers chat 1 then chat 2 with total 2 |
| ChatQueries.SecondPage | src/main/java/com/cypexa/telegram/client/service/TelegramChatService.java:83-98 | a query for two over the index 2, 1 answers chat 2 then chat 1 with total 2 |
| ChatQueries.PaginationExample | src/main/java/com/cypexa/telegram/client/service/TelegramChatService.java:193-260 | after the two new chats a query for two lists 1 then 2; after chat 2 moves to order 200 it lists 2 then 1 |
| ChatQueries.FetchedChatCachedNotListed | src/main/java/com/cypexa/telegram/client/service/TelegramChatService.java:119-125 | a fetched chat is answered, then served from the cache, the index is unchanged and no main-list answer includes it |
| ChatQueries.FetchKeepsTracked | src/main/java/com/cypexa/telegram/client/service/TelegramChatService.java:123 | storing any GetChat answer keeps every key naming a cached chat and every chat under its own id |
| ChatQueries.FetchKeepsConsistent | src/main/java/com/cypexa/telegram/client/service/TelegramChatService.java:123 | storing a new fetched chat with no main-list entry preserves the consistency invariant |
| ChatQueries.FetchWithMainPositionUnindexed | src/main/java/com/cypexa/telegram/client/service/TelegramChatService.java:123 | storing a new fetched chat with a main-list entry breaks the consistency invariant |
| ChatService.TelegramChatService.constructor | src/main/java/com/cypexa/telegram/client/service/TelegramChatService.java:25-27 | the service starts with an empty cache, an empty index and the flag unset |
| ChatService.TelegramChatService.HandleUpdate | src/main/java/com/cypexa/telegram/client/service/TelegramChatService.java:193-260 | the fields become exactly `ChatState.HandleUpdate` of the old fields, and the index stays sorted |
| ChatService.TelegramChatService.MergeMainPosition | src/main/java/com/cypexa/telegram/client/service/TelegramChatService.java:237-252 | the search loop and array copy produce exactly the merged positions |
| ChatService.TelegramChatService.SetChatPositions | src/main/java/com/cypexa/telegram/client/service/TelegramChatService.java:262-280 | the two loops leave the fields exactly as `ChatState.SetChatPositions` says |
| ChatService.TelegramChatService.ResolveTop | src/main/java/com/cypexa/telegram/client/service/TelegramChatService.java:84-96 | the answer loop returns exactly the summaries of the first min(limit, size) keys whose chats are cached |
| ChatService.TelegramChatService.GetMainChatList | src/main/java/com/cypexa/telegram/client/service/TelegramChatService.java:52-100 | one run returns exactly `ChatState.MainChatListStep` of the fields |
| ChatService.TelegramChatService.OnLoadChatsResult | src/main/java/com/cypexa/telegram/client/service/TelegramChatService.java:59-77 | the callback sets the flag and reacts exactly as `ChatState.OnLoadChats` says |
| ChatService.TelegramChatService.GetChats | src/main/java/com/cypexa/telegram/client/service/TelegramChatService.java:34-100 | the retry loop ends in exactly the state and reply of `ChatState.GetChats` |
| ChatService.TelegramChatService.GetChatById | src/main/java/com/cypexa/telegram/client/service/TelegramChatService.java:102-119 | the lookup returns exactly `ChatState.LookupChat` of the cache |
| ChatService.TelegramChatService.OnGetChatResult | src/main/java/com/cypexa/telegram/client/service/TelegramChatService.java:120-131 | the callback leaves the fields and returns exactly what `ChatState.OnGetChat` says |

## Left out

- Locking (`synchronized` on the index and on chat records, the volatile flag) and concurrency.
  Updates are applied one at a time. In `getChats` they interleave only between a LoadChats
  request and its callback.
- Reactor plumbing (`Mono.create`, sinks, the `doOn…` logging hooks) and the exception messages.
  Errors are the `ServiceError` values. The `try/catch` around `getMainChatList` is left out
  because the modelled code throws nothing.
- The TDLib client and `TelegramAuthService`: requests are results (`LoadChats(count)`,
  `FetchChat(id)`) and answers are parameters. Authorization is a boolean.
- `sendMessage`: it sends a message and does not touch the cache or the index.
- `OrderedChat.hashCode`: the `TreeSet` never calls it.
- Java `long` width: chat ids and orders are unbounded integers. The service only compares them,
  so no overflow can arise.
- Chat records are values stored in the map. Aliasing between a record held by TDLib and the
  cached one is not modelled. The service only writes records through the map's entry.
- ChatState.RunMainChatList: an Ok answer that brings no new chats makes the Java code ask again
  without bound. The model answers each request from a finite input sequence and reports a call
  still waiting when it runs out (`ChatQueries.OkWithoutUpdatesRepeats`).
- Update kinds other than new chat, title, last message and position
  are ignored, as in the code. A position's `isPinned` flag is carried but never read.
- The fields `description`, `isVerified`, `isChannel`, `isGroup`, `memberCount` and `photoUrl` of
  `ChatResponseDto` keep their defaults in `convertToDto` and are left out.
