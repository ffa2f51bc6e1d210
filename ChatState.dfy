/**
  The chat cache as a value: the map from chat id to chat record, the main-list index
  and the "whole main list is loaded" flag, with one function per thing the service
  does to them. The methods of `ChatService.TelegramChatService` are proved to do
  exactly what these functions say.
 */
module ChatState {
  import opened Wrappers
  import opened TdApi
  import opened OrderedChats
  import opened ChatViews

  datatype State = State(
    chats: map<int, Chat>,
    mainChatList: seq<OrderedChat>,
    haveFullMainChatList: bool)

  /** The keys held by the main-list index. */
  function Keys(s: State): set<OrderedChat> {
    Elems(s.mainChatList)
  }

  /** The errors the service reports to its callers. */
  datatype ServiceError =
    | NotAuthorized
    | LoadChatsFailed(message: string)
    | WrongResponse
    | GetChatFailed(message: string)
    | UnexpectedResponseType

  // ---------------------------------------------------------------------------
  // Positions and the index keys they give rise to

  /** The main-list entries of a positions array, in order. */
  function MainPositions(ps: seq<ChatPosition>): seq<ChatPosition> {
    if ps == [] then []
    else (if ps[0].list.ChatListMain? then [ps[0]] else []) + MainPositions(ps[1..])
  }

  /** The entries of a positions array for every list but the main one, in order. */
  function OtherPositions(ps: seq<ChatPosition>): seq<ChatPosition> {
    if ps == [] then []
    else (if ps[0].list.ChatListMain? then [] else [ps[0]]) + OtherPositions(ps[1..])
  }

  /** TDLib sends at most one position per list; this is the part of that the service relies on. */
  predicate AtMostOneMain(ps: seq<ChatPosition>) {
    |MainPositions(ps)| <= 1
  }

  /** The index keys chat `id` gets from positions `ps`: one per main-list entry, whatever its order. */
  ghost function MainKeys(id: int, ps: seq<ChatPosition>): set<OrderedChat> {
    set p | p in ps && p.list.ChatListMain? :: OrderedChat(id, p.order)
  }

  /** The keys of `ks` that belong to chat `id`. */
  ghost function KeysOf(id: int, ks: set<OrderedChat>): set<OrderedChat> {
    set k | k in ks && k.chatId == id
  }

  lemma MainKeysSnoc(id: int, ps: seq<ChatPosition>)
    requires ps != []
    ensures MainKeys(id, ps) ==
      MainKeys(id, ps[..|ps| - 1]) +
      (if ps[|ps| - 1].list.ChatListMain? then {OrderedChat(id, ps[|ps| - 1].order)} else {})
  {
    assert ps == ps[..|ps| - 1] + [ps[|ps| - 1]];
  }

  // ---------------------------------------------------------------------------
  // setChatPositions

  /** The removal loop of setChatPositions: take out the key of every main-list entry of `ps`. */
  function RemoveMainKeys(index: seq<OrderedChat>, id: int, ps: seq<ChatPosition>): (r: seq<OrderedChat>)
    requires Sorted(index)
    ensures Sorted(r)
    ensures Elems(r) == Elems(index) - MainKeys(id, ps)
    decreases |ps|
  {
    if ps == [] then index
    else
      var last := ps[|ps| - 1];
      var rest := RemoveMainKeys(index, id, ps[..|ps| - 1]);
      MainKeysSnoc(id, ps);
      if last.list.ChatListMain? then Remove(rest, OrderedChat(id, last.order)) else rest
  }

  /** The insertion loop of setChatPositions: add the key of every main-list entry of `ps`. */
  function InsertMainKeys(index: seq<OrderedChat>, id: int, ps: seq<ChatPosition>): (r: seq<OrderedChat>)
    requires Sorted(index)
    ensures Sorted(r)
    ensures Elems(r) == Elems(index) + MainKeys(id, ps)
    decreases |ps|
  {
    if ps == [] then index
    else
      var last := ps[|ps| - 1];
      var rest := InsertMainKeys(index, id, ps[..|ps| - 1]);
      MainKeysSnoc(id, ps);
      if last.list.ChatListMain? then Insert(rest, OrderedChat(id, last.order)) else rest
  }

  /** One more step of the removal loop. */
  lemma RemoveMainKeysStep(index: seq<OrderedChat>, id: int, ps: seq<ChatPosition>, i: nat)
    requires Sorted(index) && i < |ps|
    ensures RemoveMainKeys(index, id, ps[..i + 1]) ==
      var rest := RemoveMainKeys(index, id, ps[..i]);
      if ps[i].list.ChatListMain? then Remove(rest, OrderedChat(id, ps[i].order)) else rest
  {
    assert ps[..i + 1][..i] == ps[..i];
  }

  /** One more step of the insertion loop. */
  lemma InsertMainKeysStep(index: seq<OrderedChat>, id: int, ps: seq<ChatPosition>, i: nat)
    requires Sorted(index) && i < |ps|
    ensures InsertMainKeys(index, id, ps[..i + 1]) ==
      var rest := InsertMainKeys(index, id, ps[..i]);
      if ps[i].list.ChatListMain? then Insert(rest, OrderedChat(id, ps[i].order)) else rest
  {
    assert ps[..i + 1][..i] == ps[..i];
  }

  /**
    setChatPositions: drop the index keys of the chat's current main-list entries, store the
    new positions, then add the keys of the new main-list entries (order 0 included).
   */
  function SetChatPositions(s: State, id: int, ps: seq<ChatPosition>): (r: State)
    requires id in s.chats && Sorted(s.mainChatList)
    ensures Sorted(r.mainChatList)
    ensures Keys(r) == (Keys(s) - MainKeys(id, s.chats[id].positions)) + MainKeys(id, ps)
    ensures r.chats == s.chats[id := s.chats[id].(positions := ps)]
    ensures r.haveFullMainChatList == s.haveFullMainChatList
  {
    var removed := RemoveMainKeys(s.mainChatList, id, s.chats[id].positions);
    s.(chats := s.chats[id := s.chats[id].(positions := ps)],
       mainChatList := InsertMainKeys(removed, id, ps))
  }

  // ---------------------------------------------------------------------------
  // The position merge of UpdateChatPosition

  /** The index of the first main-list entry of `ps`, or |ps| when there is none. */
  function FirstMainIndex(ps: seq<ChatPosition>): (i: nat)
    ensures i <= |ps|
    ensures forall j :: 0 <= j < i ==> !ps[j].list.ChatListMain?
    ensures i < |ps| ==> ps[i].list.ChatListMain?
  {
    if ps == [] then 0
    else if ps[0].list.ChatListMain? then 0
    else 1 + FirstMainIndex(ps[1..])
  }

  /**
    The new positions array of UpdateChatPosition: the first main-list entry is dropped, and the
    incoming position is put in front when its order is not 0.
   */
  function MergeMainPosition(ps: seq<ChatPosition>, p: ChatPosition): (r: seq<ChatPosition>)
    ensures |r| == |ps| + (if p.order == 0 then 0 else 1) - (if FirstMainIndex(ps) < |ps| then 1 else 0)
    ensures p.order != 0 ==> r[0] == p
    ensures forall x :: x in r ==> x == p || x in ps
  {
    var i := FirstMainIndex(ps);
    var kept := if i < |ps| then ps[..i] + ps[i + 1..] else ps;
    if p.order != 0 then [p] + kept else kept
  }

  // ---------------------------------------------------------------------------
  // handleUpdate

  /** handleUpdate: one inbound update applied to the cache and the index. */
  function HandleUpdate(s: State, u: Update): (r: State)
    requires Sorted(s.mainChatList)
    ensures Sorted(r.mainChatList)
    ensures r.haveFullMainChatList == s.haveFullMainChatList
  {
    match u
    case UpdateNewChat(c) =>
      SetChatPositions(s.(chats := s.chats[c.id := c.(positions := [])]), c.id, c.positions)
    case UpdateChatTitle(id, title) =>
      if id in s.chats then s.(chats := s.chats[id := s.chats[id].(title := title)]) else s
    case UpdateChatLastMessage(id, lastMessage, ps) =>
      if id in s.chats then
        SetChatPositions(s.(chats := s.chats[id := s.chats[id].(lastMessage := lastMessage)]), id, ps)
      else s
    case UpdateChatPosition(id, p) =>
      if !p.list.ChatListMain? then s
      else if id in s.chats then SetChatPositions(s, id, MergeMainPosition(s.chats[id].positions, p))
      else s
    case OtherUpdate => s
  }

  /** A stream of updates applied in arrival order. */
  function HandleUpdates(s: State, us: seq<Update>): (r: State)
    requires Sorted(s.mainChatList)
    ensures Sorted(r.mainChatList)
    ensures r.haveFullMainChatList == s.haveFullMainChatList
    decreases |us|
  {
    if us == [] then s else HandleUpdates(HandleUpdate(s, us[0]), us[1..])
  }

  // ---------------------------------------------------------------------------
  // getMainChatList, one step at a time

  /** What one run of getMainChatList does: ask TDLib for more chats, or answer from the cache. */
  datatype ListStep =
    | LoadChats(count: int)
    | ChatListResult(chats: seq<ChatResponse>, totalCount: int)

  /** How many index entries the answer walks: min(limit, size), and none for a negative limit. */
  function TopCount(limit: int, size: nat): (n: nat)
    ensures n <= size
    ensures limit >= 0 ==> n <= limit
    ensures n == size || n == limit || (limit < 0 && n == 0)
    ensures limit <= 0 ==> n == 0
  {
    if limit <= 0 then 0 else if limit < size then limit else size
  }

  /** The summaries of the chats the keys name, in key order, skipping ids the cache does not hold. */
  function ResolveChats(chats: map<int, Chat>, keys: seq<OrderedChat>): (r: seq<ChatResponse>)
    ensures |r| <= |keys|
    ensures (forall k :: k in keys ==> k.chatId in chats) ==>
      |r| == |keys| && forall j :: 0 <= j < |r| ==> r[j] == ConvertToDto(chats[keys[j].chatId])
    ensures forall x :: x in r <==>
      exists k :: k in keys && k.chatId in chats && x == ConvertToDto(chats[k.chatId])
    decreases |keys|
  {
    if keys == [] then []
    else
      var init := keys[..|keys| - 1];
      var rest := ResolveChats(chats, init);
      var last := keys[|keys| - 1];
      var id := last.chatId;
      assert keys == init + [last];
      var r := if id in chats then rest + [ConvertToDto(chats[id])] else rest;
      assert forall k :: k in keys <==> k in init || k == last;
      r
  }

  /** One more step of the answer loop. */
  lemma ResolveChatsStep(chats: map<int, Chat>, keys: seq<OrderedChat>, i: nat)
    requires i < |keys|
    ensures ResolveChats(chats, keys[..i + 1]) ==
      var rest := ResolveChats(chats, keys[..i]);
      if keys[i].chatId in chats then rest + [ConvertToDto(chats[keys[i].chatId])] else rest
  {
    assert keys[..i + 1][..i] == keys[..i];
  }

  /**
    getMainChatList: while the main list is not known to be complete and the index holds fewer
    than `limit` keys, ask for exactly the missing number; otherwise answer with the chats of the
    first min(limit, size) keys and the index size as the total count.
   */
  function MainChatListStep(s: State, limit: int): (r: ListStep)
    ensures r.LoadChats? <==> !s.haveFullMainChatList && limit > |s.mainChatList|
    ensures r.LoadChats? ==> r.count == limit - |s.mainChatList| > 0
    ensures r.ChatListResult? ==>
      r.totalCount == |s.mainChatList| &&
      |r.chats| <= TopCount(limit, |s.mainChatList|)
  {
    var size := |s.mainChatList|;
    if !s.haveFullMainChatList && limit > size then LoadChats(limit - size)
    else ChatListResult(ResolveChats(s.chats, s.mainChatList[..TopCount(limit, size)]), size)
  }

  /** What the LoadChats callback does next. */
  datatype LoadReaction = Retry | Fail(error: ServiceError)

  datatype LoadOutcome = LoadOutcome(state: State, reaction: LoadReaction)

  /**
    The LoadChats callback: error 404 marks the main list complete and retries, Ok retries
    with nothing changed, any other error or response fails the call.
   */
  function OnLoadChats(s: State, response: LoadChatsResponse): (r: LoadOutcome)
    ensures r.state.chats == s.chats && r.state.mainChatList == s.mainChatList
    ensures r.state.haveFullMainChatList <==>
      s.haveFullMainChatList || (response.LoadChatsError? && response.code == 404)
    ensures r.reaction.Retry? <==>
      response.LoadChatsOk? || (response.LoadChatsError? && response.code == 404)
    ensures response.LoadChatsError? && response.code != 404 ==>
      r.reaction == Fail(LoadChatsFailed(response.message))
    ensures response.LoadChatsOther? ==> r.reaction == Fail(WrongResponse)
  {
    match response
    case LoadChatsError(code, message) =>
      if code == 404 then LoadOutcome(s.(haveFullMainChatList := true), Retry)
      else LoadOutcome(s, Fail(LoadChatsFailed(message)))
    case LoadChatsOk => LoadOutcome(s, Retry)
    case LoadChatsOther => LoadOutcome(s, Fail(WrongResponse))
  }

  /** The answer TDLib gives LoadChats once the main list is exhausted: error 404. */
  predicate NoMoreChats(response: LoadChatsResponse) {
    response.LoadChatsError? && response.code == 404
  }

  /**
    One answered LoadChats request: the updates TDLib pushes before the callback runs, then
    the callback's response.
   */
  datatype Backfill = Backfill(updates: seq<Update>, response: LoadChatsResponse)

  /** How a getChats call ends, or that it is still waiting for a LoadChats answer. */
  datatype ChatsReply =
    | ChatsLoaded(chats: seq<ChatResponse>, totalCount: int)
    | ChatsFailed(error: ServiceError)
    | AwaitingLoadChats(count: int)

  datatype ChatsOutcome = ChatsOutcome(state: State, reply: ChatsReply)

  /**
    getMainChatList with its callback chain: each LoadChats request takes the next answer of
    `backfills`; with none left the call is still waiting.
   */
  function RunMainChatList(s: State, limit: int, backfills: seq<Backfill>): (r: ChatsOutcome)
    requires Sorted(s.mainChatList)
    ensures Sorted(r.state.mainChatList)
    ensures r.reply.AwaitingLoadChats? ==> r.reply.count > 0
    ensures r.reply.ChatsLoaded? ==>
      MainChatListStep(r.state, limit) == ChatListResult(r.reply.chats, r.reply.totalCount)
    ensures r.reply.AwaitingLoadChats? ==> MainChatListStep(r.state, limit) == LoadChats(r.reply.count)
    ensures r.reply.ChatsFailed? ==> r.reply.error.LoadChatsFailed? || r.reply.error == WrongResponse
    ensures s.haveFullMainChatList ==> r.state == s && r.reply.ChatsLoaded?
    ensures r.state.haveFullMainChatList ==>
      s.haveFullMainChatList || exists j :: 0 <= j < |backfills| && NoMoreChats(backfills[j].response)
    decreases |backfills|
  {
    match MainChatListStep(s, limit)
    case ChatListResult(cs, total) => ChatsOutcome(s, ChatsLoaded(cs, total))
    case LoadChats(count) =>
      if backfills == [] then ChatsOutcome(s, AwaitingLoadChats(count))
      else
        var o := OnLoadChats(HandleUpdates(s, backfills[0].updates), backfills[0].response);
        match o.reaction
        case Retry => RunMainChatList(o.state, limit, backfills[1..])
        case Fail(e) => ChatsOutcome(o.state, ChatsFailed(e))
  }

  /** getChats: refused before any work when the session is not authorized. */
  function GetChats(s: State, authorized: bool, limit: int, backfills: seq<Backfill>): (r: ChatsOutcome)
    requires Sorted(s.mainChatList)
    ensures !authorized ==> r == ChatsOutcome(s, ChatsFailed(NotAuthorized))
  {
    if !authorized then ChatsOutcome(s, ChatsFailed(NotAuthorized))
    else RunMainChatList(s, limit, backfills)
  }

  // ---------------------------------------------------------------------------
  // getChatById

  /** What getChatById does first: answer from the cache, or ask TDLib for the chat. */
  datatype ChatLookup = CachedChat(chat: ChatResponse) | FetchChat(chatId: int) | LookupFailed(error: ServiceError)

  function LookupChat(s: State, authorized: bool, chatId: int): (r: ChatLookup)
    ensures !authorized ==> r == LookupFailed(NotAuthorized)
    ensures r.CachedChat? <==> authorized && chatId in s.chats
    ensures r.CachedChat? ==> r.chat == ConvertToDto(s.chats[chatId])
    ensures r.FetchChat? <==> authorized && chatId !in s.chats
    ensures r.FetchChat? ==> r.chatId == chatId
  {
    if !authorized then LookupFailed(NotAuthorized)
    else if chatId in s.chats then CachedChat(ConvertToDto(s.chats[chatId]))
    else FetchChat(chatId)
  }

  datatype FetchOutcome = FetchOutcome(state: State, result: Result<ChatResponse, ServiceError>)

  /** The GetChat callback: a returned chat is cached under its own id (the index is not touched). */
  function OnGetChat(s: State, response: GetChatResponse): (r: FetchOutcome)
    ensures r.state.mainChatList == s.mainChatList
    ensures r.state.haveFullMainChatList == s.haveFullMainChatList
    ensures response.GetChatFound? ==>
      r.state.chats == s.chats[response.chat.id := response.chat] &&
      r.result == Success(ConvertToDto(response.chat))
    ensures response.GetChatError? ==>
      r.state == s && r.result == Failure(GetChatFailed(response.message))
    ensures response.GetChatOther? ==> r.state == s && r.result == Failure(UnexpectedResponseType)
  {
    match response
    case GetChatFound(c) => FetchOutcome(s.(chats := s.chats[c.id := c]), Success(ConvertToDto(c)))
    case GetChatError(_, message) => FetchOutcome(s, Failure(GetChatFailed(message)))
    case GetChatOther => FetchOutcome(s, Failure(UnexpectedResponseType))
  }
}
