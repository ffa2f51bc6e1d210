/**
  TelegramChatService: the chat cache, the main-list index and the completeness flag as
  fields updated in place, with the service's loops written out. Each method is proved to
  leave the fields (and return) exactly what the matching function of `ChatState` says.
 */
module ChatService {
  import opened Wrappers
  import opened TdApi
  import opened OrderedChats
  import opened ChatViews
  import opened ChatState

  class TelegramChatService {
    var chats: map<int, Chat>
    var mainChatList: seq<OrderedChat>
    var haveFullMainChatList: bool

    /** The index is a sorted set: strictly ordered by `Precedes`, hence free of duplicates. */
    ghost predicate Valid()
      reads this
    {
      Sorted(mainChatList)
    }

    /** The fields as a value of the specification. */
    function Snapshot(): State
      reads this
    {
      State(chats, mainChatList, haveFullMainChatList)
    }

    constructor ()
      ensures Valid() && Snapshot() == State(map[], [], false)
    {
      chats := map[];
      mainChatList := [];
      haveFullMainChatList := false;
    }

    /** handleUpdate. */
    method HandleUpdate(u: Update)
      requires Valid()
      modifies this
      ensures Valid() && Snapshot() == ChatState.HandleUpdate(old(Snapshot()), u)
    {
      match u
      case UpdateNewChat(c) =>
        chats := chats[c.id := c.(positions := [])];
        SetChatPositions(c.id, c.positions);
      case UpdateChatTitle(id, title) =>
        if id in chats {
          chats := chats[id := chats[id].(title := title)];
        }
      case UpdateChatLastMessage(id, lastMessage, ps) =>
        if id in chats {
          chats := chats[id := chats[id].(lastMessage := lastMessage)];
          SetChatPositions(id, ps);
        }
      case UpdateChatPosition(id, p) =>
        if !p.list.ChatListMain? {
          return;
        }
        if id in chats {
          var merged := MergeMainPosition(chats[id].positions, p);
          SetChatPositions(id, merged);
        }
      case OtherUpdate =>
    }

    /** The array surgery of UpdateChatPosition: find the first main-list entry, then copy around it. */
    static method MergeMainPosition(positions: seq<ChatPosition>, position: ChatPosition)
      returns (merged: seq<ChatPosition>)
      ensures merged == ChatState.MergeMainPosition(positions, position)
    {
      var i := 0;
      while i < |positions| && !positions[i].list.ChatListMain?
        invariant 0 <= i <= |positions|
        invariant forall j :: 0 <= j < i ==> !positions[j].list.ChatListMain?
      {
        i := i + 1;
      }
      assert i == FirstMainIndex(positions);
      ghost var kept := if i < |positions| then positions[..i] + positions[i + 1..] else positions;
      var head := if position.order != 0 then [position] else [];
      var a := new ChatPosition[|positions| + (if position.order == 0 then 0 else 1) - (if i < |positions| then 1 else 0)];
      assert a.Length == |head| + |kept|;
      var pos := 0;
      if position.order != 0 {
        a[pos] := position;
        pos := pos + 1;
      }
      for j := 0 to |positions|
        invariant pos == |head| + j - (if i < j then 1 else 0)
        invariant forall m :: 0 <= m < pos ==> a[m] == (head + kept)[m]
      {
        if j != i {
          assert kept[j - (if i < j then 1 else 0)] == positions[j];
          a[pos] := positions[j];
          pos := pos + 1;
        }
      }
      assert a[..] == head + kept;
      merged := a[..];
    }

    /** setChatPositions: drop the keys of the current main-list entries, store the positions, add the new keys. */
    method SetChatPositions(chatId: int, positions: seq<ChatPosition>)
      requires Valid() && chatId in chats
      modifies this
      ensures Valid() && Snapshot() == ChatState.SetChatPositions(old(Snapshot()), chatId, positions)
    {
      var current := chats[chatId].positions;
      for i := 0 to |current|
        invariant Sorted(mainChatList)
        invariant mainChatList == RemoveMainKeys(old(mainChatList), chatId, current[..i])
        invariant chats == old(chats) && haveFullMainChatList == old(haveFullMainChatList)
      {
        RemoveMainKeysStep(old(mainChatList), chatId, current, i);
        if current[i].list.ChatListMain? {
          mainChatList := Remove(mainChatList, OrderedChat(chatId, current[i].order));
        }
      }
      assert current[..|current|] == current;
      chats := chats[chatId := chats[chatId].(positions := positions)];
      ghost var removed := mainChatList;
      for i := 0 to |positions|
        invariant Sorted(removed) && Sorted(mainChatList)
        invariant mainChatList == InsertMainKeys(removed, chatId, positions[..i])
        invariant chats == old(chats)[chatId := old(chats)[chatId].(positions := positions)]
        invariant haveFullMainChatList == old(haveFullMainChatList)
      {
        InsertMainKeysStep(removed, chatId, positions, i);
        if positions[i].list.ChatListMain? {
          mainChatList := Insert(mainChatList, OrderedChat(chatId, positions[i].order));
        }
      }
      assert positions[..|positions|] == positions;
    }

    /** The answer loop of getMainChatList: the chats of the first min(limit, size) keys, skipping uncached ones. */
    static method ResolveTop(cache: map<int, Chat>, index: seq<OrderedChat>, limit: int)
      returns (chatList: seq<ChatResponse>)
      ensures chatList == ResolveChats(cache, index[..TopCount(limit, |index|)])
    {
      chatList := [];
      var count := if limit < |index| then limit else |index|;
      ghost var n := TopCount(limit, |index|);
      var i := 0;
      while i < count
        invariant 0 <= i <= n
        invariant chatList == ResolveChats(cache, index[..i])
      {
        var chatId := index[i].chatId;
        ResolveChatsStep(cache, index, i);
        if chatId in cache {
          chatList := chatList + [ConvertToDto(cache[chatId])];
        }
        i := i + 1;
      }
      assert i == n;
    }

    /**
      getMainChatList, one run: either the number of chats to ask TDLib for, or the answer built
      by walking the first min(limit, size) keys of the index.
     */
    method GetMainChatList(limit: int) returns (step: ListStep)
      requires Valid()
      ensures step == MainChatListStep(Snapshot(), limit)
    {
      if !haveFullMainChatList && limit > |mainChatList| {
        return LoadChats(limit - |mainChatList|);
      }
      var chatList := ResolveTop(chats, mainChatList, limit);
      step := ChatListResult(chatList, |mainChatList|);
    }

    /**
      The LoadChats callback: 404 marks the main list complete and asks for a retry. The method
      form of `ChatState.OnLoadChats`, setting the flag field in place.
     */
    method OnLoadChatsResult(response: LoadChatsResponse) returns (reaction: LoadReaction)
      requires Valid()
      modifies this
      ensures Valid() && LoadOutcome(Snapshot(), reaction) == OnLoadChats(old(Snapshot()), response)
    {
      match response
      case LoadChatsError(code, message) =>
        if code == 404 {
          haveFullMainChatList := true;
          reaction := Retry;
        } else {
          reaction := Fail(LoadChatsFailed(message));
        }
      case LoadChatsOk =>
        reaction := Retry;
      case LoadChatsOther =>
        reaction := Fail(WrongResponse);
    }

    /**
      getChats: the retry chain of getMainChatList as a loop. Each LoadChats request is answered
      by the next element of `backfills`, whose updates are handled before its response.
     */
    method GetChats(authorized: bool, limit: int, backfills: seq<Backfill>) returns (reply: ChatsReply)
      requires Valid()
      modifies this
      ensures Valid()
      ensures ChatsOutcome(Snapshot(), reply) == ChatState.GetChats(old(Snapshot()), authorized, limit, backfills)
    {
      if !authorized {
        return ChatsFailed(NotAuthorized);
      }
      var k := 0;
      while true
        invariant Valid() && 0 <= k <= |backfills|
        invariant RunMainChatList(Snapshot(), limit, backfills[k..]) == RunMainChatList(old(Snapshot()), limit, backfills)
        decreases |backfills| - k
      {
        var step := GetMainChatList(limit);
        if step.ChatListResult? {
          return ChatsLoaded(step.chats, step.totalCount);
        }
        if k == |backfills| {
          return AwaitingLoadChats(step.count);
        }
        var updates := backfills[k].updates;
        ghost var before := Snapshot();
        for j := 0 to |updates|
          invariant Valid()
          invariant HandleUpdates(Snapshot(), updates[j..]) == HandleUpdates(before, updates)
        {
          assert updates[j..][1..] == updates[j + 1..];
          HandleUpdate(updates[j]);
        }
        assert updates[|updates|..] == [];
        var reaction := OnLoadChatsResult(backfills[k].response);
        if reaction.Fail? {
          return ChatsFailed(reaction.error);
        }
        assert backfills[k..][1..] == backfills[k + 1..];
        k := k + 1;
      }
    }

    /**
      getChatById, before any request: a cached chat is answered at once, otherwise TDLib is asked.
      The method form of `ChatState.LookupChat`, reading the cache field.
     */
    method GetChatById(authorized: bool, chatId: int) returns (lookup: ChatLookup)
      ensures lookup == LookupChat(Snapshot(), authorized, chatId)
    {
      if !authorized {
        return LookupFailed(NotAuthorized);
      }
      if chatId in chats {
        return CachedChat(ConvertToDto(chats[chatId]));
      }
      lookup := FetchChat(chatId);
    }

    /**
      The GetChat callback: a returned chat is stored under its own id; the index is left alone.
      The method form of `ChatState.OnGetChat`, updating the cache field in place.
     */
    method OnGetChatResult(response: GetChatResponse) returns (result: Result<ChatResponse, ServiceError>)
      requires Valid()
      modifies this
      ensures Valid() && FetchOutcome(Snapshot(), result) == OnGetChat(old(Snapshot()), response)
    {
      match response
      case GetChatFound(c) =>
        chats := chats[c.id := c];
        result := Success(ConvertToDto(c));
      case GetChatError(_, message) =>
        result := Failure(GetChatFailed(message));
      case GetChatOther =>
        result := Failure(UnexpectedResponseType);
    }
  }
}
