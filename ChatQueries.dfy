/**
  Properties of the two read paths: the main-list query with its LoadChats retries, and the
  lookup of one chat by id with its GetChat fallback.
 */
module ChatQueries {
  import opened Wrappers
  import opened TdApi
  import opened OrderedChats
  import opened ChatViews
  import opened ChatState
  import opened ChatInvariants

  // ---------------------------------------------------------------------------
  // getMainChatList

  /**
    An answer lists the chats of the first min(limit, size) index keys, one per key, in index
    order, and every key it covers comes before every key it leaves out.
   */
  lemma TopChatsFollowIndex(s: State, limit: int)
    requires Sorted(s.mainChatList) && Tracked(s)
    requires MainChatListStep(s, limit).ChatListResult?
    ensures var r := MainChatListStep(s, limit);
      var n := TopCount(limit, |s.mainChatList|);
      && |r.chats| == n
      && (forall j :: 0 <= j < n ==> r.chats[j] == ConvertToDto(s.chats[s.mainChatList[j].chatId]))
      && (forall j, m :: 0 <= j < n <= m < |s.mainChatList| ==> Precedes(s.mainChatList[j], s.mainChatList[m]))
  {
    var n := TopCount(limit, |s.mainChatList|);
    var keys := s.mainChatList[..n];
    forall k | k in keys ensures k.chatId in s.chats {
      assert k in s.mainChatList;
    }
  }

  /**
    Whatever updates arrive during the LoadChats retries, a loaded getChats reply lists the chats
    of the first min(limit, size) keys of the index it ends with, one per key, in index order.
   */
  lemma GetChatsAnswersTop(s: State, authorized: bool, limit: int, backfills: seq<Backfill>)
    requires Sorted(s.mainChatList) && Tracked(s) && KeyedById(s)
    ensures var r := GetChats(s, authorized, limit, backfills);
      var n := TopCount(limit, |r.state.mainChatList|);
      && Tracked(r.state)
      && (r.reply.ChatsLoaded? ==>
            && r.reply.totalCount == |r.state.mainChatList|
            && |r.reply.chats| == n
            && forall j :: 0 <= j < n ==>
                 r.reply.chats[j] == ConvertToDto(r.state.chats[r.state.mainChatList[j].chatId]))
  {
    var r := GetChats(s, authorized, limit, backfills);
    if authorized {
      RunMainChatListTracked(s, limit, backfills);
      if r.reply.ChatsLoaded? {
        TopChatsFollowIndex(r.state, limit);
      }
    }
  }

  /** The chats of the answer are never more than the keys walked, and never more than `limit`. */
  lemma AnswerWithinLimit(s: State, limit: int)
    requires MainChatListStep(s, limit).ChatListResult?
    ensures var r := MainChatListStep(s, limit);
      && |r.chats| <= |s.mainChatList|
      && (limit >= 0 ==> |r.chats| <= limit)
      && r.totalCount == |s.mainChatList|
  {
  }

  /** An index key naming no chat `id` yields no answered chat with that id. */
  lemma {:induction false} ResolveOnlyKeyed(chats: map<int, Chat>, keys: seq<OrderedChat>, id: int)
    requires forall i :: i in chats ==> chats[i].id == i
    requires forall k :: k in keys ==> k.chatId != id
    ensures forall x :: x in ResolveChats(chats, keys) ==> x.id != id
    decreases |keys|
  {
    if keys != [] {
      var init := keys[..|keys| - 1];
      forall k | k in init ensures k.chatId != id {
        assert k in keys;
      }
      ResolveOnlyKeyed(chats, init, id);
      var last := keys[|keys| - 1];
      assert last in keys;
      if last.chatId in chats {
        var d := ConvertToDto(chats[last.chatId]);
        assert ResolveChats(chats, keys) == ResolveChats(chats, init) + [d];
        assert d.id == last.chatId;
        assert last.chatId != id;
        forall x | x in ResolveChats(chats, keys) ensures x.id != id {
          if x != d {
            assert x in ResolveChats(chats, init);
          }
        }
      } else {
        assert ResolveChats(chats, keys) == ResolveChats(chats, init);
      }
    }
  }

  /** A 404 from LoadChats sets the flag and retries, and the retry always answers. */
  lemma ExhaustedListAnswers(s: State, limit: int, message: string)
    ensures var o := OnLoadChats(s, LoadChatsError(404, message));
      && o.reaction == Retry
      && o.state.haveFullMainChatList
      && MainChatListStep(o.state, limit).ChatListResult?
  {
  }

  /** Once the main list is known complete, every run answers and asks TDLib for nothing. */
  lemma CompleteListAlwaysAnswers(s: State, limit: int)
    requires s.haveFullMainChatList
    ensures MainChatListStep(s, limit).ChatListResult?
  {
  }

  /**
    getChats ends after the first LoadChats request whose answer is 404: it answers with what
    the index then holds, and the whole index size as the total.
   */
  lemma {:induction false} ExhaustedBackfillEnds(s: State, limit: int, backfills: seq<Backfill>)
    requires Sorted(s.mainChatList)
    requires backfills != [] && backfills[0].response.LoadChatsError? && backfills[0].response.code == 404
    ensures var r := RunMainChatList(s, limit, backfills);
      && r.reply.ChatsLoaded?
      && r.reply.totalCount == |r.state.mainChatList|
  {
    if MainChatListStep(s, limit).LoadChats? {
      var o := OnLoadChats(HandleUpdates(s, backfills[0].updates), backfills[0].response);
      assert MainChatListStep(o.state, limit).ChatListResult?;
      assert RunMainChatList(s, limit, backfills) == RunMainChatList(o.state, limit, backfills[1..]);
    }
  }

  /**
    With fewer chats indexed than asked for and a 404 as the only answer, getChats returns every
    indexed chat, in index order, with their number as the total, after exactly one request.
   */
  lemma ExhaustedReturnsAllIndexed(s: State, limit: int, message: string, rest: seq<Backfill>)
    requires Sorted(s.mainChatList) && Tracked(s)
    requires !s.haveFullMainChatList && limit > |s.mainChatList|
    ensures var r := RunMainChatList(s, limit, [Backfill([], LoadChatsError(404, message))] + rest);
      && r.reply == ChatsLoaded(ResolveChats(s.chats, s.mainChatList), |s.mainChatList|)
      && |r.reply.chats| == |s.mainChatList|
      && r.state == s.(haveFullMainChatList := true)
  {
    var bs := [Backfill([], LoadChatsError(404, message))] + rest;
    var s1 := s.(haveFullMainChatList := true);
    assert HandleUpdates(s, []) == s;
    assert bs[1..] == rest;
    assert RunMainChatList(s, limit, bs) == RunMainChatList(s1, limit, rest);
    assert s.mainChatList[..TopCount(limit, |s.mainChatList|)] == s.mainChatList;
    TopChatsFollowIndex(s1, limit);
  }

  /**
    An Ok answer with no updates before it leaves everything as it was: the next run asks for
    the same chats again. Nothing bounds how often this repeats.
   */
  lemma OkWithoutUpdatesRepeats(s: State, limit: int, rest: seq<Backfill>)
    requires Sorted(s.mainChatList)
    requires MainChatListStep(s, limit).LoadChats?
    ensures RunMainChatList(s, limit, [Backfill([], LoadChatsOk)] + rest) == RunMainChatList(s, limit, rest)
  {
    var bs := [Backfill([], LoadChatsOk)] + rest;
    assert HandleUpdates(s, []) == s;
    assert bs[1..] == rest;
  }

  /** A new chat with one main-list position adds that one key to the index. */
  lemma NewListedChat(s: State, c: Chat, order: int)
    requires Sorted(s.mainChatList)
    requires c.positions == [ChatPosition(ChatListMain, order, false)]
    ensures var r := HandleUpdate(s, UpdateNewChat(c));
      && Elems(r.mainChatList) == Elems(s.mainChatList) + {OrderedChat(c.id, order)}
      && r.chats == s.chats[c.id := c]
  {
    assert MainKeys(c.id, c.positions) == {OrderedChat(c.id, order)};
  }

  /** The state the pagination example reaches after its two new chats. */
  lemma TwoListedChats(c1: Chat, c2: Chat)
    requires c1.id == 1 && c1.positions == [ChatPosition(ChatListMain, 100, false)]
    requires c2.id == 2 && c2.positions == [ChatPosition(ChatListMain, 50, false)]
    ensures var s2 := HandleUpdate(HandleUpdate(State(map[], [], false), UpdateNewChat(c1)), UpdateNewChat(c2));
      s2 == State(map[1 := c1, 2 := c2], [OrderedChat(1, 100), OrderedChat(2, 50)], false)
  {
    var s0 := State(map[], [], false);
    var s1 := HandleUpdate(s0, UpdateNewChat(c1));
    NewListedChat(s0, c1, 100);
    var s2 := HandleUpdate(s1, UpdateNewChat(c2));
    NewListedChat(s1, c2, 50);
    assert Elems(s2.mainChatList) == Elems([OrderedChat(1, 100), OrderedChat(2, 50)]);
    SortedUnique(s2.mainChatList, [OrderedChat(1, 100), OrderedChat(2, 50)]);
  }

  /** The state the pagination example reaches once chat 2 moves to order 200. */
  lemma ChatMovesUp(c1: Chat, c2: Chat)
    requires c1.id == 1 && c2.id == 2 && c2.positions == [ChatPosition(ChatListMain, 50, false)]
    ensures var s2 := State(map[1 := c1, 2 := c2], [OrderedChat(1, 100), OrderedChat(2, 50)], false);
      var p := ChatPosition(ChatListMain, 200, false);
      HandleUpdate(s2, UpdateChatPosition(2, p)) ==
        State(map[1 := c1, 2 := c2.(positions := [p])], [OrderedChat(2, 200), OrderedChat(1, 100)], false)
  {
    var s2 := State(map[1 := c1, 2 := c2], [OrderedChat(1, 100), OrderedChat(2, 50)], false);
    var p := ChatPosition(ChatListMain, 200, false);
    assert MergeMainPosition(c2.positions, p) == [p];
    var s3 := HandleUpdate(s2, UpdateChatPosition(2, p));
    assert MainKeys(2, [p]) == {OrderedChat(2, 200)};
    assert MainKeys(2, c2.positions) == {OrderedChat(2, 50)};
    assert Elems(s3.mainChatList) == Elems([OrderedChat(2, 200), OrderedChat(1, 100)]);
    SortedUnique(s3.mainChatList, [OrderedChat(2, 200), OrderedChat(1, 100)]);
  }

  /** A query for two over the index 1 (order 100), 2 (order 50) lists chat 1, then chat 2. */
  lemma FirstPage(c1: Chat, c2: Chat)
    requires c1.id == 1 && c2.id == 2
    ensures var s2 := State(map[1 := c1, 2 := c2], [OrderedChat(1, 100), OrderedChat(2, 50)], false);
      MainChatListStep(s2, 2) == ChatListResult([ConvertToDto(c1), ConvertToDto(c2)], 2)
  {
    var s2 := State(map[1 := c1, 2 := c2], [OrderedChat(1, 100), OrderedChat(2, 50)], false);
    TopChatsFollowIndex(s2, 2);
  }

  /** A query for two over the index 2 (order 200), 1 (order 100) lists chat 2, then chat 1. */
  lemma SecondPage(c1: Chat, c2: Chat, p: ChatPosition)
    requires c1.id == 1 && c2.id == 2
    ensures var s3 := State(map[1 := c1, 2 := c2.(positions := [p])], [OrderedChat(2, 200), OrderedChat(1, 100)], false);
      MainChatListStep(s3, 2) == ChatListResult([ConvertToDto(c2), ConvertToDto(c1)], 2)
  {
    var s3 := State(map[1 := c1, 2 := c2.(positions := [p])], [OrderedChat(2, 200), OrderedChat(1, 100)], false);
    ConvertToDtoIgnoresPositions(c2, [p]);
    TopChatsFollowIndex(s3, 2);
  }

  /**
    The pagination example: chats 1 (order 100) and 2 (order 50) come in, a query for two lists
    1 then 2; once chat 2 moves to order 200 the same query lists 2 then 1.
   */
  lemma PaginationExample(c1: Chat, c2: Chat)
    requires c1.id == 1 && c1.positions == [ChatPosition(ChatListMain, 100, false)]
    requires c2.id == 2 && c2.positions == [ChatPosition(ChatListMain, 50, false)]
    ensures var s2 := HandleUpdate(HandleUpdate(State(map[], [], false), UpdateNewChat(c1)), UpdateNewChat(c2));
      && MainChatListStep(s2, 2) == ChatListResult([ConvertToDto(c1), ConvertToDto(c2)], 2)
      && var s3 := HandleUpdate(s2, UpdateChatPosition(2, ChatPosition(ChatListMain, 200, false)));
         MainChatListStep(s3, 2) == ChatListResult([ConvertToDto(c2), ConvertToDto(c1)], 2)
  {
    TwoListedChats(c1, c2);
    FirstPage(c1, c2);
    ChatMovesUp(c1, c2);
    SecondPage(c1, c2, ChatPosition(ChatListMain, 200, false));
  }

  // ---------------------------------------------------------------------------
  // getChatById

  /**
    A miss asks TDLib once; once the chat comes back the next lookup answers from the cache,
    the index is untouched, and (with every key naming a cached chat) no main-list answer
    includes the fetched chat.
   */
  lemma FetchedChatCachedNotListed(s: State, c: Chat, limit: int)
    requires Sorted(s.mainChatList) && Tracked(s) && KeyedById(s)
    requires LookupChat(s, true, c.id) == FetchChat(c.id)
    ensures var r := OnGetChat(s, GetChatFound(c));
      && r.result == Success(ConvertToDto(c))
      && LookupChat(r.state, true, c.id) == CachedChat(ConvertToDto(c))
      && r.state.mainChatList == s.mainChatList
      && var step := MainChatListStep(r.state, limit);
         step.ChatListResult? ==> forall x :: x in step.chats ==> x.id != c.id
  {
    var r := OnGetChat(s, GetChatFound(c));
    var keys := s.mainChatList[..TopCount(limit, |s.mainChatList|)];
    forall k | k in keys ensures k.chatId != c.id {
      assert k in s.mainChatList;
    }
    ResolveOnlyKeyed(r.state.chats, keys, c.id);
  }

  /** Storing a fetched chat keeps every index key naming a cached chat, and every chat under its own id. */
  lemma FetchKeepsTracked(s: State, response: GetChatResponse)
    requires Tracked(s) && KeyedById(s)
    ensures Tracked(OnGetChat(s, response).state) && KeyedById(OnGetChat(s, response).state)
  {
  }

  /** Storing a fetched chat that is new and has no main-list position keeps the index consistent. */
  lemma FetchKeepsConsistent(s: State, c: Chat)
    requires Consistent(s) && c.id !in s.chats
    requires forall p :: p in c.positions ==> !p.list.ChatListMain?
    ensures Consistent(OnGetChat(s, GetChatFound(c)).state)
  {
    var r := OnGetChat(s, GetChatFound(c)).state;
    assert MainKeys(c.id, c.positions) == {};
    assert KeysOf(c.id, Keys(r)) == {} by {
      forall k | k in Keys(r) ensures k.chatId != c.id {
        assert k in s.mainChatList;
      }
    }
  }

  /**
    A fetched chat is stored with the positions TDLib sent but gets no index keys, so a new
    chat fetched with a main-list position leaves the index out of step with it.
   */
  lemma FetchWithMainPositionUnindexed(s: State, c: Chat, p: ChatPosition)
    requires Consistent(s) && c.id !in s.chats
    requires p in c.positions && p.list.ChatListMain?
    ensures !Consistent(OnGetChat(s, GetChatFound(c)).state)
  {
    var r := OnGetChat(s, GetChatFound(c)).state;
    assert OrderedChat(c.id, p.order) in MainKeys(c.id, c.positions);
    assert OrderedChat(c.id, p.order) !in s.mainChatList;
    assert OrderedChat(c.id, p.order) !in KeysOf(c.id, Keys(r));
    assert r.chats[c.id] == c;
  }
}
