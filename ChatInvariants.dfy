/**
  What the update handling, the list query and the direct lookup keep true of the cache and
  the main-list index, and the properties of the position merge.
 */
module ChatInvariants {
  import opened Wrappers
  import opened TdApi
  import opened OrderedChats
  import opened ChatViews
  import opened ChatState

  /** Every index key names a cached chat. */
  ghost predicate Tracked(s: State) {
    forall k :: k in s.mainChatList ==> k.chatId in s.chats
  }

  /** Every chat is stored under its own id. */
  ghost predicate KeyedById(s: State) {
    forall id :: id in s.chats ==> s.chats[id].id == id
  }

  /** Every update stores chats under their own ids. */
  lemma HandleUpdateKeyedById(s: State, u: Update)
    requires Sorted(s.mainChatList) && KeyedById(s)
    ensures KeyedById(HandleUpdate(s, u))
  {
  }

  /**
    The index and the stored positions agree: the keys of each cached chat are exactly the
    keys of its main-list entries, and no key names a chat the cache does not hold.
   */
  ghost predicate Consistent(s: State) {
    && Sorted(s.mainChatList)
    && KeyedById(s)
    && Tracked(s)
    && forall id :: id in s.chats ==> KeysOf(id, Keys(s)) == MainKeys(id, s.chats[id].positions)
  }

  lemma EmptyIsConsistent()
    ensures Consistent(State(map[], [], false))
  {
  }

  // ---------------------------------------------------------------------------
  // Filtering positions

  lemma {:induction false} MainPositionsAppend(a: seq<ChatPosition>, b: seq<ChatPosition>)
    ensures MainPositions(a + b) == MainPositions(a) + MainPositions(b)
    ensures OtherPositions(a + b) == OtherPositions(a) + OtherPositions(b)
  {
    if a == [] {
      assert a + b == b;
    } else {
      var ab := a + b;
      assert ab[0] == a[0] && ab[1..] == a[1..] + b;
      MainPositionsAppend(a[1..], b);
      var hm := if a[0].list.ChatListMain? then [a[0]] else [];
      var ho := if a[0].list.ChatListMain? then [] else [a[0]];
      assert MainPositions(ab) == hm + (MainPositions(a[1..]) + MainPositions(b));
      assert OtherPositions(ab) == ho + (OtherPositions(a[1..]) + OtherPositions(b));
    }
  }

  lemma {:induction false} NoMainBeforeFirst(ps: seq<ChatPosition>, i: nat)
    requires i <= |ps|
    requires forall j :: 0 <= j < i ==> !ps[j].list.ChatListMain?
    ensures MainPositions(ps[..i]) == []
    ensures OtherPositions(ps[..i]) == ps[..i]
  {
    if i > 0 {
      assert ps[..i][1..] == ps[1..][..i - 1];
      NoMainBeforeFirst(ps[1..], i - 1);
    }
  }

  /** A positions array without main-list entries is exactly its first-main index long. */
  lemma {:induction false} FirstMainIndexAbsent(ps: seq<ChatPosition>)
    ensures FirstMainIndex(ps) == |ps| <==> MainPositions(ps) == []
  {
    if ps != [] {
      FirstMainIndexAbsent(ps[1..]);
    }
  }

  /** Dropping the first main-list entry drops the first of the main-list entries and no other entry. */
  lemma {:induction false} SplitAtMain(ps: seq<ChatPosition>, i: nat)
    requires i < |ps| && ps[i].list.ChatListMain?
    requires forall j :: 0 <= j < i ==> !ps[j].list.ChatListMain?
    ensures MainPositions(ps) == [ps[i]] + MainPositions(ps[..i] + ps[i + 1..])
    ensures OtherPositions(ps) == OtherPositions(ps[..i] + ps[i + 1..])
  {
    var rest := ps[..i] + ps[i + 1..];
    if i == 0 {
      assert rest == ps[1..];
    } else {
      var tail := ps[1..];
      SplitAtMain(tail, i - 1);
      assert tail[i - 1] == ps[i];
      var restTail := tail[..i - 1] + tail[i..];
      assert rest[0] == ps[0] && rest[1..] == restTail;
      assert MainPositions(rest) == MainPositions(restTail);
      assert OtherPositions(rest) == [ps[0]] + OtherPositions(restTail);
    }
  }

  /**
    The position merge of UpdateChatPosition (the incoming position `p` is a main-list one):
    entries for other lists are carried over in order; among the main-list entries only the first
    is dropped, and `p` is put in front of everything exactly when its order is not 0.
   */
  lemma MergeMainPositionShape(ps: seq<ChatPosition>, p: ChatPosition)
    requires p.list.ChatListMain?
    ensures var r := MergeMainPosition(ps, p);
      && OtherPositions(r) == OtherPositions(ps)
      && MainPositions(r) ==
           (if p.order != 0 then [p] else []) +
           (if MainPositions(ps) == [] then [] else MainPositions(ps)[1..])
      && |r| == |ps| + (if p.order != 0 then 1 else 0) - (if MainPositions(ps) != [] then 1 else 0)
      && (p.order != 0 ==> r[0] == p)
  {
    var i := FirstMainIndex(ps);
    FirstMainIndexAbsent(ps);
    var kept := if i < |ps| then ps[..i] + ps[i + 1..] else ps;
    if i < |ps| {
      SplitAtMain(ps, i);
    }
    if p.order != 0 {
      MainPositionsAppend([p], kept);
      assert [p][1..] == [];
    }
  }

  /**
    With at most one main-list entry before the merge there is at most one after it, and the
    incoming position stands first exactly when its order is not 0.
   */
  lemma MergeKeepsOneMain(ps: seq<ChatPosition>, p: ChatPosition)
    requires p.list.ChatListMain? && AtMostOneMain(ps)
    ensures var r := MergeMainPosition(ps, p);
      && AtMostOneMain(r)
      && MainPositions(r) == (if p.order != 0 then [p] else [])
      && (p.order != 0 <==> (|r| > 0 && r[0] == p))
  {
    MergeMainPositionShape(ps, p);
  }

  /** Merging the same position again changes nothing, given at most one main-list entry. */
  lemma MergeIdempotent(ps: seq<ChatPosition>, p: ChatPosition)
    requires p.list.ChatListMain? && AtMostOneMain(ps)
    ensures MergeMainPosition(MergeMainPosition(ps, p), p) == MergeMainPosition(ps, p)
  {
    var r := MergeMainPosition(ps, p);
    MergeKeepsOneMain(ps, p);
    FirstMainIndexAbsent(r);
    if p.order != 0 {
      assert FirstMainIndex(r) == 0;
      assert r[..0] + r[1..] == r[1..];
    }
  }

  // ---------------------------------------------------------------------------
  // setChatPositions and the index

  /**
    When the chat's keys match its positions before setChatPositions, its keys are exactly those
    of the new main-list entries afterwards, and every other chat keeps the keys it had.
   */
  lemma SetChatPositionsKeys(s: State, id: int, ps: seq<ChatPosition>)
    requires id in s.chats && Sorted(s.mainChatList)
    requires KeysOf(id, Keys(s)) == MainKeys(id, s.chats[id].positions)
    ensures var r := SetChatPositions(s, id, ps);
      && KeysOf(id, Keys(r)) == MainKeys(id, ps)
      && forall other :: other != id ==> KeysOf(other, Keys(r)) == KeysOf(other, Keys(s))
  {
    var r := SetChatPositions(s, id, ps);
    var before := MainKeys(id, s.chats[id].positions);
    assert forall k :: k in before ==> k.chatId == id;
    assert forall k :: k in MainKeys(id, ps) ==> k.chatId == id;
    assert KeysOf(id, Keys(r)) == MainKeys(id, ps);
    forall other | other != id
      ensures KeysOf(other, Keys(r)) == KeysOf(other, Keys(s))
    {
    }
  }

  /** setChatPositions keeps the index consistent with the stored positions. */
  lemma SetChatPositionsConsistent(s: State, id: int, ps: seq<ChatPosition>)
    requires id in s.chats && Consistent(s)
    ensures Consistent(SetChatPositions(s, id, ps))
  {
    var r := SetChatPositions(s, id, ps);
    SetChatPositionsKeys(s, id, ps);
    forall k | k in r.mainChatList ensures k.chatId in r.chats {
      assert k in Keys(r);
      if k.chatId != id {
        assert k in KeysOf(k.chatId, Keys(r));
        assert k in KeysOf(k.chatId, Keys(s));
      }
    }
  }

  /** Every update keeps every index key naming a cached chat, whatever order updates arrive in. */
  lemma HandleUpdateTracked(s: State, u: Update)
    requires Sorted(s.mainChatList) && Tracked(s)
    ensures Tracked(HandleUpdate(s, u))
  {
    var r := HandleUpdate(s, u);
    forall k | k in r.mainChatList ensures k.chatId in r.chats {
      assert k in Keys(r);
      match u
      case UpdateNewChat(c) =>
        var s1 := s.(chats := s.chats[c.id := c.(positions := [])]);
        assert Keys(r) == (Keys(s1) - MainKeys(c.id, [])) + MainKeys(c.id, c.positions);
      case UpdateChatTitle(_, _) =>
      case UpdateChatLastMessage(id, m, ps) =>
        if id in s.chats {
          var s1 := s.(chats := s.chats[id := s.chats[id].(lastMessage := m)]);
          assert Keys(r) == (Keys(s1) - MainKeys(id, s1.chats[id].positions)) + MainKeys(id, ps);
        }
      case UpdateChatPosition(id, p) =>
        if p.list.ChatListMain? && id in s.chats {
          var ps := MergeMainPosition(s.chats[id].positions, p);
          assert Keys(r) == (Keys(s) - MainKeys(id, s.chats[id].positions)) + MainKeys(id, ps);
        }
      case OtherUpdate =>
    }
  }

  /**
    Every update keeps the index consistent with the stored positions, provided a new-chat
    update names a chat the cache does not hold yet.
   */
  lemma HandleUpdateConsistent(s: State, u: Update)
    requires Consistent(s)
    requires u.UpdateNewChat? ==> u.chat.id !in s.chats
    ensures Consistent(HandleUpdate(s, u))
  {
    match u
    case UpdateNewChat(c) =>
      var s1 := s.(chats := s.chats[c.id := c.(positions := [])]);
      assert KeysOf(c.id, Keys(s1)) == {} by {
        forall k | k in Keys(s1) ensures k.chatId != c.id {
          assert k in s.mainChatList;
        }
      }
      assert MainKeys(c.id, []) == {};
      SetChatPositionsConsistent(s1, c.id, c.positions);
    case UpdateChatTitle(_, _) =>
    case UpdateChatLastMessage(id, m, ps) =>
      if id in s.chats {
        var s1 := s.(chats := s.chats[id := s.chats[id].(lastMessage := m)]);
        SetChatPositionsConsistent(s1, id, ps);
      }
    case UpdateChatPosition(id, p) =>
      if p.list.ChatListMain? && id in s.chats {
        SetChatPositionsConsistent(s, id, MergeMainPosition(s.chats[id].positions, p));
      }
    case OtherUpdate =>
  }

  /** A stream of updates keeps the index consistent when each new-chat update names an uncached chat. */
  lemma {:induction false} HandleUpdatesConsistent(s: State, us: seq<Update>)
    requires Consistent(s)
    requires forall j :: 0 <= j < |us| && us[j].UpdateNewChat? ==>
      us[j].chat.id !in HandleUpdates(s, us[..j]).chats
    ensures Consistent(HandleUpdates(s, us))
    decreases |us|
  {
    if us != [] {
      assert us[..0] == [];
      HandleUpdateConsistent(s, us[0]);
      var s1 := HandleUpdate(s, us[0]);
      forall j | 0 <= j < |us[1..]| && us[1..][j].UpdateNewChat?
        ensures us[1..][j].chat.id !in HandleUpdates(s1, us[1..][..j]).chats
      {
        assert us[..j + 1][1..] == us[1..][..j];
        assert us[..j + 1][0] == us[0];
      }
      HandleUpdatesConsistent(s1, us[1..]);
    }
  }

  /** A stream of updates keeps every index key naming a cached chat and every chat under its own id. */
  lemma {:induction false} HandleUpdatesTracked(s: State, us: seq<Update>)
    requires Sorted(s.mainChatList) && Tracked(s) && KeyedById(s)
    ensures Tracked(HandleUpdates(s, us)) && KeyedById(HandleUpdates(s, us))
    decreases |us|
  {
    if us != [] {
      HandleUpdateTracked(s, us[0]);
      HandleUpdateKeyedById(s, us[0]);
      HandleUpdatesTracked(HandleUpdate(s, us[0]), us[1..]);
    }
  }

  /**
    The retry chain of getMainChatList, whatever updates arrive before each callback, keeps
    every index key naming a cached chat and every chat under its own id.
   */
  lemma {:induction false} RunMainChatListTracked(s: State, limit: int, backfills: seq<Backfill>)
    requires Sorted(s.mainChatList) && Tracked(s) && KeyedById(s)
    ensures var r := RunMainChatList(s, limit, backfills);
      Tracked(r.state) && KeyedById(r.state)
    decreases |backfills|
  {
    if MainChatListStep(s, limit).LoadChats? && backfills != [] {
      HandleUpdatesTracked(s, backfills[0].updates);
      var o := OnLoadChats(HandleUpdates(s, backfills[0].updates), backfills[0].response);
      if o.reaction.Retry? {
        RunMainChatListTracked(o.state, limit, backfills[1..]);
      }
    }
  }

  /** With a consistent index, a chat with one main-list entry has exactly one key, and it is that entry's. */
  lemma OneKeyPerListedChat(s: State, id: int, p: ChatPosition)
    requires Consistent(s) && id in s.chats
    requires MainPositions(s.chats[id].positions) == [p]
    ensures KeysOf(id, Keys(s)) == {OrderedChat(id, p.order)}
  {
    MainKeysOfMain(id, s.chats[id].positions);
    assert p in MainPositions(s.chats[id].positions);
  }

  /** The keys a positions array gives are those of its main-list entries. */
  lemma {:induction false} MainKeysOfMain(id: int, ps: seq<ChatPosition>)
    ensures MainKeys(id, ps) == set q | q in MainPositions(ps) :: OrderedChat(id, q.order)
  {
    if ps != [] {
      MainKeysOfMain(id, ps[1..]);
      assert ps == [ps[0]] + ps[1..];
      assert MainKeys(id, ps) ==
        (if ps[0].list.ChatListMain? then {OrderedChat(id, ps[0].order)} else {}) + MainKeys(id, ps[1..]);
    }
  }

  // ---------------------------------------------------------------------------
  // Single updates

  /** A position update for a list other than the main one changes nothing. */
  lemma NonMainPositionIgnored(s: State, id: int, p: ChatPosition)
    requires Sorted(s.mainChatList) && !p.list.ChatListMain?
    ensures HandleUpdate(s, UpdateChatPosition(id, p)) == s
  {
  }

  /** Title, last-message and position updates for a chat the cache does not hold change nothing. */
  lemma UnknownChatIgnored(s: State, u: Update)
    requires Sorted(s.mainChatList)
    requires u.UpdateChatTitle? || u.UpdateChatLastMessage? || u.UpdateChatPosition?
    requires u.chatId !in s.chats
    ensures HandleUpdate(s, u) == s
  {
  }

  /** A title update changes that chat's title and nothing else. */
  lemma TitleUpdate(s: State, id: int, title: string)
    requires Sorted(s.mainChatList) && id in s.chats
    ensures var r := HandleUpdate(s, UpdateChatTitle(id, title));
      && r.chats == s.chats[id := s.chats[id].(title := title)]
      && r.mainChatList == s.mainChatList
  {
  }

  /**
    A last-message update replaces the chat's last message and its whole positions array, and
    its keys become those of the new main-list entries.
   */
  lemma LastMessageUpdate(s: State, id: int, m: Option<Message>, ps: seq<ChatPosition>)
    requires Consistent(s) && id in s.chats
    ensures var r := HandleUpdate(s, UpdateChatLastMessage(id, m, ps));
      && r.chats == s.chats[id := s.chats[id].(lastMessage := m, positions := ps)]
      && KeysOf(id, Keys(r)) == MainKeys(id, ps)
      && forall other :: other != id ==> KeysOf(other, Keys(r)) == KeysOf(other, Keys(s))
  {
    var s1 := s.(chats := s.chats[id := s.chats[id].(lastMessage := m)]);
    assert Keys(s1) == Keys(s);
    SetChatPositionsKeys(s1, id, ps);
  }

  /**
    A main-list position update with order 0 takes the chat out of the index but leaves it
    cached, so getChatById still answers from the cache.
   */
  lemma ZeroOrderRemovesFromIndex(s: State, id: int, p: ChatPosition)
    requires Consistent(s) && id in s.chats && AtMostOneMain(s.chats[id].positions)
    requires p.list.ChatListMain? && p.order == 0
    ensures var r := HandleUpdate(s, UpdateChatPosition(id, p));
      && KeysOf(id, Keys(r)) == {}
      && id in r.chats
      && LookupChat(r, true, id).CachedChat?
  {
    var ps := MergeMainPosition(s.chats[id].positions, p);
    MergeKeepsOneMain(s.chats[id].positions, p);
    MainKeysOfMain(id, ps);
    SetChatPositionsKeys(s, id, ps);
  }

  /** A position that states itself again leaves the record as it is. */
  lemma {:induction false} SetSamePositions(s: State, id: int)
    requires id in s.chats && Sorted(s.mainChatList)
    requires MainKeys(id, s.chats[id].positions) <= Keys(s)
    ensures SetChatPositions(s, id, s.chats[id].positions) == s
  {
    var r := SetChatPositions(s, id, s.chats[id].positions);
    assert Keys(r) == Keys(s);
    SortedUnique(r.mainChatList, s.mainChatList);
    assert r.chats == s.chats;
  }

  /**
    Applying the same main-list position update twice in a row gives the same cache and index
    as applying it once.
   */
  lemma PositionUpdateIdempotent(s: State, id: int, p: ChatPosition)
    requires Sorted(s.mainChatList)
    requires id in s.chats ==> AtMostOneMain(s.chats[id].positions)
    ensures var u := UpdateChatPosition(id, p);
      HandleUpdate(HandleUpdate(s, u), u) == HandleUpdate(s, u)
  {
    var u := UpdateChatPosition(id, p);
    if p.list.ChatListMain? && id in s.chats {
      var ps := MergeMainPosition(s.chats[id].positions, p);
      var s1 := HandleUpdate(s, u);
      assert s1 == SetChatPositions(s, id, ps);
      MergeIdempotent(s.chats[id].positions, p);
      assert s1.chats[id].positions == ps;
      assert HandleUpdate(s1, u) == SetChatPositions(s1, id, ps);
      SetSamePositions(s1, id);
    }
  }

  /**
    A second new-chat update for a cached chat leaves the keys of the earlier record in the
    index: after chat 1 arrives at order 100 and again at order 200 both keys are there.
   */
  lemma RepeatedNewChatKeepsStaleKey(c: Chat)
    requires c.positions == [ChatPosition(ChatListMain, 100, false)]
    ensures var s0 := State(map[], [], false);
      var s1 := HandleUpdate(s0, UpdateNewChat(c));
      var c2 := c.(positions := [ChatPosition(ChatListMain, 200, false)]);
      var s2 := HandleUpdate(s1, UpdateNewChat(c2));
      && OrderedChat(c.id, 100) in s2.mainChatList
      && OrderedChat(c.id, 200) in s2.mainChatList
      && !Consistent(s2)
  {
    var s0 := State(map[], [], false);
    var s1 := HandleUpdate(s0, UpdateNewChat(c));
    var c2 := c.(positions := [ChatPosition(ChatListMain, 200, false)]);
    var s2 := HandleUpdate(s1, UpdateNewChat(c2));
    assert MainKeys(c.id, c.positions) == {OrderedChat(c.id, 100)};
    assert MainKeys(c.id, c2.positions) == {OrderedChat(c.id, 200)};
    assert OrderedChat(c.id, 100) in Keys(s2);
    assert OrderedChat(c.id, 100) in KeysOf(c.id, Keys(s2));
  }

  /** setChatPositions indexes a main-list entry of order 0 too. */
  lemma NewChatIndexesZeroOrder(s: State, c: Chat)
    requires Sorted(s.mainChatList)
    requires ChatPosition(ChatListMain, 0, false) in c.positions
    ensures OrderedChat(c.id, 0) in HandleUpdate(s, UpdateNewChat(c)).mainChatList
  {
    var r := HandleUpdate(s, UpdateNewChat(c));
    assert OrderedChat(c.id, 0) in MainKeys(c.id, c.positions);
    assert OrderedChat(c.id, 0) in Keys(r);
  }
}
