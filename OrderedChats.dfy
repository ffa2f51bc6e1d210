/**
  The keys of the main-list index and the sorted set that holds them.
  `OrderedChat` is the pair (chat id, order) the service builds from a chat's
  main-list position; the index is a TreeSet ordered by `CompareTo`, modelled
  as a sequence sorted strictly by that order, so that iterating it is reading
  the sequence front to back.
 */
module OrderedChats {

  datatype OrderedChat = OrderedChat(chatId: int, order: int)

  /** The ordering of the index written out: larger order first, then larger chat id first. */
  predicate Precedes(a: OrderedChat, b: OrderedChat) {
    a.order > b.order || (a.order == b.order && a.chatId > b.chatId)
  }

  /** OrderedChat.equals: the same chat id and the same order. */
  predicate Equals(a: OrderedChat, b: OrderedChat): (r: bool)
    ensures r <==> a == b
  {
    a.chatId == b.chatId && a.order == b.order
  }

  /** OrderedChat.compareTo: negative when `a` comes first, positive when `b` does, 0 only for equal keys. */
  function CompareTo(a: OrderedChat, b: OrderedChat): (r: int)
    ensures r == -1 || r == 0 || r == 1
    ensures r < 0 <==> Precedes(a, b)
    ensures r > 0 <==> Precedes(b, a)
    ensures r == 0 <==> Equals(a, b)
  {
    if a.order != b.order then
      (if b.order < a.order then -1 else 1)
    else if a.chatId != b.chatId then
      (if b.chatId < a.chatId then -1 else 1)
    else
      0
  }

  /** `CompareTo` is antisymmetric and transitive, and agrees with `Equals` and with `==`. */
  lemma CompareToIsStrictTotalOrder(a: OrderedChat, b: OrderedChat, c: OrderedChat)
    ensures CompareTo(a, b) == -CompareTo(b, a)
    ensures CompareTo(a, a) == 0
    ensures CompareTo(a, b) < 0 && CompareTo(b, c) < 0 ==> CompareTo(a, c) < 0
    ensures CompareTo(a, b) == 0 <==> a == b
  {
  }

  /** Sorted strictly by the index's order; in particular free of duplicates. */
  ghost predicate Sorted(s: seq<OrderedChat>) {
    forall i, j :: 0 <= i < j < |s| ==> Precedes(s[i], s[j])
  }

  function Elems(s: seq<OrderedChat>): set<OrderedChat> {
    set k | k in s
  }

  /** TreeSet.add: put `k` in its place, or leave the set as it is when `k` is already there. */
  function Insert(s: seq<OrderedChat>, k: OrderedChat): (r: seq<OrderedChat>)
    requires Sorted(s)
    ensures Sorted(r)
    ensures Elems(r) == Elems(s) + {k}
    ensures |r| == if k in s then |s| else |s| + 1
  {
    if s == [] then [k]
    else if s[0] == k then s
    else if Precedes(k, s[0]) then
      assert k !in s by {
        forall j | 0 <= j < |s| ensures s[j] != k {
          if j > 0 { assert Precedes(s[0], s[j]); }
        }
      }
      [k] + s
    else
      var rest := Insert(s[1..], k);
      assert Elems(s) == {s[0]} + Elems(s[1..]);
      assert k in s <==> k in s[1..];
      assert forall x :: x in rest ==> Precedes(s[0], x) by {
        forall x | x in rest ensures Precedes(s[0], x) {
          assert x in Elems(rest);
          if x != k {
            assert x in Elems(s[1..]);
            var j :| 0 <= j < |s[1..]| && s[1..][j] == x;
            assert s[j + 1] == x;
          }
        }
      }
      assert Elems([s[0]] + rest) == {s[0]} + Elems(rest);
      [s[0]] + rest
  }

  /** TreeSet.remove: take `k` out, or leave the set as it is when `k` is not there. */
  function Remove(s: seq<OrderedChat>, k: OrderedChat): (r: seq<OrderedChat>)
    requires Sorted(s)
    ensures Sorted(r)
    ensures Elems(r) == Elems(s) - {k}
    ensures |r| == if k in s then |s| - 1 else |s|
  {
    if s == [] then []
    else if s[0] == k then
      assert k !in s[1..] by {
        forall j | 0 <= j < |s[1..]| ensures s[1..][j] != k {
          assert Precedes(s[0], s[j + 1]);
        }
      }
      assert Elems(s) == {k} + Elems(s[1..]);
      s[1..]
    else
      var rest := Remove(s[1..], k);
      assert Elems(s) == {s[0]} + Elems(s[1..]);
      assert k in s <==> k in s[1..];
      assert forall x :: x in rest ==> Precedes(s[0], x) by {
        forall x | x in rest ensures Precedes(s[0], x) {
          assert x in Elems(rest);
          assert x in Elems(s[1..]);
          var j :| 0 <= j < |s[1..]| && s[1..][j] == x;
          assert s[j + 1] == x;
        }
      }
      assert Elems([s[0]] + rest) == {s[0]} + Elems(rest);
      [s[0]] + rest
  }

  /** A set has exactly one strictly sorted listing: the index is determined by its keys. */
  lemma {:induction false} SortedUnique(a: seq<OrderedChat>, b: seq<OrderedChat>)
    requires Sorted(a) && Sorted(b)
    requires Elems(a) == Elems(b)
    ensures a == b
  {
    assert b != [] ==> b[0] in Elems(b);
    if a == [] {
      assert Elems(a) == {};
    } else {
      assert a[0] in Elems(b);
      assert b != [];
      assert b[0] in Elems(a);
      assert a[0] == b[0];
      assert a[0] !in a[1..] by {
        forall j | 0 <= j < |a[1..]| ensures a[1..][j] != a[0] { assert Precedes(a[0], a[j + 1]); }
      }
      assert b[0] !in b[1..] by {
        forall j | 0 <= j < |b[1..]| ensures b[1..][j] != b[0] { assert Precedes(b[0], b[j + 1]); }
      }
      assert Elems(a) == {a[0]} + Elems(a[1..]);
      assert Elems(b) == {b[0]} + Elems(b[1..]);
      assert Elems(a[1..]) == Elems(b[1..]);
      SortedUnique(a[1..], b[1..]);
    }
  }
}
