/**
 * The ranking of `leaderboard` (main.py:323-327): the guild's level records
 * sorted by `(level, xp)` with `reverse=True` (Python's sort is stable, and
 * stays stable when reversed), then the first ten. A record missing its
 * 'level' or 'xp' key counts as 0 there.
 */
module Leaderboard {
  import opened Wrappers

  /** One `(user_id, data)` pair of the guild's dict, with the two keys the sort reads. */
  datatype Item = Item(user: string, level: Option<int>, xp: Option<int>)

  /** The sort key `(data.get('level', 0), data.get('xp', 0))`. */
  function Key(it: Item): (int, int) {
    (it.level.GetOr(0), it.xp.GetOr(0))
  }

  /** Python's tuple comparison `a >= b`. */
  predicate KeyAtLeast(a: (int, int), b: (int, int)) {
    a.0 > b.0 || (a.0 == b.0 && a.1 >= b.1)
  }

  predicate SortedDesc(s: seq<Item>) {
    forall i, j :: 0 <= i < j < |s| ==> KeyAtLeast(Key(s[i]), Key(s[j]))
  }

  /** The items whose key is `k`, in their order in `s`. */
  function WithKey(s: seq<Item>, k: (int, int)): seq<Item> {
    if s == [] then [] else (if Key(s[0]) == k then [s[0]] else []) + WithKey(s[1..], k)
  }

  lemma {:induction false} WithKeyConcat(a: seq<Item>, b: seq<Item>, k: (int, int))
    ensures WithKey(a + b, k) == WithKey(a, k) + WithKey(b, k)
  {
    if a == [] {
      assert a + b == b;
    } else {
      assert (a + b)[1..] == a[1..] + b;
      WithKeyConcat(a[1..], b, k);
    }
  }

  lemma {:induction false} WithKeyNone(s: seq<Item>, k: (int, int))
    requires forall i :: 0 <= i < |s| ==> Key(s[i]) != k
    ensures WithKey(s, k) == []
  {
    if s != [] {
      WithKeyNone(s[1..], k);
    }
  }

  /** Puts `x` after every item of `s` that ranks at least as high, so earlier equal items stay first. */
  function Insert(x: Item, s: seq<Item>): (r: seq<Item>)
    ensures |r| == |s| + 1
  {
    if s == [] then [x]
    else if KeyAtLeast(Key(s[0]), Key(x)) then [s[0]] + Insert(x, s[1..])
    else [x] + s
  }

  /** Whatever ranks at or above `x` and every item of `s` ranks at or above every item of `Insert(x, s)`. */
  lemma {:induction false} InsertBounded(a: (int, int), x: Item, s: seq<Item>)
    requires KeyAtLeast(a, Key(x))
    requires forall i :: 0 <= i < |s| ==> KeyAtLeast(a, Key(s[i]))
    ensures forall j :: 0 <= j < |Insert(x, s)| ==> KeyAtLeast(a, Key(Insert(x, s)[j]))
  {
    if s != [] && KeyAtLeast(Key(s[0]), Key(x)) {
      InsertBounded(a, x, s[1..]);
      assert Insert(x, s) == [s[0]] + Insert(x, s[1..]);
    }
  }

  lemma {:induction false} InsertSorted(x: Item, s: seq<Item>)
    requires SortedDesc(s)
    ensures SortedDesc(Insert(x, s))
  {
    if s != [] && KeyAtLeast(Key(s[0]), Key(x)) {
      InsertSorted(x, s[1..]);
      InsertBounded(Key(s[0]), x, s[1..]);
      var r := Insert(x, s[1..]);
      assert Insert(x, s) == [s[0]] + r;
    }
  }

  lemma {:induction false} InsertPermutes(x: Item, s: seq<Item>)
    ensures multiset(Insert(x, s)) == multiset(s) + multiset{x}
  {
    if s != [] {
      assert s == [s[0]] + s[1..];
      if KeyAtLeast(Key(s[0]), Key(x)) {
        InsertPermutes(x, s[1..]);
      }
    }
  }

  lemma {:induction false} InsertStable(x: Item, s: seq<Item>, k: (int, int))
    requires SortedDesc(s)
    ensures WithKey(Insert(x, s), k) == WithKey(s, k) + (if Key(x) == k then [x] else [])
  {
    if s == [] {
      assert WithKey([x], k) == (if Key(x) == k then [x] else []) + WithKey([], k);
    } else if KeyAtLeast(Key(s[0]), Key(x)) {
      InsertStable(x, s[1..], k);
      assert ([s[0]] + Insert(x, s[1..]))[1..] == Insert(x, s[1..]);
    } else {
      assert ([x] + s)[1..] == s;
      if Key(x) == k {
        RanksBelow(x, s);
        WithKeyNone(s, k);
      }
    }
  }

  /** An item ranking strictly above the head of a descending sequence has a key nobody in it has. */
  lemma RanksBelow(x: Item, s: seq<Item>)
    requires SortedDesc(s) && s != [] && !KeyAtLeast(Key(s[0]), Key(x))
    ensures forall i :: 0 <= i < |s| ==> Key(s[i]) != Key(x)
  {
    forall i | 0 <= i < |s|
      ensures Key(s[i]) != Key(x)
    {
      assert KeyAtLeast(Key(s[0]), Key(s[i])) || i == 0;
    }
  }

  /** `sorted(items, key=Key, reverse=True)`, as an insertion sort. */
  function SortDesc(items: seq<Item>): (r: seq<Item>)
    ensures |r| == |items|
  {
    if items == [] then [] else Insert(items[|items| - 1], SortDesc(items[..|items| - 1]))
  }

  /** One step of the insertion sort keeps every key's items in their original order. */
  lemma SortDescStableStep(pre: seq<Item>, last: Item, k: (int, int))
    requires SortedDesc(SortDesc(pre))
    requires WithKey(SortDesc(pre), k) == WithKey(pre, k)
    ensures WithKey(SortDesc(pre + [last]), k) == WithKey(pre + [last], k)
  {
    assert (pre + [last])[..|pre|] == pre;
    InsertStable(last, SortDesc(pre), k);
    WithKeyConcat(pre, [last], k);
    assert WithKey([last], k) == (if Key(last) == k then [last] else []) + WithKey([], k);
  }

  /**
   * The sort orders the items from the highest (level, xp) down, loses and
   * adds nothing, and keeps items of equal key in their original order.
   */
  lemma {:induction false} SortDescSpec(items: seq<Item>)
    ensures SortedDesc(SortDesc(items))
    ensures multiset(SortDesc(items)) == multiset(items)
    ensures forall k :: WithKey(SortDesc(items), k) == WithKey(items, k)
  {
    if items != [] {
      var pre, last := items[..|items| - 1], items[|items| - 1];
      SortDescSpec(pre);
      InsertSorted(last, SortDesc(pre));
      InsertPermutes(last, SortDesc(pre));
      assert items == pre + [last];
      forall k
        ensures WithKey(SortDesc(items), k) == WithKey(items, k)
      {
        SortDescStableStep(pre, last, k);
      }
    }
  }

  /** How many users the ranking shows. */
  const ShownUsers: nat := 10

  /** The reply of `leaderboard`: a notice for a guild with no records, else the ranked rows. */
  datatype Reply = NobodyRanked | Ranking(rows: seq<Item>)

  function LeaderboardReply(items: seq<Item>): Reply {
    if items == [] then NobodyRanked
    else
      var sorted := SortDesc(items);
      Ranking(sorted[..if |sorted| < ShownUsers then |sorted| else ShownUsers])
  }

  /**
   * The ranking shows at most ten users, all taken from the guild's records,
   * highest (level, xp) first, and they are the first rows of the complete
   * stable ranking, so nobody left out ranks above anybody shown.
   */
  lemma LeaderboardSpec(items: seq<Item>)
    ensures LeaderboardReply(items) == NobodyRanked <==> items == []
    ensures LeaderboardReply(items).Ranking? ==>
              var rows := LeaderboardReply(items).rows;
              && |rows| == (if |items| < ShownUsers then |items| else ShownUsers)
              && SortedDesc(rows)
              && multiset(rows) <= multiset(items)
              && rows == SortDesc(items)[..|rows|]
              && forall i, j :: 0 <= i < |rows| <= j < |items| ==> KeyAtLeast(Key(rows[i]), Key(SortDesc(items)[j]))
  {
    SortDescSpec(items);
    if items != [] {
      var sorted := SortDesc(items);
      TopRows(sorted, if |sorted| < ShownUsers then |sorted| else ShownUsers);
    }
  }

  /** The first `m` rows of a descending ranking are sorted, drawn from it, and rank above the rest. */
  lemma TopRows(sorted: seq<Item>, m: nat)
    requires SortedDesc(sorted) && m <= |sorted|
    ensures SortedDesc(sorted[..m])
    ensures multiset(sorted[..m]) <= multiset(sorted)
    ensures forall i, j :: 0 <= i < m <= j < |sorted| ==> KeyAtLeast(Key(sorted[..m][i]), Key(sorted[j]))
  {
    assert sorted == sorted[..m] + sorted[m..];
  }
}
