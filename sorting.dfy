/** Stable sorting of a list of records by one integer key, ascending or
    descending. This is what `[...xs].sort((a, b) => (key(a) - key(b)) * m)`
    computes in JavaScript (the ECMAScript sort is stable), and what a
    `Sort.by(direction, property)` on the challenge repository asks of it. */
module Sorting {
  import opened Lists

  datatype Direction = Asc | Desc

  /** `x` may stand before `y` in a list ordered in direction `dir`. */
  predicate InOrder(x: int, y: int, dir: Direction) {
    if dir == Asc then x <= y else y <= x
  }

  /** Every earlier element is in order with every later one. */
  ghost predicate SortedBy<T>(s: seq<T>, key: T -> int, dir: Direction) {
    forall i, j :: 0 <= i < j < |s| ==> InOrder(key(s[i]), key(s[j]), dir)
  }

  /** Puts `x` in front of the first element it may precede. Since `x` comes
      from earlier in the input than everything in `s`, it goes before the
      elements whose key equals its own, which is what keeps the sort stable. */
  function Insert<T>(x: T, s: seq<T>, key: T -> int, dir: Direction): (r: seq<T>)
    ensures |r| == |s| + 1
  {
    if s == [] then [x]
    else if InOrder(key(x), key(s[0]), dir) then [x] + s
    else [s[0]] + Insert(x, s[1..], key, dir)
  }

  /** The stable sort of `s` by `key` in direction `dir`. */
  function SortBy<T>(s: seq<T>, key: T -> int, dir: Direction): (r: seq<T>)
    ensures |r| == |s|
  {
    if s == [] then [] else Insert(s[0], SortBy(s[1..], key, dir), key, dir)
  }

  lemma {:induction false} InsertPermutes<T>(x: T, s: seq<T>, key: T -> int, dir: Direction)
    ensures multiset(Insert(x, s, key, dir)) == multiset(s) + multiset{x}
  {
    if s != [] && !InOrder(key(x), key(s[0]), dir) {
      InsertPermutes(x, s[1..], key, dir);
      assert s == [s[0]] + s[1..];
    }
  }

  lemma {:induction false} InsertSorted<T>(x: T, s: seq<T>, key: T -> int, dir: Direction)
    requires SortedBy(s, key, dir)
    ensures SortedBy(Insert(x, s, key, dir), key, dir)
  {
    if s != [] && !InOrder(key(x), key(s[0]), dir) {
      var rest := Insert(x, s[1..], key, dir);
      InsertSorted(x, s[1..], key, dir);
      InsertPermutes(x, s[1..], key, dir);
      forall j | 0 <= j < |rest|
        ensures InOrder(key(s[0]), key(rest[j]), dir)
      {
        assert rest[j] in multiset(rest);
        assert rest[j] == x || rest[j] in multiset(s[1..]);
        if rest[j] != x {
          var k :| 0 <= k < |s[1..]| && s[1..][k] == rest[j];
          assert s[k + 1] == rest[j];
        }
      }
    }
  }

  lemma {:induction false} SortByPermutes<T>(s: seq<T>, key: T -> int, dir: Direction)
    ensures multiset(SortBy(s, key, dir)) == multiset(s)
  {
    if s != [] {
      SortByPermutes(s[1..], key, dir);
      InsertPermutes(s[0], SortBy(s[1..], key, dir), key, dir);
      assert s == [s[0]] + s[1..];
    }
  }

  lemma {:induction false} SortBySorted<T>(s: seq<T>, key: T -> int, dir: Direction)
    ensures SortedBy(SortBy(s, key, dir), key, dir)
  {
    if s != [] {
      SortBySorted(s[1..], key, dir);
      InsertSorted(s[0], SortBy(s[1..], key, dir), key, dir);
    }
  }

  /** The elements whose key is `k`. */
  function HasKey<T>(key: T -> int, k: int): T -> bool {
    (x: T) => key(x) == k
  }

  /** Inserting `x` puts it ahead of every element with the same key. */
  lemma {:induction false} InsertKeepsTies<T>(x: T, s: seq<T>, key: T -> int, dir: Direction, k: int)
    ensures Filter(Insert(x, s, key, dir), HasKey(key, k)) == Filter([x], HasKey(key, k)) + Filter(s, HasKey(key, k))
  {
    var p := HasKey(key, k);
    FilterAppend([x], s, p);
    if s != [] && !InOrder(key(x), key(s[0]), dir) {
      InsertKeepsTies(x, s[1..], key, dir, k);
      FilterAppend([s[0]], Insert(x, s[1..], key, dir), p);
      FilterAppend([s[0]], s[1..], p);
      assert [s[0]] + s[1..] == s;
      assert key(s[0]) != key(x);
    }
  }

  /** Stability: the elements with any one key come out in their input
      order. */
  lemma {:induction false} SortByStable<T>(s: seq<T>, key: T -> int, dir: Direction, k: int)
    ensures Filter(SortBy(s, key, dir), HasKey(key, k)) == Filter(s, HasKey(key, k))
  {
    if s != [] {
      SortByStable(s[1..], key, dir, k);
      InsertKeepsTies(s[0], SortBy(s[1..], key, dir), key, dir, k);
      FilterAppend([s[0]], s[1..], HasKey(key, k));
      assert [s[0]] + s[1..] == s;
    }
  }

  /** A comparator under which every pair compares equal (a constant key)
      leaves the list as it is. */
  lemma SortByConstantKeyKeepsOrder<T>(s: seq<T>, key: T -> int, dir: Direction, k: int)
    requires forall x :: key(x) == k
    ensures SortBy(s, key, dir) == s
  {
    SortByStable(s, key, dir, k);
    SortByPermutes(s, key, dir);
    FilterKeepsAll(s, HasKey(key, k));
    FilterKeepsAll(SortBy(s, key, dir), HasKey(key, k));
  }

  /** The result is ordered by the key in the requested direction and holds
      exactly the input's elements. */
  lemma SortByCorrect<T>(s: seq<T>, key: T -> int, dir: Direction)
    ensures SortedBy(SortBy(s, key, dir), key, dir)
    ensures multiset(SortBy(s, key, dir)) == multiset(s)
    ensures |SortBy(s, key, dir)| == |s|
  {
    SortBySorted(s, key, dir);
    SortByPermutes(s, key, dir);
  }
}
