/** Sequence operations the controllers use on query results: counting with
    `filter(...).length`, `filter`, `findFirst`, `Array.prototype.sort` with a
    descending numeric comparator, and the `reduce` that tallies keys into an
    object in first-seen order. */
module Seqs {
  import opened Common

  /** `s.filter(p).length` */
  function Count<T>(s: seq<T>, p: T -> bool): (n: nat)
    ensures n <= |s|
  {
    if s == [] then 0 else (if p(s[0]) then 1 else 0) + Count(s[1..], p)
  }

  lemma {:induction false} CountConcat<T>(a: seq<T>, b: seq<T>, p: T -> bool)
    ensures Count(a + b, p) == Count(a, p) + Count(b, p)
  {
    if a == [] {
      assert a + b == b;
    } else {
      assert (a + b)[1..] == a[1..] + b;
      CountConcat(a[1..], b, p);
    }
  }

  /** Counting a weaker condition never gives less. */
  lemma {:induction false} CountMono<T>(s: seq<T>, p: T -> bool, q: T -> bool)
    requires forall i :: 0 <= i < |s| ==> p(s[i]) ==> q(s[i])
    ensures Count(s, p) <= Count(s, q)
  {
    if s != [] {
      CountMono(s[1..], p, q);
    }
  }

  /** Nothing satisfying `p` counts nothing. */
  lemma {:induction false} CountNone<T>(s: seq<T>, p: T -> bool)
    requires forall i :: 0 <= i < |s| ==> !p(s[i])
    ensures Count(s, p) == 0
  {
    if s != [] {
      CountNone(s[1..], p);
    }
  }

  /** Counting `p` and counting its complement add up to the length. */
  lemma {:induction false} CountComplement<T>(s: seq<T>, p: T -> bool, q: T -> bool)
    requires forall i :: 0 <= i < |s| ==> (q(s[i]) <==> !p(s[i]))
    ensures Count(s, p) + Count(s, q) == |s|
  {
    if s != [] {
      CountComplement(s[1..], p, q);
    }
  }

  /** `s.filter(p)` */
  function Filter<T>(s: seq<T>, p: T -> bool): (r: seq<T>)
    ensures |r| == Count(s, p)
    ensures forall i :: 0 <= i < |r| ==> p(r[i])
    ensures forall x :: x in r ==> x in s
    ensures forall x :: x in s && p(x) ==> x in r
  {
    if s == [] then [] else (if p(s[0]) then [s[0]] else []) + Filter(s[1..], p)
  }

  lemma {:induction false} FilterConcat<T>(a: seq<T>, b: seq<T>, p: T -> bool)
    ensures Filter(a + b, p) == Filter(a, p) + Filter(b, p)
  {
    if a == [] {
      assert a + b == b;
    } else {
      assert (a + b)[1..] == a[1..] + b;
      FilterConcat(a[1..], b, p);
    }
  }

  /** Filtering by a stronger condition after a weaker one is filtering by the
      stronger one alone. */
  lemma {:induction false} FilterFilter<T>(s: seq<T>, p: T -> bool, q: T -> bool)
    requires forall i :: 0 <= i < |s| ==> q(s[i]) ==> p(s[i])
    ensures Filter(Filter(s, p), q) == Filter(s, q)
  {
    if s != [] {
      FilterFilter(s[1..], p, q);
      var fs := Filter(s, p);
      if p(s[0]) {
        assert fs == [s[0]] + Filter(s[1..], p);
        assert fs[0] == s[0] && fs[1..] == Filter(s[1..], p);
        assert Filter(fs, q) == (if q(s[0]) then [s[0]] else []) + Filter(fs[1..], q);
      } else {
        assert fs == Filter(s[1..], p);
      }
    }
  }

  /** A filter that keeps nothing. */
  lemma {:induction false} FilterNone<T>(s: seq<T>, p: T -> bool)
    requires forall i :: 0 <= i < |s| ==> !p(s[i])
    ensures Filter(s, p) == []
  {
    if s != [] {
      FilterNone(s[1..], p);
    }
  }

  /** A filter that keeps everything. */
  lemma {:induction false} FilterAll<T>(s: seq<T>, p: T -> bool)
    requires forall i :: 0 <= i < |s| ==> p(s[i])
    ensures Filter(s, p) == s
  {
    if s != [] {
      FilterAll(s[1..], p);
    }
  }

  /** Prisma's `findFirst`: the index of the first element satisfying `p`. */
  function FindFirst<T>(s: seq<T>, p: T -> bool): (r: Option<nat>)
    ensures r.Some? ==> r.value < |s| && p(s[r.value])
    ensures r.Some? ==> forall j :: 0 <= j < r.value ==> !p(s[j])
    ensures r.None? <==> forall j :: 0 <= j < |s| ==> !p(s[j])
  {
    if s == [] then None
    else if p(s[0]) then Some(0)
    else
      var r := FindFirst(s[1..], p);
      if r.Some? then Some(r.value + 1) else None
  }

  /** Appending an element that matches, to a sequence where nothing does,
      makes that element the first match. */
  lemma {:induction false} FindFirstAppend<T>(s: seq<T>, x: T, p: T -> bool)
    requires forall j :: 0 <= j < |s| ==> !p(s[j])
    requires p(x)
    ensures FindFirst(s + [x], p) == Some(|s|)
  {
    assert forall j :: 0 <= j < |s| ==> (s + [x])[j] == s[j];
    assert (s + [x])[|s|] == x;
  }

  /** Keys are non-increasing from left to right. */
  ghost predicate SortedDesc<T>(s: seq<T>, key: T -> int) {
    forall i, j :: 0 <= i < j < |s| ==> key(s[i]) >= key(s[j])
  }

  /** Inserts `x` into `t` in front of the first element whose key is not
      larger than `x`'s, so that among equal keys `x` comes first. */
  function InsertDesc<T>(x: T, t: seq<T>, key: T -> int): (r: seq<T>)
    ensures multiset(r) == multiset(t) + multiset{x}
    ensures |r| == |t| + 1
    ensures r[0] == x || (t != [] && r[0] == t[0])
    ensures SortedDesc(t, key) ==> SortedDesc(r, key)
  {
    if t == [] then [x]
    else if key(x) >= key(t[0]) then
      ConsSorted(x, t, key);
      [x] + t
    else
      var rest := InsertDesc(x, t[1..], key);
      assert t == [t[0]] + t[1..];
      ConsSorted(t[0], rest, key);
      [t[0]] + rest
  }

  /** An element no smaller than the head of a sorted sequence can go in
      front of it. */
  lemma ConsSorted<T>(h: T, s: seq<T>, key: T -> int)
    ensures SortedDesc(s, key) && (s != [] ==> key(h) >= key(s[0])) ==> SortedDesc([h] + s, key)
  {
    if SortedDesc(s, key) && (s != [] ==> key(h) >= key(s[0])) {
      var r := [h] + s;
      forall i, j | 0 <= i < j < |r| ensures key(r[i]) >= key(r[j]) {
        assert r[j] == s[j - 1];
        if i == 0 {
          assert key(s[0]) >= key(s[j - 1]);
        } else {
          assert r[i] == s[i - 1];
        }
      }
    }
  }

  /** `s.sort((a, b) => key(b) - key(a))`: a sort into non-increasing key
      order; `SortDescStable` shows it keeps the order of equal keys, as
      ECMAScript 2019 requires of `sort`. */
  function SortDesc<T>(s: seq<T>, key: T -> int): (r: seq<T>)
    ensures multiset(r) == multiset(s)
    ensures |r| == |s|
    ensures SortedDesc(r, key)
  {
    if s == [] then []
    else
      assert s == [s[0]] + s[1..];
      InsertDesc(s[0], SortDesc(s[1..], key), key)
  }

  /** The elements whose key is `k`. */
  function KeyIs<T>(key: T -> int, k: int): T -> bool {
    (x: T) => key(x) == k
  }

  lemma FilterCons<T>(h: T, t: seq<T>, p: T -> bool)
    ensures Filter([h] + t, p) == (if p(h) then [h] else []) + Filter(t, p)
  {
    assert ([h] + t)[0] == h && ([h] + t)[1..] == t;
  }

  /** Moving `x` behind `h` leaves the filtered sequence alone when the two
      are not both kept. */
  lemma SkipFilter<T>(h: T, x: T, rest: seq<T>, tail: seq<T>, p: T -> bool)
    requires !(p(x) && p(h))
    requires Filter(rest, p) == (if p(x) then [x] else []) + Filter(tail, p)
    ensures Filter([h] + rest, p) == (if p(x) then [x] else []) + Filter([h] + tail, p)
  {
    FilterCons(h, rest, p);
    FilterCons(h, tail, p);
    var f := Filter(tail, p);
    if p(x) {
      assert Filter([h] + rest, p) == [x] + f;
      assert Filter([h] + tail, p) == f;
    } else {
      assert Filter(rest, p) == f;
    }
  }

  /** Inserting `x` puts it in front of every element with the same key. */
  lemma {:induction false} InsertDescStable<T>(x: T, t: seq<T>, key: T -> int, k: int)
    ensures Filter(InsertDesc(x, t, key), KeyIs(key, k)) == (if key(x) == k then [x] else []) + Filter(t, KeyIs(key, k))
  {
    var p := KeyIs(key, k);
    if t == [] {
      assert InsertDesc(x, t, key) == [x] + t;
      FilterCons(x, t, p);
    } else if key(x) >= key(t[0]) {
      assert InsertDesc(x, t, key) == [x] + t;
      FilterCons(x, t, p);
    } else {
      var rest := InsertDesc(x, t[1..], key);
      assert InsertDesc(x, t, key) == [t[0]] + rest;
      InsertDescStable(x, t[1..], key, k);
      SkipFilter(t[0], x, rest, t[1..], p);
      assert t == [t[0]] + t[1..];
    }
  }

  /** The sort is stable: for every key, the elements with that key come out
      in the order they went in. */
  lemma {:induction false} SortDescStable<T>(s: seq<T>, key: T -> int, k: int)
    ensures Filter(SortDesc(s, key), KeyIs(key, k)) == Filter(s, KeyIs(key, k))
  {
    if s != [] {
      SortDescStable(s[1..], key, k);
      InsertDescStable(s[0], SortDesc(s[1..], key), key, k);
    }
  }

  /** One entry of an object used as a counter: `acc[key]`. */
  datatype Entry = Entry(key: string, count: nat)

  /** `acc[k] = (acc[k] || 0) + 1` on an object whose entries are kept in
      insertion order. */
  function Bump(t: seq<Entry>, k: string): (r: seq<Entry>)
    ensures |r| == |t| || |r| == |t| + 1
  {
    if t == [] then [Entry(k, 1)]
    else if t[0].key == k then [Entry(k, t[0].count + 1)] + t[1..]
    else [t[0]] + Bump(t[1..], k)
  }

  /** `keys.reduce((acc, k) => { acc[k] = (acc[k] || 0) + 1; return acc }, {})`,
      as the sequence of the object's entries. */
  function Tally(keys: seq<string>): seq<Entry> {
    if keys == [] then [] else Bump(Tally(keys[..|keys| - 1]), keys[|keys| - 1])
  }

  /** `acc[k] || 0` */
  function CountOf(t: seq<Entry>, k: string): nat {
    if t == [] then 0 else if t[0].key == k then t[0].count else CountOf(t[1..], k)
  }

  function SumCounts(t: seq<Entry>): nat {
    if t == [] then 0 else t[0].count + SumCounts(t[1..])
  }

  ghost predicate DistinctKeys(t: seq<Entry>) {
    forall i, j :: 0 <= i < j < |t| ==> t[i].key != t[j].key
  }

  function Occurrences(keys: seq<string>, k: string): nat {
    Count(keys, x => x == k)
  }

  lemma {:induction false} BumpSum(t: seq<Entry>, k: string)
    ensures SumCounts(Bump(t, k)) == SumCounts(t) + 1
  {
    if t != [] && t[0].key != k {
      BumpSum(t[1..], k);
    }
  }

  lemma {:induction false} BumpCountOf(t: seq<Entry>, k: string, k': string)
    ensures CountOf(Bump(t, k), k') == CountOf(t, k') + (if k' == k then 1 else 0)
  {
    if t != [] && t[0].key != k {
      BumpCountOf(t[1..], k, k');
    }
  }

  lemma {:induction false} BumpEntries(t: seq<Entry>, k: string)
    ensures forall e :: e in Bump(t, k) ==> e.key == k || e in t
    ensures DistinctKeys(t) ==> DistinctKeys(Bump(t, k))
  {
    if t != [] && t[0].key != k {
      BumpEntries(t[1..], k);
      assert Bump(t, k) == [t[0]] + Bump(t[1..], k);
    }
  }

  /** The tally counts every key exactly as often as it occurs, never lists a
      key twice, and its counts add up to the number of keys. */
  lemma {:induction false} TallyCorrect(keys: seq<string>)
    ensures DistinctKeys(Tally(keys))
    ensures SumCounts(Tally(keys)) == |keys|
    ensures forall k :: CountOf(Tally(keys), k) == Occurrences(keys, k)
    ensures forall e :: e in Tally(keys) ==> e.count == Occurrences(keys, e.key) && e.count > 0
  {
    if keys != [] {
      var init, last := keys[..|keys| - 1], keys[|keys| - 1];
      assert keys == init + [last];
      TallyCorrect(init);
      BumpSum(Tally(init), last);
      BumpEntries(Tally(init), last);
      forall k ensures CountOf(Tally(keys), k) == Occurrences(keys, k) {
        BumpCountOf(Tally(init), last, k);
        CountConcat(init, [last], x => x == k);
      }
      forall e | e in Tally(keys) ensures e.count == Occurrences(keys, e.key) && e.count > 0 {
        CountOfEntry(Tally(keys), e);
        CountConcat(init, [last], x => x == e.key);
      }
    }
  }

  /** In a counter without repeated keys, an entry holds the key's count. */
  lemma {:induction false} CountOfEntry(t: seq<Entry>, e: Entry)
    requires DistinctKeys(t) && e in t
    ensures CountOf(t, e.key) == e.count
  {
    if t[0] != e {
      assert e in t[1..];
      assert t[0].key != e.key by {
        var j :| 0 <= j < |t| && t[j] == e;
      }
      CountOfEntry(t[1..], e);
    }
  }

  /** `slice(0, n)`, and `substring(0, n)` on a string: the first `n`
      elements, or all of `s` if shorter. */
  function Take<T>(s: seq<T>, n: nat): (r: seq<T>)
    ensures |r| == if |s| <= n then |s| else n
    ensures r <= s
  {
    if |s| <= n then s else s[..n]
  }

  /** The first `n` of a sequence sorted by descending key stay sorted, and
      nothing left out has a larger key than anything kept. */
  lemma {:induction false} TakeKeepsLargest<T>(s: seq<T>, n: nat, key: T -> int)
    requires SortedDesc(s, key)
    ensures SortedDesc(Take(s, n), key)
    ensures forall e, f :: (e in Take(s, n) && f in s && f !in Take(s, n)) ==> key(f) <= key(e)
  {
    var top := Take(s, n);
    assert SortedDesc(top, key) by {
      forall i, j | 0 <= i < j < |top| ensures key(top[i]) >= key(top[j]) {
        assert top[i] == s[i] && top[j] == s[j];
      }
    }
    forall e, f | e in top && f in s && f !in top ensures key(f) <= key(e) {
      var i :| 0 <= i < |top| && top[i] == e;
      var j :| 0 <= j < |s| && s[j] == f;
      assert j >= |top|;
      assert s[i] == e;
    }
  }
}
