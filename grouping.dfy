/**
 * The grouping idioms the timeline view and the spreadsheet export share:
 * `[...new Set(items.map(key))]` (distinct keys in first-occurrence order),
 * `items.filter(item => key(item) === k)` per key, and chunking one group
 * into rows of a fixed width.
 */
module Grouping {
  import opened Lists

  /** `items.map(f)`. */
  function Map<T, U>(s: seq<T>, f: T -> U): (r: seq<U>)
    ensures |r| == |s|
    ensures forall i :: 0 <= i < |s| ==> r[i] == f(s[i])
  {
    seq(|s|, i requires 0 <= i < |s| => f(s[i]))
  }

  /** `items.filter(item => key(item) === k)`. */
  function Where<T(!new), K(==)>(s: seq<T>, key: T -> K, k: K): (r: seq<T>)
    ensures |r| <= |s|
    ensures forall x :: x in r <==> x in s && key(x) == k
  {
    if s == [] then []
    else
      assert forall x :: x in s <==> x == s[0] || x in s[1..];
      (if key(s[0]) == k then [s[0]] else []) + Where(s[1..], key, k)
  }

  /** `[...new Set(s)]`: a `Set` iterates in insertion order, so each value appears where it first occurs. */
  function Distinct<T(==,!new)>(s: seq<T>): (r: seq<T>)
    ensures forall x :: x in r <==> x in s
    ensures forall i, j :: 0 <= i < j < |r| ==> r[i] != r[j]
    decreases |s|
  {
    if s == [] then []
    else
      var init := s[..|s| - 1];
      assert forall x :: x in s <==> x in init || x == s[|s| - 1];
      var d := Distinct(init);
      if s[|s| - 1] in d then d else d + [s[|s| - 1]]
  }

  /** The index of the first occurrence of `x` in `s`. */
  function FirstOccurrence<T(==)>(s: seq<T>, x: T): (k: nat)
    ensures k <= |s|
    ensures k < |s| <==> x in s
    ensures k < |s| ==> s[k] == x
    ensures forall j :: 0 <= j < k ==> s[j] != x
  {
    FirstIndex(s, (y: T) => y == x)
  }

  /** The groups of `s` by `key`, one per distinct key in first-occurrence order. */
  function GroupBy<T(!new), K(==,!new)>(s: seq<T>, key: T -> K): (g: seq<seq<T>>)
    ensures |g| == |Distinct(Map(s, key))|
  {
    var ks := Distinct(Map(s, key));
    seq(|ks|, i requires 0 <= i < |ks| => Where(s, key, ks[i]))
  }

  /** The concatenation of a list of lists. */
  function Flatten<T>(ss: seq<seq<T>>): seq<T> {
    if ss == [] then [] else ss[0] + Flatten(ss[1..])
  }

  /** The width of a card row. */
  const RowWidth := 3

  /** `Array.from({ length: ceil(n / 3) }, (_, r) => s.slice(r * 3, r * 3 + 3))`. */
  function Chunks<T>(s: seq<T>): (rows: seq<seq<T>>)
    ensures |rows| == (|s| + 2) / 3
  {
    var n := (|s| + 2) / 3;
    seq(n, r requires 0 <= r < n => s[3 * r .. if 3 * r + 3 <= |s| then 3 * r + 3 else |s|])
  }

  // ---------------------------------------------------------------------------
  // Distinct keeps first-occurrence order

  lemma IndexOfPrefix<T>(s: seq<T>, x: T, y: T)
    requires x in s
    ensures FirstOccurrence(s + [y], x) == FirstOccurrence(s, x)
  {
    var k := FirstOccurrence(s, x);
    assert (s + [y])[k] == x;
    var k' := FirstOccurrence(s + [y], x);
    assert k' <= k;
    assert s[k'] == (s + [y])[k'];
  }

  /** Values come out of `Distinct` in the order of their first occurrence in the input. */
  lemma {:induction false} DistinctFirstOccurrenceOrder<T(!new)>(s: seq<T>)
    ensures forall i, j :: 0 <= i < j < |Distinct(s)| ==> FirstOccurrence(s, Distinct(s)[i]) < FirstOccurrence(s, Distinct(s)[j])
    decreases |s|
  {
    if s != [] {
      var init, last := s[..|s| - 1], s[|s| - 1];
      assert s == init + [last];
      DistinctFirstOccurrenceOrder(init);
      var d := Distinct(init);
      forall x | x in d
        ensures FirstOccurrence(s, x) == FirstOccurrence(init, x)
      {
        IndexOfPrefix(init, x, last);
      }
      if last !in d {
        assert FirstOccurrence(s, last) == |init|;
      }
    }
  }

  // ---------------------------------------------------------------------------
  // GroupBy partitions its input

  /** How often `y` occurs in the groups, counted group by group. */
  function CountIn<T(==)>(gs: seq<seq<T>>, y: T): nat {
    if gs == [] then 0 else multiset(gs[0])[y] + CountIn(gs[1..], y)
  }

  lemma {:induction false} FlattenCount<T>(gs: seq<seq<T>>, y: T)
    ensures multiset(Flatten(gs))[y] == CountIn(gs, y)
  {
    if gs != [] {
      FlattenCount(gs[1..], y);
    }
  }

  /** `filter` keeps the input order: filtering a concatenation filters each part in turn. */
  lemma {:induction false} WhereConcat<T(!new), K>(a: seq<T>, b: seq<T>, key: T -> K, k: K)
    ensures Where(a + b, key, k) == Where(a, key, k) + Where(b, key, k)
  {
    if a == [] {
      assert a + b == b;
    } else {
      var head, ra, rb := if key(a[0]) == k then [a[0]] else [], Where(a[1..], key, k), Where(b, key, k);
      assert (a + b)[0] == a[0] && (a + b)[1..] == a[1..] + b;
      WhereConcat(a[1..], b, key, k);
      assert head + (ra + rb) == (head + ra) + rb;
    }
  }

  /** A single item is kept exactly when its key matches. */
  lemma WhereSingle<T(!new), K>(x: T, key: T -> K, k: K)
    ensures Where([x], key, k) == if key(x) == k then [x] else []
  {
    assert [x][1..] == [];
  }

  /** Filtering keeps each item as often as it occurs when its key matches, and drops it otherwise. */
  lemma {:induction false} WhereCount<T(!new), K>(s: seq<T>, key: T -> K, k: K, y: T)
    ensures multiset(Where(s, key, k))[y] == if key(y) == k then multiset(s)[y] else 0
  {
    if s != [] {
      WhereCount(s[1..], key, k, y);
      assert s == [s[0]] + s[1..];
    }
  }

  /** An item of a list without repeats occurs in it once. */
  lemma {:induction false} UniqueCountOne<T>(s: seq<T>, i: nat)
    requires i < |s| && forall a, b :: 0 <= a < b < |s| ==> s[a] != s[b]
    ensures multiset(s)[s[i]] == 1
  {
    assert s == [s[0]] + s[1..];
    assert multiset(s) == multiset([s[0]]) + multiset(s[1..]);
    if i == 0 {
      assert forall b :: 0 <= b < |s[1..]| ==> s[1..][b] != s[0];
      assert s[0] !in s[1..];
    } else {
      assert s[1..][i - 1] == s[i];
      UniqueCountOne(s[1..], i - 1);
    }
  }

  /** Counting `y` across the groups of distinct keys `ks` finds it only in the group of its own key. */
  lemma {:induction false} CountInGroups<T(!new), K>(s: seq<T>, key: T -> K, ks: seq<K>, y: T)
    requires forall i, j :: 0 <= i < j < |ks| ==> ks[i] != ks[j]
    ensures CountIn(seq(|ks|, i requires 0 <= i < |ks| => Where(s, key, ks[i])), y)
            == if key(y) in ks then multiset(s)[y] else 0
  {
    var gs := seq(|ks|, i requires 0 <= i < |ks| => Where(s, key, ks[i]));
    if ks != [] {
      var rest := ks[1..];
      var gs' := seq(|rest|, i requires 0 <= i < |rest| => Where(s, key, rest[i]));
      assert gs[1..] == gs';
      CountInGroups(s, key, rest, y);
      WhereCount(s, key, ks[0], y);
      assert key(y) in ks <==> key(y) == ks[0] || key(y) in rest;
      if key(y) == ks[0] {
        assert key(y) !in rest;
      }
    }
  }

  /** The groups together hold exactly the input items, each as often as it occurs. */
  lemma GroupByPartition<T(!new), K(!new)>(s: seq<T>, key: T -> K)
    ensures multiset(Flatten(GroupBy(s, key))) == multiset(s)
    ensures |Flatten(GroupBy(s, key))| == |s|
  {
    var ks := Distinct(Map(s, key));
    forall y
      ensures multiset(Flatten(GroupBy(s, key)))[y] == multiset(s)[y]
    {
      FlattenCount(GroupBy(s, key), y);
      CountInGroups(s, key, ks, y);
      if y in s {
        var i :| 0 <= i < |s| && s[i] == y;
        assert Map(s, key)[i] == key(y);
      }
    }
    assert multiset(Flatten(GroupBy(s, key))) == multiset(s);
    assert |multiset(Flatten(GroupBy(s, key)))| == |multiset(s)|;
  }

  /** Each group is non-empty, its members all carry its key, and no two groups share a key. */
  lemma GroupByGroups<T(!new), K(!new)>(s: seq<T>, key: T -> K)
    ensures var ks, g := Distinct(Map(s, key)), GroupBy(s, key);
      forall i :: 0 <= i < |g| ==>
        |g[i]| > 0 && (forall x :: x in g[i] <==> x in s && key(x) == ks[i])
  {
    var ks, g := Distinct(Map(s, key)), GroupBy(s, key);
    forall i | 0 <= i < |g|
      ensures |g[i]| > 0
    {
      assert ks[i] in Map(s, key);
      var j :| 0 <= j < |s| && Map(s, key)[j] == ks[i];
      assert s[j] in g[i];
    }
  }

  // ---------------------------------------------------------------------------
  // Chunks cut a sequence into rows

  /** Past the first row, the rows are those of the rest. */
  lemma ChunksUnfold<T>(s: seq<T>)
    requires |s| > 0
    ensures var n := if RowWidth <= |s| then RowWidth else |s|;
      Chunks(s) == [s[..n]] + Chunks(s[n..])
  {
    var n := if RowWidth <= |s| then RowWidth else |s|;
    var rows, rest := Chunks(s), Chunks(s[n..]);
    forall r | 0 <= r < |rest|
      ensures rows[r + 1] == rest[r]
    {
    }
    assert rows == [s[..n]] + rest;
  }

  /**
   * The rows of a group: `ceil(n / 3)` rows, each holding one to three
   * items, every row but the last full, and read in order, they are the
   * group.
   */
  lemma {:induction false} ChunksShape<T>(s: seq<T>)
    ensures forall r :: 0 <= r < |Chunks(s)| ==> 0 < |Chunks(s)[r]| <= RowWidth
    ensures forall r :: 0 <= r < |Chunks(s)| - 1 ==> |Chunks(s)[r]| == RowWidth
    ensures Flatten(Chunks(s)) == s
    decreases |s|
  {
    if |s| > 0 {
      var n := if RowWidth <= |s| then RowWidth else |s|;
      ChunksUnfold(s);
      ChunksShape(s[n..]);
      assert s == s[..n] + s[n..];
    }
  }

  // ---------------------------------------------------------------------------
  // Facts about Flatten, Distinct and Where used by the export

  /** Flattening one more list appends it. */
  lemma {:induction false} FlattenSnoc<T>(ss: seq<seq<T>>, x: seq<T>)
    ensures Flatten(ss + [x]) == Flatten(ss) + x
  {
    if ss != [] {
      assert (ss + [x])[1..] == ss[1..] + [x];
      FlattenSnoc(ss[1..], x);
    }
  }

  /** Flattening one more list of a prefix appends that list. */
  lemma FlattenPrefix<T>(ss: seq<seq<T>>, i: int)
    requires 0 <= i < |ss|
    ensures Flatten(ss[..i + 1]) == Flatten(ss[..i]) + ss[i]
  {
    assert ss[..i + 1] == ss[..i] + [ss[i]];
    FlattenSnoc(ss[..i], ss[i]);
  }

  /** Lists that hold the same items group by group flatten to lists that hold the same items. */
  lemma {:induction false} FlattenMultisetPointwise<T>(xs: seq<seq<T>>, ys: seq<seq<T>>)
    requires |xs| == |ys|
    requires forall i :: 0 <= i < |xs| ==> multiset(xs[i]) == multiset(ys[i])
    ensures multiset(Flatten(xs)) == multiset(Flatten(ys))
  {
    if xs != [] {
      FlattenMultisetPointwise(xs[1..], ys[1..]);
    }
  }

  /** An item of the flattened list is an item of one of the lists. */
  lemma {:induction false} FlattenContains<T>(ss: seq<seq<T>>, x: T)
    ensures x in Flatten(ss) <==> exists i :: 0 <= i < |ss| && x in ss[i]
  {
    if ss != [] {
      FlattenContains(ss[1..], x);
      if x in Flatten(ss[1..]) {
        var i :| 0 <= i < |ss[1..]| && x in ss[1..][i];
        assert x in ss[i + 1];
      }
      if exists i :: 0 <= i < |ss| && x in ss[i] {
        var i :| 0 <= i < |ss| && x in ss[i];
        if i > 0 {
          assert x in ss[1..][i - 1];
        }
      }
    }
  }

  /** The first distinct value is the first value. */
  lemma DistinctHead<T(!new)>(s: seq<T>)
    requires s != []
    ensures Distinct(s) != [] && Distinct(s)[0] == s[0]
  {
    DistinctFirstOccurrenceOrder(s);
    var d := Distinct(s);
    assert s[0] in d;
    var p :| 0 <= p < |d| && d[p] == s[0];
    assert FirstOccurrence(s, d[p]) == 0;
    // every later value of `d` first occurs after `d[0]` does, so after index 0
    assert forall j :: 0 < j < |d| ==> FirstOccurrence(s, d[0]) < FirstOccurrence(s, d[j]);
    assert forall j :: 0 < j < |d| ==> FirstOccurrence(s, d[j]) > 0;
    assert p == 0;
  }

  /** Filtering on the key of the first item keeps that item first. */
  lemma WhereHead<T(!new), K>(s: seq<T>, key: T -> K)
    requires s != []
    ensures Where(s, key, key(s[0])) != [] && Where(s, key, key(s[0]))[0] == s[0]
  {
  }
}
