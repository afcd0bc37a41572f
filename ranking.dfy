/**
 * Counting and ranking over sequences, as the two components use Python's
 * `sum(1 for ...)`, `set`, `collections.Counter`/`defaultdict(int)` and the
 * stable `sorted(..., key=..., reverse=True)[:n]`.
 */
module Ranking {

  /** The number of elements of `s` for which `p` holds: `sum(1 for x in s if p(x))`. */
  function Count<T>(s: seq<T>, p: T -> bool): (n: nat)
    ensures n <= |s|
  {
    if |s| == 0 then 0 else Count(s[..|s| - 1], p) + (if p(s[|s| - 1]) then 1 else 0)
  }

  /** `[x for x in s if p(x)]` */
  function Filter<T>(s: seq<T>, p: T -> bool): (r: seq<T>)
    ensures |r| == Count(s, p)
    ensures forall k :: 0 <= k < |r| ==> p(r[k])
  {
    if |s| == 0 then [] else Filter(s[..|s| - 1], p) + (if p(s[|s| - 1]) then [s[|s| - 1]] else [])
  }

  /** `Filter` keeps exactly the elements that satisfy `p`. */
  lemma {:induction false} FilterMembers<T>(s: seq<T>, p: T -> bool)
    ensures forall x :: x in Filter(s, p) <==> x in s && p(x)
  {
    if |s| > 0 {
      FilterMembers(s[..|s| - 1], p);
      assert s == s[..|s| - 1] + [s[|s| - 1]];
    }
  }

  /** Something is kept exactly when some element satisfies `p` (Python's `any`). */
  lemma {:induction false} FilterNonEmpty<T>(s: seq<T>, p: T -> bool)
    ensures |Filter(s, p)| > 0 <==> exists k | 0 <= k < |s| :: p(s[k])
  {
    if |s| > 0 {
      FilterNonEmpty(s[..|s| - 1], p);
      if p(s[|s| - 1]) {
        assert |Filter(s, p)| > 0;
      } else {
        assert Filter(s, p) == Filter(s[..|s| - 1], p);
        assert forall k | 0 <= k < |s| - 1 :: s[..|s| - 1][k] == s[k];
      }
    }
  }

  /** Filtering a sequence without duplicates leaves none. */
  lemma {:induction false} FilterNoDuplicates<T>(s: seq<T>, p: T -> bool)
    requires NoDuplicates(s)
    ensures NoDuplicates(Filter(s, p))
  {
    if |s| > 0 {
      var init := s[..|s| - 1];
      assert NoDuplicates(init) by {
        forall i, j | 0 <= i < j < |init| ensures init[i] != init[j] {
          assert init[i] == s[i] && init[j] == s[j];
        }
      }
      FilterNoDuplicates(init, p);
      FilterMembers(init, p);
      assert s[|s| - 1] !in init;
    }
  }

  /** Counting `q` among the elements that satisfy `p` counts the elements that satisfy both, and never exceeds the number that satisfy `p`. */
  lemma {:induction false} CountWithin<T>(s: seq<T>, p: T -> bool, q: T -> bool, both: T -> bool)
    requires forall k :: 0 <= k < |s| ==> both(s[k]) == (p(s[k]) && q(s[k]))
    ensures Count(Filter(s, p), q) <= Count(s, p)
    ensures Count(Filter(s, p), q) == Count(s, both)
  {
    if |s| > 0 {
      var f := Filter(s[..|s| - 1], p);
      CountWithin(s[..|s| - 1], p, q, both);
      if p(s[|s| - 1]) {
        assert Filter(s, p)[..|Filter(s, p)| - 1] == f;
      } else {
        assert Filter(s, p) == f;
      }
    }
  }

  /** Every element satisfies exactly one of two complementary conditions. */
  lemma {:induction false} CountComplement<T>(s: seq<T>, p: T -> bool, q: T -> bool)
    requires forall k :: 0 <= k < |s| ==> q(s[k]) == !p(s[k])
    ensures Count(s, p) + Count(s, q) == |s|
  {
    if |s| > 0 {
      CountComplement(s[..|s| - 1], p, q);
    }
  }

  /** Every element falls in exactly one of three exhaustive, mutually exclusive classes. */
  lemma {:induction false} CountPartition3<T>(s: seq<T>, p: T -> bool, q: T -> bool, r: T -> bool)
    requires forall k :: 0 <= k < |s| ==> (p(s[k]) || q(s[k]) || r(s[k]))
    requires forall k :: 0 <= k < |s| ==> !(p(s[k]) && q(s[k])) && !(p(s[k]) && r(s[k])) && !(q(s[k]) && r(s[k]))
    ensures Count(s, p) + Count(s, q) + Count(s, r) == |s|
  {
    if |s| > 0 {
      CountPartition3(s[..|s| - 1], p, q, r);
    }
  }

  // ---- de-duplication

  predicate NoDuplicates<T(==)>(s: seq<T>)
  {
    forall i, j :: 0 <= i < j < |s| ==> s[i] != s[j]
  }

  /** The distinct elements of `s`, each at its first occurrence. */
  function Dedup<T(==)>(s: seq<T>): (r: seq<T>)
    ensures |r| <= |s|
  {
    if |s| == 0 then []
    else
      var p := Dedup(s[..|s| - 1]);
      if s[|s| - 1] in p then p else p + [s[|s| - 1]]
  }

  /** `Dedup` keeps every distinct element exactly once and adds nothing. */
  lemma {:induction false} DedupSpec<T>(s: seq<T>)
    ensures NoDuplicates(Dedup(s))
    ensures forall x :: x in Dedup(s) <==> x in s
  {
    if |s| > 0 {
      DedupSpec(s[..|s| - 1]);
      assert forall x :: x in s <==> x in s[..|s| - 1] || x == s[|s| - 1];
    }
  }

  /** A duplicate-free sequence has as many elements as the set of its elements. */
  lemma {:induction false} DistinctCard<T>(s: seq<T>)
    requires NoDuplicates(s)
    ensures |set x | x in s| == |s|
  {
    if |s| > 0 {
      var init := s[..|s| - 1];
      DistinctCard(init);
      assert (set x | x in s) == (set x | x in init) + {s[|s| - 1]};
      assert s[|s| - 1] !in init;
    }
  }

  // ---- usage tallies (collections.Counter / defaultdict(int) with insertion order)

  /** A tally: (name, count) pairs, one per name, in the order names were first seen. */
  type Tally = seq<(string, nat)>

  function TallyNames(t: Tally): seq<string>
  {
    seq(|t|, k requires 0 <= k < |t| => t[k].0)
  }

  /** `counter[name] += 1` */
  function Bump(t: Tally, name: string): (r: Tally)
  {
    if |t| == 0 then [(name, 1)]
    else if t[0].0 == name then [(name, t[0].1 + 1)] + t[1..]
    else [t[0]] + Bump(t[1..], name)
  }

  /** Bumping a name adds it at the end exactly when it is new. */
  lemma {:induction false} BumpNames(t: Tally, name: string)
    ensures TallyNames(Bump(t, name)) == if name in TallyNames(t) then TallyNames(t) else TallyNames(t) + [name]
  {
    if |t| > 0 {
      assert TallyNames(t) == [t[0].0] + TallyNames(t[1..]);
      if t[0].0 != name {
        BumpNames(t[1..], name);
        assert TallyNames(Bump(t, name)) == [t[0].0] + TallyNames(Bump(t[1..], name));
      } else {
        assert TallyNames(Bump(t, name)) == TallyNames(t);
      }
    }
  }

  /** Bumping a name raises its own count by one and no other. */
  lemma {:induction false} BumpCounts(t: Tally, name: string)
    requires NoDuplicates(TallyNames(t))
    ensures forall k :: 0 <= k < |Bump(t, name)| ==>
      Bump(t, name)[k].1 == (if k < |t| then t[k].1 else 0) + (if Bump(t, name)[k].0 == name then 1 else 0)
  {
    if |t| > 0 && t[0].0 != name {
      var r, rest := Bump(t, name), Bump(t[1..], name);
      assert TallyNames(t[1..]) == TallyNames(t)[1..];
      BumpCounts(t[1..], name);
      forall k | 0 < k < |r|
        ensures r[k].1 == (if k < |t| then t[k].1 else 0) + (if r[k].0 == name then 1 else 0)
      {
        assert r[k] == rest[k - 1];
      }
    } else if |t| > 0 {
      forall k | 0 < k < |t| ensures t[k].0 != name {
        assert TallyNames(t)[k] != TallyNames(t)[0];
      }
    }
  }

  /** `Counter(names)`: how often each name occurs, names in first-occurrence order. */
  function Tallied(names: seq<string>): Tally
  {
    if |names| == 0 then [] else Bump(Tallied(names[..|names| - 1]), names[|names| - 1])
  }

  /** A usage tally ranked by its count. */
  function UsageKey(entry: (string, nat)): real
  {
    entry.1 as real
  }

  /** The tally lists each distinct name once, in first-occurrence order. */
  lemma {:induction false} TalliedNames(names: seq<string>)
    ensures TallyNames(Tallied(names)) == Dedup(names)
  {
    if |names| > 0 {
      TalliedNames(names[..|names| - 1]);
      BumpNames(Tallied(names[..|names| - 1]), names[|names| - 1]);
    }
  }

  /** The tally lists each distinct name once, in first-occurrence order, with its number of occurrences. */
  lemma {:induction false} TalliedSpec(names: seq<string>)
    ensures TallyNames(Tallied(names)) == Dedup(names)
    ensures forall k :: 0 <= k < |Tallied(names)| ==>
      Tallied(names)[k].1 == multiset(names)[Tallied(names)[k].0]
  {
    TalliedNames(names);
    if |names| > 0 {
      var init, last := names[..|names| - 1], names[|names| - 1];
      TalliedSpec(init);
      var t := Tallied(init);
      DedupSpec(init);
      BumpNames(t, last);
      BumpCounts(t, last);
      assert names == init + [last];
      assert multiset(names) == multiset(init) + multiset{last};
      assert last in Dedup(init) <==> last in init;
      var r := Bump(t, last);
      forall k | 0 <= k < |r|
        ensures r[k].1 == multiset(names)[r[k].0]
      {
        assert r[k].0 == TallyNames(r)[k];
        if k < |t| {
          assert r[k].0 == TallyNames(t)[k] == t[k].0;
        } else {
          assert r[k].0 == last && last !in init;
        }
      }
    }
  }

  // ---- stable ranking

  predicate NonIncreasing<T>(s: seq<T>, key: T -> real)
  {
    forall i, j :: 0 <= i < j < |s| ==> key(s[i]) >= key(s[j])
  }

  /** Places `x` before the first element whose key is not larger than its own. */
  function Insert<T>(x: T, s: seq<T>, key: T -> real): seq<T>
  {
    if |s| == 0 || key(s[0]) <= key(x) then [x] + s else [s[0]] + Insert(x, s[1..], key)
  }

  /** `sorted(s, key=key, reverse=True)`: descending by key, equal keys in input order. */
  function SortDesc<T>(s: seq<T>, key: T -> real): seq<T>
  {
    if |s| == 0 then [] else Insert(s[0], SortDesc(s[1..], key), key)
  }

  /** The elements of `s` whose key is `k`, in order. */
  function TieClass<T>(s: seq<T>, key: T -> real, k: real): seq<T>
  {
    if |s| == 0 then [] else (if key(s[0]) == k then [s[0]] else []) + TieClass(s[1..], key, k)
  }

  /** Every key of `Insert(x, s)` is bounded by a bound on `x` and on every key of `s`. */
  lemma {:induction false} InsertBound<T>(x: T, s: seq<T>, key: T -> real, b: real)
    requires key(x) <= b
    requires forall k :: 0 <= k < |s| ==> key(s[k]) <= b
    ensures forall k :: 0 <= k < |Insert(x, s, key)| ==> key(Insert(x, s, key)[k]) <= b
  {
    if |s| > 0 && key(s[0]) > key(x) {
      InsertBound(x, s[1..], key, b);
    }
  }

  lemma {:induction false} InsertSpec<T>(x: T, s: seq<T>, key: T -> real)
    requires NonIncreasing(s, key)
    ensures NonIncreasing(Insert(x, s, key), key)
    ensures multiset(Insert(x, s, key)) == multiset{x} + multiset(s)
  {
    if |s| > 0 && key(s[0]) > key(x) {
      InsertSpec(x, s[1..], key);
      InsertBound(x, s[1..], key, key(s[0]));
      assert s == [s[0]] + s[1..];
    }
  }

  lemma {:induction false} InsertTies<T>(x: T, s: seq<T>, key: T -> real, k: real)
    ensures TieClass(Insert(x, s, key), key, k) == (if key(x) == k then [x] else []) + TieClass(s, key, k)
  {
    if |s| > 0 && key(s[0]) > key(x) {
      InsertTies(x, s[1..], key, k);
    }
  }

  /** The first `n` elements of `s` (Python's `s[:n]`). */
  function Take<T>(s: seq<T>, n: nat): (r: seq<T>)
    ensures |r| == if |s| <= n then |s| else n
    ensures r == s[..|r|]
  {
    if |s| <= n then s else s[..n]
  }

  /** The tie class of a concatenation is the concatenation of the tie classes. */
  lemma {:induction false} TieClassAppend<T>(a: seq<T>, b: seq<T>, key: T -> real, k: real)
    ensures TieClass(a + b, key, k) == TieClass(a, key, k) + TieClass(b, key, k)
  {
    if |a| == 0 {
      assert a + b == b;
    } else {
      assert (a + b)[1..] == a[1..] + b;
      TieClassAppend(a[1..], b, key, k);
    }
  }

  /** Sorting is a permutation into non-increasing key order. */
  lemma {:induction false} SortDescSpec<T>(s: seq<T>, key: T -> real)
    ensures NonIncreasing(SortDesc(s, key), key)
    ensures multiset(SortDesc(s, key)) == multiset(s)
  {
    if |s| > 0 {
      SortDescSpec(s[1..], key);
      InsertSpec(s[0], SortDesc(s[1..], key), key);
      assert s == [s[0]] + s[1..];
    }
  }

  /** Sorting is stable: the elements sharing a key keep their relative input order. */
  lemma {:induction false} SortDescStable<T>(s: seq<T>, key: T -> real, k: real)
    ensures TieClass(SortDesc(s, key), key, k) == TieClass(s, key, k)
  {
    if |s| > 0 {
      SortDescStable(s[1..], key, k);
      InsertTies(s[0], SortDesc(s[1..], key), key, k);
    }
  }

  /** A prefix of a non-increasing permutation of `t` is non-increasing and drawn from `t`. */
  lemma PrefixOfRanking<T>(s: seq<T>, t: seq<T>, n: nat, key: T -> real)
    requires NonIncreasing(s, key) && multiset(s) == multiset(t)
    ensures NonIncreasing(Take(s, n), key)
    ensures multiset(Take(s, n)) <= multiset(t)
    ensures forall k :: 0 <= k < |Take(s, n)| ==> Take(s, n)[k] in t
    ensures |Take(s, n)| <= |t|
  {
    var r := Take(s, n);
    assert |s| == |multiset(s)| == |multiset(t)| == |t|;
    assert s == r + s[|r|..];
    assert multiset(s) == multiset(r) + multiset(s[|r|..]);
    forall k | 0 <= k < |r| ensures r[k] in t {
      assert r[k] in multiset(r);
      assert r[k] in multiset(t);
    }
  }

  /** `sorted(s, key=key, reverse=True)[:n]` */
  function TopN<T>(s: seq<T>, key: T -> real, n: nat): (r: seq<T>)
    ensures |r| == if |s| <= n then |s| else n
    ensures NonIncreasing(r, key)
    ensures multiset(r) <= multiset(s)
    ensures forall k :: 0 <= k < |r| ==> r[k] in s
  {
    SortDescSpec(s, key);
    PrefixOfRanking(SortDesc(s, key), s, n, key);
    Take(SortDesc(s, key), n)
  }

  /** No element left out of the top `n` has a larger key than an element kept. */
  lemma TopNKeepsLargest<T>(s: seq<T>, key: T -> real, n: nat)
    ensures var r := TopN(s, key, n);
      forall x, k | x in multiset(s) - multiset(r) && 0 <= k < |r| :: key(x) <= key(r[k])
  {
    var t := SortDesc(s, key);
    SortDescSpec(s, key);
    var r := TopN(s, key, n);
    var rest := t[|r|..];
    assert t == r + rest;
    assert multiset(s) - multiset(r) == multiset(rest);
    forall x, k | x in multiset(s) - multiset(r) && 0 <= k < |r|
      ensures key(x) <= key(r[k])
    {
      var j :| 0 <= j < |rest| && rest[j] == x;
      assert t[|r| + j] == x && t[k] == r[k];
    }
  }

  /** Among the elements sharing a key, those kept in the top `n` are the first ones in input order. */
  lemma TopNTies<T>(s: seq<T>, key: T -> real, n: nat, c: real)
    ensures TieClass(TopN(s, key, n), key, c) <= TieClass(s, key, c)
  {
    var t := SortDesc(s, key);
    var r := TopN(s, key, n);
    assert t == r + t[|r|..];
    SortDescStable(s, key, c);
    TieClassAppend(r, t[|r|..], key, c);
  }

  /**
   * `sorted(s, key=key, reverse=True)[:n]` keeps `min(n, len(s))` elements of
   * `s`, in non-increasing key order; no element left out has a larger key
   * than one kept; and among the elements that share a key, those kept are
   * the first ones in input order.
   */
  lemma TopNSpec<T>(s: seq<T>, key: T -> real, n: nat)
    ensures var r := TopN(s, key, n);
      && |r| == (if |s| <= n then |s| else n)
      && NonIncreasing(r, key)
      && multiset(r) <= multiset(s)
      && (forall x, k | x in multiset(s) - multiset(r) && 0 <= k < |r| :: key(x) <= key(r[k]))
      && (forall c :: TieClass(r, key, c) <= TieClass(s, key, c))
  {
    TopNKeepsLargest(s, key, n);
    forall c
      ensures TieClass(TopN(s, key, n), key, c) <= TieClass(s, key, c)
    {
      TopNTies(s, key, n, c);
    }
  }
}
