/** Order-preserving list shaping: filtering, first-wins deduplication
    on a key, and grouping into an insertion-ordered dict. */
module Grouping {

  /** `xs` is `ys` with some elements left out, the rest in order. */
  predicate IsSubsequence<T(==)>(xs: seq<T>, ys: seq<T>)
    decreases |ys|
  {
    |xs| == 0
    || (|ys| > 0
        && ((xs[0] == ys[0] && IsSubsequence(xs[1..], ys[1..])) || IsSubsequence(xs, ys[1..])))
  }

  lemma {:induction false} SubsequenceOfItself<T>(xs: seq<T>)
    ensures IsSubsequence(xs, xs)
    decreases |xs|
  {
    if |xs| > 0 {
      SubsequenceOfItself(xs[1..]);
    }
  }

  /** Appending to the longer list, or to both, keeps a subsequence. */
  lemma {:induction false} SubsequenceAppend<T>(xs: seq<T>, ys: seq<T>, y: T)
    requires IsSubsequence(xs, ys)
    ensures IsSubsequence(xs, ys + [y]) && IsSubsequence(xs + [y], ys + [y])
    decreases |ys|
  {
    var zs := ys + [y];
    if |ys| == 0 {
      assert zs[1..] == [];
      assert (xs + [y])[1..] == [];
    } else {
      assert zs[1..] == ys[1..] + [y];
      if |xs| == 0 {
        assert xs + [y] == [y];
        LastIsSubsequence(ys, y);
      } else {
        assert (xs + [y])[0] == xs[0] && (xs + [y])[1..] == xs[1..] + [y];
        if xs[0] == ys[0] && IsSubsequence(xs[1..], ys[1..]) {
          SubsequenceAppend(xs[1..], ys[1..], y);
        } else {
          SubsequenceAppend(xs, ys[1..], y);
        }
      }
    }
  }

  /** A subsequence of the tail stays one with or without the head. */
  lemma SubsequenceCons<T>(xs: seq<T>, ys: seq<T>)
    requires |ys| > 0 && IsSubsequence(xs, ys[1..])
    ensures IsSubsequence(xs, ys) && IsSubsequence([ys[0]] + xs, ys)
  {
    assert ([ys[0]] + xs)[1..] == xs;
  }

  /** What is in the tail is in the whole. */
  lemma TailMembers<T>(ys: seq<T>)
    requires |ys| > 0
    ensures forall i :: 1 <= i < |ys| ==> ys[i] in ys[1..]
  {
    forall i | 1 <= i < |ys| ensures ys[i] in ys[1..] {
      assert ys[1..][i - 1] == ys[i];
    }
  }

  lemma {:induction false} LastIsSubsequence<T>(ys: seq<T>, y: T)
    ensures IsSubsequence([y], ys + [y])
    decreases |ys|
  {
    var zs := ys + [y];
    if |ys| == 0 {
      assert zs[1..] == [];
    } else {
      assert zs[1..] == ys[1..] + [y];
      LastIsSubsequence(ys[1..], y);
    }
  }

  /** Every element of a subsequence occurs in the longer list. */
  lemma {:induction false} SubsequenceMembers<T>(xs: seq<T>, ys: seq<T>)
    requires IsSubsequence(xs, ys)
    ensures forall x :: x in xs ==> x in ys
    decreases |ys|
  {
    if |xs| > 0 {
      if xs[0] == ys[0] && IsSubsequence(xs[1..], ys[1..]) {
        SubsequenceMembers(xs[1..], ys[1..]);
        assert xs == [xs[0]] + xs[1..];
        assert ys == [ys[0]] + ys[1..];
      } else {
        SubsequenceMembers(xs, ys[1..]);
        assert ys == [ys[0]] + ys[1..];
      }
    }
  }

  /** `[x for x in xs if p(x)]`. */
  function Filter<T>(xs: seq<T>, p: T -> bool): (r: seq<T>)
    ensures |r| <= |xs|
    ensures forall i :: 0 <= i < |r| ==> p(r[i])
    decreases |xs|
  {
    if |xs| == 0 then []
    else (if p(xs[0]) then [xs[0]] else []) + Filter(xs[1..], p)
  }

  /** A filter keeps exactly the elements it accepts, in their order. */
  lemma {:induction false} FilterKeeps<T>(xs: seq<T>, p: T -> bool)
    ensures IsSubsequence(Filter(xs, p), xs)
    ensures forall x :: x in xs && p(x) ==> x in Filter(xs, p)
    decreases |xs|
  {
    if |xs| > 0 {
      FilterKeeps(xs[1..], p);
      var rest := Filter(xs[1..], p);
      assert xs == [xs[0]] + xs[1..];
      if p(xs[0]) {
        var r := [xs[0]] + rest;
        assert Filter(xs, p) == r;
        assert r[0] == xs[0] && r[1..] == rest;
        assert IsSubsequence(r, xs);
      } else {
        assert Filter(xs, p) == rest;
        assert |rest| == 0 || IsSubsequence(rest, xs[1..]);
      }
    }
  }

  /** Filtering a list extended by one element. */
  lemma {:induction false} FilterAppend<T>(xs: seq<T>, x: T, p: T -> bool)
    ensures Filter(xs + [x], p) == Filter(xs, p) + (if p(x) then [x] else [])
    decreases |xs|
  {
    if |xs| == 0 {
      assert (xs + [x])[1..] == [];
    } else {
      assert (xs + [x])[0] == xs[0] && (xs + [x])[1..] == xs[1..] + [x];
      FilterAppend(xs[1..], x, p);
    }
  }

  /** Dropping the last element of a concatenation drops it from the
      second part. */
  lemma ConcatInit<T>(a: seq<T>, b: seq<T>)
    requires |b| > 0
    ensures (a + b)[..|a + b| - 1] == a + b[..|b| - 1]
    ensures (a + b)[|a + b| - 1] == b[|b| - 1]
  {
  }

  /** The image of the kept elements of a non-empty list: that of the
      ones before the last, plus the last one's when it is kept. */
  lemma ImageLast<T, U>(xs: seq<T>, p: T -> bool, f: T -> U)
    requires |xs| > 0
    ensures (set i | 0 <= i < |xs| && p(xs[i]) :: f(xs[i]))
      == (set i | 0 <= i < |xs| - 1 && p(xs[i]) :: f(xs[i])) + (if p(xs[|xs| - 1]) then {f(xs[|xs| - 1])} else {})
  {
    var n := |xs| - 1;
    if p(xs[n]) {
      assert f(xs[n]) in (set i | 0 <= i < |xs| && p(xs[i]) :: f(xs[i]));
    }
  }

  /** Filtering a non-empty list: its last element is kept or dropped
      after the rest. */
  lemma FilterLast<T>(xs: seq<T>, p: T -> bool)
    requires |xs| > 0
    ensures Filter(xs, p) == Filter(xs[..|xs| - 1], p) + (if p(xs[|xs| - 1]) then [xs[|xs| - 1]] else [])
  {
    var init, x := xs[..|xs| - 1], xs[|xs| - 1];
    FilterAppend(init, x, p);
    assert init + [x] == xs;
  }

  /** Filtering distributes over concatenation. */
  lemma {:induction false} FilterConcat<T>(xs: seq<T>, ys: seq<T>, p: T -> bool)
    ensures Filter(xs + ys, p) == Filter(xs, p) + Filter(ys, p)
    decreases |xs|
  {
    if |xs| > 0 {
      assert (xs + ys)[0] == xs[0] && (xs + ys)[1..] == xs[1..] + ys;
      FilterConcat(xs[1..], ys, p);
    } else {
      assert xs + ys == ys;
    }
  }

  /** Filtering twice with the same test is filtering once. */
  lemma {:induction false} FilterIdempotent<T>(xs: seq<T>, p: T -> bool)
    ensures Filter(Filter(xs, p), p) == Filter(xs, p)
    decreases |xs|
  {
    if |xs| > 0 {
      FilterIdempotent(xs[1..], p);
      var rest := Filter(xs[1..], p);
      if p(xs[0]) {
        var r := [xs[0]] + rest;
        assert Filter(xs, p) == r;
        assert r[0] == xs[0] && r[1..] == rest;
        assert Filter(r, p) == [xs[0]] + Filter(rest, p);
      } else {
        assert Filter(xs, p) == rest;
      }
    }
  }

  /** Nothing passes a filter no element meets. */
  lemma {:induction false} FilterNone<T>(xs: seq<T>, p: T -> bool)
    requires forall i :: 0 <= i < |xs| ==> !p(xs[i])
    ensures Filter(xs, p) == []
    decreases |xs|
  {
    if |xs| > 0 {
      FilterNone(xs[1..], p);
    }
  }

  /** The test `key(x) == k`. */
  function HasKey<T, K(==)>(key: T -> K, k: K): T -> bool {
    x => key(x) == k
  }

  function KeySet<T, K>(xs: seq<T>, key: T -> K): set<K> {
    set i | 0 <= i < |xs| :: key(xs[i])
  }

  predicate DistinctKeys<T, K(==)>(xs: seq<T>, key: T -> K) {
    forall i, j :: 0 <= i < j < |xs| ==> key(xs[i]) != key(xs[j])
  }

  lemma {:induction false} KeySetCons<T, K>(x: T, xs: seq<T>, key: T -> K)
    ensures KeySet([x] + xs, key) == {key(x)} + KeySet(xs, key)
  {
    var ys := [x] + xs;
    forall j | 0 <= j < |ys| ensures key(ys[j]) in {key(x)} + KeySet(xs, key) {
      if j > 0 {
        assert ys[j] == xs[j - 1];
        assert key(xs[j - 1]) in KeySet(xs, key);
      }
    }
    forall j | 0 <= j < |xs| ensures key(xs[j]) in KeySet(ys, key) {
      assert xs[j] == ys[j + 1];
      assert key(ys[j + 1]) in KeySet(ys, key);
    }
    assert key(ys[0]) in KeySet(ys, key);
  }

  /** The loop `if key not in seen: seen.add(key); out.append(x)` run over
      `xs` from a given `seen` set. */
  function DedupFrom<T, K(==)>(xs: seq<T>, key: T -> K, seen: set<K>): (r: seq<T>)
    ensures DistinctKeys(r, key)
    ensures forall i :: 0 <= i < |r| ==> key(r[i]) !in seen
    ensures KeySet(r, key) == KeySet(xs, key) - seen
    decreases |xs|
  {
    if |xs| == 0 then []
    else
      var k := key(xs[0]);
      assert xs == [xs[0]] + xs[1..];
      KeySetCons(xs[0], xs[1..], key);
      if k in seen then DedupFrom(xs[1..], key, seen)
      else
        var rest := DedupFrom(xs[1..], key, seen + {k});
        var r := [xs[0]] + rest;
        assert forall i :: 1 <= i < |r| ==> r[i] == rest[i - 1];
        KeySetCons(xs[0], rest, key);
        r
  }

  /** `_consolidate_operations`: the first element of each key, in input
      order. */
  function Dedup<T, K(==)>(xs: seq<T>, key: T -> K): (r: seq<T>)
    ensures DistinctKeys(r, key)
    ensures KeySet(r, key) == KeySet(xs, key)
  {
    DedupFrom(xs, key, {})
  }

  /** `y` occurs in `xs` with no element of its key before it. */
  predicate FirstOfKey<T(==), K(==)>(xs: seq<T>, key: T -> K, y: T) {
    exists i :: 0 <= i < |xs| && xs[i] == y && forall m :: 0 <= m < i ==> key(xs[m]) != key(y)
  }

  /** Each kept element is the first of its key; the kept elements are a
      subsequence of the input. */
  lemma {:induction false} DedupFromFirstWins<T, K>(xs: seq<T>, key: T -> K, seen: set<K>)
    ensures IsSubsequence(DedupFrom(xs, key, seen), xs)
    ensures forall j :: 0 <= j < |DedupFrom(xs, key, seen)| ==> FirstOfKey(xs, key, DedupFrom(xs, key, seen)[j])
    decreases |xs|
  {
    if |xs| > 0 {
      var k := key(xs[0]);
      var seen' := if k in seen then seen else seen + {k};
      var ys := xs[1..];
      DedupFromFirstWins(ys, key, seen');
      var rest := DedupFrom(ys, key, seen');
      var r := DedupFrom(xs, key, seen);
      forall j | 0 <= j < |rest| ensures FirstOfKey(xs, key, rest[j]) {
        assert FirstOfKey(ys, key, rest[j]);
        var i :| 0 <= i < |ys| && ys[i] == rest[j] && forall m :: 0 <= m < i ==> key(ys[m]) != key(rest[j]);
        assert key(rest[j]) != k;
        assert xs[i + 1] == rest[j];
        forall m | 0 <= m < i + 1 ensures key(xs[m]) != key(rest[j]) {
          if m > 0 { assert xs[m] == ys[m - 1]; }
        }
      }
      if k !in seen {
        assert r == [xs[0]] + rest;
        assert r[0] == xs[0] && r[1..] == rest;
        assert IsSubsequence(r, xs);
        assert FirstOfKey(xs, key, r[0]);
        forall j | 0 < j < |r| ensures FirstOfKey(xs, key, r[j]) {
          assert r[j] == rest[j - 1];
        }
      } else {
        assert r == rest;
        assert |rest| == 0 || IsSubsequence(rest, ys);
      }
    }
  }

  lemma DedupFirstWins<T, K>(xs: seq<T>, key: T -> K)
    ensures IsSubsequence(Dedup(xs, key), xs)
    ensures forall j :: 0 <= j < |Dedup(xs, key)| ==> FirstOfKey(xs, key, Dedup(xs, key)[j])
  {
    DedupFromFirstWins(xs, key, {});
  }

  /** A list whose keys are already distinct and unseen passes through
      unchanged. */
  lemma {:induction false} DedupFromOfDistinct<T, K>(xs: seq<T>, key: T -> K, seen: set<K>)
    requires DistinctKeys(xs, key)
    requires forall i :: 0 <= i < |xs| ==> key(xs[i]) !in seen
    ensures DedupFrom(xs, key, seen) == xs
    decreases |xs|
  {
    if |xs| > 0 {
      var k := key(xs[0]);
      forall i | 0 <= i < |xs| - 1 ensures key(xs[1..][i]) !in seen + {k} {
        assert xs[1..][i] == xs[i + 1];
      }
      DedupFromOfDistinct(xs[1..], key, seen + {k});
      assert [xs[0]] + xs[1..] == xs;
    }
  }

  /** Consolidating twice is consolidating once. */
  lemma DedupIdempotent<T, K>(xs: seq<T>, key: T -> K)
    ensures Dedup(Dedup(xs, key), key) == Dedup(xs, key)
  {
    DedupFromOfDistinct(Dedup(xs, key), key, {});
  }

  /** Deduplicating a list extended by one element: the element is kept
      exactly when its key is new. */
  lemma {:induction false} DedupFromAppend<T, K>(xs: seq<T>, x: T, key: T -> K, seen: set<K>)
    ensures DedupFrom(xs + [x], key, seen)
            == DedupFrom(xs, key, seen) + (if key(x) in seen + KeySet(xs, key) then [] else [x])
    decreases |xs|
  {
    if |xs| == 0 {
      assert (xs + [x])[1..] == [];
      assert (xs + [x])[0] == x;
    } else {
      var k := key(xs[0]);
      assert (xs + [x])[0] == xs[0] && (xs + [x])[1..] == xs[1..] + [x];
      var seen' := if k in seen then seen else seen + {k};
      DedupFromAppend(xs[1..], x, key, seen');
      assert seen' + KeySet(xs[1..], key) == seen + KeySet(xs, key) by {
        assert KeySet(xs, key) == {k} + KeySet(xs[1..], key) by {
          forall i | 0 <= i < |xs| ensures key(xs[i]) in {k} + KeySet(xs[1..], key) {
            if i > 0 { assert key(xs[i]) == key(xs[1..][i - 1]); }
          }
          forall i | 0 <= i < |xs| - 1 ensures key(xs[1..][i]) in KeySet(xs, key) {
            assert xs[1..][i] == xs[i + 1];
          }
        }
      }
    }
  }

  lemma DedupAppend<T, K>(xs: seq<T>, x: T, key: T -> K)
    ensures Dedup(xs + [x], key) == Dedup(xs, key) + (if key(x) in KeySet(xs, key) then [] else [x])
  {
    DedupFromAppend(xs, x, key, {});
  }

  /** One entry of an insertion-ordered dict of lists. */
  datatype Group<K, T> = Group(key: K, members: seq<T>)

  function Sizes<K, T>(groups: seq<Group<K, T>>): nat {
    if |groups| == 0 then 0 else Sizes(groups[..|groups| - 1]) + |groups[|groups| - 1].members|
  }

  /** `if k not in d: d[k] = []` then `d[k].append(x)`. */
  function Insert<K(==), T>(groups: seq<Group<K, T>>, k: K, x: T): (r: seq<Group<K, T>>)
    decreases |groups|
  {
    if |groups| == 0 then [Group(k, [x])]
    else if groups[0].key == k then [Group(k, groups[0].members + [x])] + groups[1..]
    else [groups[0]] + Insert(groups[1..], k, x)
  }

  /** `_group_by_client` and the advisor grouping: each element appended,
      in input order, to the list under its key. */
  function GroupBy<T, K(==)>(xs: seq<T>, key: T -> K): seq<Group<K, T>>
    decreases |xs|
  {
    if |xs| == 0 then [] else Insert(GroupBy(xs[..|xs| - 1], key), key(xs[|xs| - 1]), xs[|xs| - 1])
  }

  /** The groups are keyed like `firsts`, position by position. */
  predicate KeyedLike<T, K(==)>(groups: seq<Group<K, T>>, firsts: seq<T>, key: T -> K) {
    |groups| == |firsts| && forall i :: 0 <= i < |groups| ==> groups[i].key == key(firsts[i])
  }

  /** Each group holds exactly the elements of `xs` with its key, in
      input order. */
  predicate MembersOf<T(==), K(==)>(groups: seq<Group<K, T>>, xs: seq<T>, key: T -> K) {
    forall i :: 0 <= i < |groups| ==> groups[i].members == Filter(xs, HasKey(key, groups[i].key))
  }

  /** The groups of `xs`: one per key in order of first appearance, each
      holding exactly the elements with that key in input order. */
  predicate GroupsOf<T(==), K(==)>(groups: seq<Group<K, T>>, xs: seq<T>, key: T -> K) {
    KeyedLike(groups, Dedup(xs, key), key) && MembersOf(groups, xs, key)
  }

  /** Every element lands in the group of its key. */
  lemma GroupsOfCover<T, K>(groups: seq<Group<K, T>>, xs: seq<T>, key: T -> K, i: nat)
    requires GroupsOf(groups, xs, key) && i < |xs|
    ensures exists j :: 0 <= j < |groups| && groups[j].key == key(xs[i]) && xs[i] in groups[j].members
  {
    var firsts := Dedup(xs, key);
    assert key(xs[i]) in KeySet(xs, key);
    var m :| 0 <= m < |firsts| && key(firsts[m]) == key(xs[i]);
    FilterKeeps(xs, HasKey(key, groups[m].key));
    assert xs[i] in groups[m].members;
  }

  lemma {:induction false} KeySetAppend<T, K>(xs: seq<T>, x: T, key: T -> K)
    ensures KeySet(xs + [x], key) == KeySet(xs, key) + {key(x)}
  {
    var ys := xs + [x];
    forall j | 0 <= j < |ys| ensures key(ys[j]) in KeySet(xs, key) + {key(x)} {
      if j < |xs| { assert ys[j] == xs[j]; }
    }
    forall j | 0 <= j < |xs| ensures key(xs[j]) in KeySet(ys, key) {
      assert xs[j] == ys[j];
    }
    assert key(ys[|xs|]) in KeySet(ys, key);
  }

  /** A new key opens a last group holding just the new element. */
  lemma {:induction false} GroupStepNew<T, K>(g: seq<Group<K, T>>, init: seq<T>, x: T, key: T -> K)
    requires GroupsOf(g, init, key) && key(x) !in KeySet(init, key)
    ensures GroupsOf(g + [Group(key(x), [x])], init + [x], key)
  {
    var k := key(x);
    var firsts := Dedup(init, key);
    DedupAppend(init, x, key);
    var g' := g + [Group(k, [x])];
    assert KeyedLike(g', firsts + [x], key);
    forall i | 0 <= i < |g'| ensures g'[i].members == Filter(init + [x], HasKey(key, g'[i].key)) {
      FilterAppend(init, x, HasKey(key, g'[i].key));
      if i < |g| {
        assert g[i].key == key(firsts[i]) && key(firsts[i]) in KeySet(firsts, key);
      } else {
        forall m | 0 <= m < |init| ensures !HasKey(key, k)(init[m]) {
          assert key(init[m]) in KeySet(init, key);
        }
        FilterNone(init, HasKey(key, k));
      }
    }
  }

  /** A known key appends to its own group and leaves the others. */
  lemma {:induction false} GroupStepOld<T, K>(g: seq<Group<K, T>>, init: seq<T>, x: T, key: T -> K, j: nat)
    requires GroupsOf(g, init, key) && j < |g| && g[j].key == key(x)
    ensures GroupsOf(g[j := Group(key(x), g[j].members + [x])], init + [x], key)
  {
    var k := key(x);
    var firsts := Dedup(init, key);
    assert key(firsts[j]) in KeySet(firsts, key);
    DedupAppend(init, x, key);
    var g' := g[j := Group(k, g[j].members + [x])];
    forall i | 0 <= i < |g'| ensures g'[i].members == Filter(init + [x], HasKey(key, g'[i].key)) {
      FilterAppend(init, x, HasKey(key, g'[i].key));
      if i != j {
        assert key(firsts[i]) != key(firsts[j]);
      }
    }
  }

  /** A key no group has opens a new last group. */
  lemma {:induction false} InsertNew<K, T>(groups: seq<Group<K, T>>, k: K, x: T)
    requires forall i :: 0 <= i < |groups| ==> groups[i].key != k
    ensures Insert(groups, k, x) == groups + [Group(k, [x])]
    decreases |groups|
  {
    if |groups| > 0 {
      InsertNew(groups[1..], k, x);
      assert [groups[0]] + (groups[1..] + [Group(k, [x])]) == groups + [Group(k, [x])];
    }
  }

  /** A key whose first group is `j` appends to that group only. */
  lemma {:induction false} InsertExisting<K, T>(groups: seq<Group<K, T>>, k: K, x: T, j: nat)
    requires j < |groups| && groups[j].key == k
    requires forall i :: 0 <= i < j ==> groups[i].key != k
    ensures Insert(groups, k, x) == groups[j := Group(k, groups[j].members + [x])]
    decreases j
  {
    if j > 0 {
      var rest := groups[1..];
      assert rest[j - 1] == groups[j];
      InsertExisting(rest, k, x, j - 1);
      assert [groups[0]] + rest[j - 1 := Group(k, groups[j].members + [x])]
             == groups[j := Group(k, groups[j].members + [x])];
    } else {
      assert [Group(k, groups[0].members + [x])] + groups[1..] == groups[0 := Group(k, groups[0].members + [x])];
    }
  }

  /** Grouping meets its reference description. */
  lemma {:induction false} GroupByGroups<T, K>(xs: seq<T>, key: T -> K)
    ensures GroupsOf(GroupBy(xs, key), xs, key)
    decreases |xs|
  {
    if |xs| > 0 {
      var n := |xs| - 1;
      var init, x := xs[..n], xs[n];
      assert xs == init + [x];
      GroupByGroups(init, key);
      var g := GroupBy(init, key);
      var k := key(x);
      var firsts := Dedup(init, key);
      if k in KeySet(init, key) {
        assert k in KeySet(firsts, key);
        var j :| 0 <= j < |firsts| && key(firsts[j]) == k;
        forall i | 0 <= i < j ensures g[i].key != k {
          assert key(firsts[i]) != key(firsts[j]);
        }
        InsertExisting(g, k, x, j);
        GroupStepOld(g, init, x, key, j);
      } else {
        forall i | 0 <= i < |g| ensures g[i].key != k {
          assert key(firsts[i]) in KeySet(firsts, key);
        }
        InsertNew(g, k, x);
        GroupStepNew(g, init, x, key);
      }
    }
  }

  /** Grouping loses and duplicates nothing: the group sizes add up to the
      input length. */
  lemma {:induction false} GroupBySizes<T, K>(xs: seq<T>, key: T -> K)
    ensures Sizes(GroupBy(xs, key)) == |xs|
    decreases |xs|
  {
    if |xs| > 0 {
      var n := |xs| - 1;
      GroupBySizes(xs[..n], key);
      InsertSize(GroupBy(xs[..n], key), key(xs[n]), xs[n]);
    }
  }

  lemma {:induction false} InsertSize<K, T>(groups: seq<Group<K, T>>, k: K, x: T)
    ensures Sizes(Insert(groups, k, x)) == Sizes(groups) + 1
    decreases |groups|
  {
    if |groups| > 0 {
      InsertSize(groups[1..], k, x);
      SizesCons(groups[0], groups[1..]);
      assert [groups[0]] + groups[1..] == groups;
      var r := Insert(groups, k, x);
      if groups[0].key == k {
        SizesCons(Group(k, groups[0].members + [x]), groups[1..]);
      } else {
        SizesCons(groups[0], Insert(groups[1..], k, x));
      }
    }
  }

  lemma {:induction false} SizesCons<K, T>(g: Group<K, T>, groups: seq<Group<K, T>>)
    ensures Sizes([g] + groups) == |g.members| + Sizes(groups)
    decreases |groups|
  {
    if |groups| > 0 {
      var n := |groups| - 1;
      assert ([g] + groups)[..n + 1] == [g] + groups[..n];
      SizesCons(g, groups[..n]);
    }
  }

  /** `_consolidate_operations` as a loop over a `seen` set. */
  method Consolidate<T, K(==)>(xs: seq<T>, key: T -> K) returns (out: seq<T>)
    ensures out == Dedup(xs, key)
  {
    out := [];
    var seen: set<K> := {};
    var i := 0;
    while i < |xs|
      invariant 0 <= i <= |xs|
      invariant seen == KeySet(xs[..i], key)
      invariant out == Dedup(xs[..i], key)
    {
      DedupAppend(xs[..i], xs[i], key);
      assert xs[..i + 1] == xs[..i] + [xs[i]];
      KeySetAppend(xs[..i], xs[i], key);
      if key(xs[i]) !in seen {
        seen := seen + {key(xs[i])};
        out := out + [xs[i]];
      }
      i := i + 1;
    }
    assert xs[..|xs|] == xs;
  }
}
