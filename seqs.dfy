/** Sequence helpers for the list operations the graph passes use:
    `list.remove`, `list.index`, slot assignment and filtering. */
module Seqs {

  /** The sequence with every occurrence of x dropped. */
  function Without<T(==,!new)>(s: seq<T>, x: T): (r: seq<T>)
    ensures multiset(r)[x] == 0
    ensures forall y :: y != x ==> multiset(r)[y] == multiset(s)[y]
    ensures forall y :: y in r <==> y in s && y != x
    ensures |r| <= |s|
  {
    DropCounts(s, x);
    Drop(s, x)
  }

  /** The filter behind `Without`, kept free of a contract so that
      reasoning about its shape does not carry the counting facts. */
  function Drop<T(==)>(s: seq<T>, x: T): seq<T>
  {
    if s == [] then [] else (if s[0] == x then [] else [s[0]]) + Drop(s[1..], x)
  }

  /** Dropping x removes every copy of x and keeps every other value. */
  lemma {:induction false} DropCounts<T(!new)>(s: seq<T>, x: T)
    ensures multiset(Drop(s, x))[x] == 0
    ensures forall y :: y != x ==> multiset(Drop(s, x))[y] == multiset(s)[y]
    ensures forall y :: y in Drop(s, x) <==> y in s && y != x
    ensures |Drop(s, x)| <= |s|
  {
    if s != [] {
      assert s == [s[0]] + s[1..];
      DropCounts(s[1..], x);
    }
  }

  /** The first index at which x occurs: Python's `list.index`. */
  function IndexOf<T(==,!new)>(s: seq<T>, x: T): (i: nat)
    requires x in s
    ensures i < |s| && s[i] == x
    ensures forall j :: 0 <= j < i ==> s[j] != x
  {
    if s[0] == x then 0 else 1 + IndexOf(s[1..], x)
  }

  /** The sequence with position i removed: Python's `list.pop(i)`. */
  function RemoveAt<T>(s: seq<T>, i: nat): (r: seq<T>)
    requires i < |s|
    ensures |r| == |s| - 1
    ensures multiset(r) == multiset(s) - multiset{s[i]}
    ensures forall j :: 0 <= j < i ==> r[j] == s[j]
    ensures forall j :: i <= j < |r| ==> r[j] == s[j + 1]
  {
    assert s == s[..i] + [s[i]] + s[i + 1..];
    s[..i] + s[i + 1..]
  }

  /** Python's `list.remove(x)`: the first occurrence of x dropped. */
  function RemoveFirst<T(==,!new)>(s: seq<T>, x: T): (r: seq<T>)
    requires x in s
    ensures multiset(r) == multiset(s) - multiset{x}
  {
    RemoveAt(s, IndexOf(s, x))
  }

  /** Every occurrence of x replaced by y. */
  function ReplaceAll<T(==,!new)>(s: seq<T>, x: T, y: T): (r: seq<T>)
    ensures |r| == |s|
    ensures forall i :: 0 <= i < |s| ==> r[i] == if s[i] == x then y else s[i]
  {
    seq(|s|, i requires 0 <= i < |s| => if s[i] == x then y else s[i])
  }

  lemma ReplaceAllConcat<T(!new)>(a: seq<T>, b: seq<T>, x: T, y: T)
    ensures ReplaceAll(a + b, x, y) == ReplaceAll(a, x, y) + ReplaceAll(b, x, y)
  {
  }

  /** Replacing moves the count of x onto y and leaves other counts alone. */
  lemma {:induction false} ReplaceAllCount<T(!new)>(s: seq<T>, x: T, y: T, z: T)
    requires x != y
    ensures multiset(ReplaceAll(s, x, y))[z] ==
      if z == x then 0 else if z == y then multiset(s)[y] + multiset(s)[x] else multiset(s)[z]
  {
    if s != [] {
      ReplaceAllCount(s[1..], x, y, z);
      assert s == [s[0]] + s[1..];
      ReplaceAllConcat([s[0]], s[1..], x, y);
      var h := if s[0] == x then y else s[0];
      assert ReplaceAll([s[0]], x, y) == [h];
      assert multiset(ReplaceAll(s, x, y)) == multiset{h} + multiset(ReplaceAll(s[1..], x, y));
      assert multiset(s) == multiset{s[0]} + multiset(s[1..]);
    }
  }

  lemma ReplaceAllAbsent<T(!new)>(s: seq<T>, x: T, y: T)
    requires x !in s
    ensures ReplaceAll(s, x, y) == s
  {
  }

  /** `cur` is `orig` with k of its occurrences of x replaced by y and
      nothing else touched: the state of a loop that replaces the first
      remaining x once per step. */
  ghost predicate PartlyReplaced<T(!new)>(orig: seq<T>, cur: seq<T>, x: T, y: T, k: nat) {
    && |cur| == |orig|
    && (forall i :: 0 <= i < |orig| ==> if orig[i] == x then cur[i] == x || cur[i] == y else cur[i] == orig[i])
    && multiset(cur)[x] + k == multiset(orig)[x]
  }

  lemma PartlyReplacedStart<T(!new)>(s: seq<T>, x: T, y: T)
    ensures PartlyReplaced(s, s, x, y, 0)
  {
  }

  lemma PartlyReplacedStep<T(!new)>(orig: seq<T>, cur: seq<T>, x: T, y: T, k: nat)
    requires PartlyReplaced(orig, cur, x, y, k) && x != y && x in cur
    ensures PartlyReplaced(orig, cur[IndexOf(cur, x) := y], x, y, k + 1)
  {
    var i := IndexOf(cur, x);
    MultisetOfUpdate(cur, i, y);
  }

  lemma PartlyReplacedDone<T(!new)>(orig: seq<T>, cur: seq<T>, x: T, y: T)
    requires PartlyReplaced(orig, cur, x, y, multiset(orig)[x])
    ensures cur == ReplaceAll(orig, x, y)
  {
    assert multiset(cur)[x] == 0;
    forall i | 0 <= i < |orig| ensures cur[i] == ReplaceAll(orig, x, y)[i] {
      assert cur[i] in multiset(cur) ==> cur[i] != x;
    }
  }

  /** n copies of x. */
  function Repeat<T(!new)>(x: T, n: nat): (r: seq<T>)
    ensures |r| == n
    ensures forall i :: 0 <= i < n ==> r[i] == x
    ensures multiset(r)[x] == n
    ensures forall y :: y != x ==> multiset(r)[y] == 0
  {
    if n == 0 then [] else [x] + Repeat(x, n - 1)
  }

  /** Assigning one slot changes the multiset of elements by exactly that
      element. */
  lemma MultisetOfUpdate<T>(s: seq<T>, i: nat, y: T)
    requires i < |s|
    ensures multiset(s[i := y]) == multiset(s) - multiset{s[i]} + multiset{y}
  {
    assert s == s[..i] + [s[i]] + s[i + 1..];
    assert s[i := y] == s[..i] + [y] + s[i + 1..];
  }

  /** res is lists after the first i steps of a loop that, for each key in
      keys, replaces the first remaining x in that key's list by y. */
  ghost predicate FirstsReplaced<K(!new), T(!new)>(lists: map<K, seq<T>>, res: map<K, seq<T>>,
                                                  x: T, y: T, keys: seq<K>, i: nat)
    requires i <= |keys|
  {
    && res.Keys == lists.Keys
    && (forall k | k in lists && k !in keys[..i] :: res[k] == lists[k])
    && (forall k | k in lists && k in keys[..i] :: PartlyReplaced(lists[k], res[k], x, y, multiset(keys[..i])[k]))
  }

  lemma FirstFound<K(!new), T(!new)>(lists: map<K, seq<T>>, res: map<K, seq<T>>, x: T, y: T, keys: seq<K>, i: nat)
    requires x != y && i < |keys|
    requires forall k | k in keys :: k in lists && multiset(lists[k])[x] == multiset(keys)[k]
    requires FirstsReplaced(lists, res, x, y, keys, i)
    ensures keys[i] in res && x in res[keys[i]]
    ensures PartlyReplaced(lists[keys[i]], res[keys[i]], x, y, multiset(keys[..i])[keys[i]])
  {
    var k := keys[i];
    var before := keys[..i];
    assert multiset(before)[k] < multiset(keys)[k] by {
      assert keys == before + [k] + keys[i + 1..];
    }
    if k !in before {
      PartlyReplacedStart(lists[k], x, y);
    }
    var done: nat := multiset(before)[k];
    var left: nat := multiset(res[k])[x];
    assert left + done == multiset(lists[k])[x];
  }

  lemma FirstsExtendOthers<K(!new), T(!new)>(lists: map<K, seq<T>>, res: map<K, seq<T>>,
                                            x: T, y: T, keys: seq<K>, i: nat, next: seq<T>, k: K)
    requires i < |keys| && keys[i] in lists && k in lists && k != keys[i]
    requires FirstsReplaced(lists, res, x, y, keys, i)
    ensures var res' := res[keys[i] := next];
      && (k !in keys[..i + 1] ==> res'[k] == lists[k])
      && (k in keys[..i + 1] ==> PartlyReplaced(lists[k], res'[k], x, y, multiset(keys[..i + 1])[k]))
  {
    assert keys[..i + 1] == keys[..i] + [keys[i]];
    assert k in keys[..i + 1] <==> k in keys[..i];
    assert multiset(keys[..i + 1])[k] == multiset(keys[..i])[k];
  }

  lemma FirstsExtend<K(!new), T(!new)>(lists: map<K, seq<T>>, res: map<K, seq<T>>,
                                      x: T, y: T, keys: seq<K>, i: nat, next: seq<T>)
    requires i < |keys| && keys[i] in lists
    requires FirstsReplaced(lists, res, x, y, keys, i)
    requires PartlyReplaced(lists[keys[i]], next, x, y, multiset(keys[..i + 1])[keys[i]])
    ensures FirstsReplaced(lists, res[keys[i] := next], x, y, keys, i + 1)
  {
    var res' := res[keys[i] := next];
    assert keys[i] in keys[..i + 1];
    forall k | k in lists && k != keys[i]
      ensures k !in keys[..i + 1] ==> res'[k] == lists[k]
      ensures k in keys[..i + 1] ==> PartlyReplaced(lists[k], res'[k], x, y, multiset(keys[..i + 1])[k])
    {
      FirstsExtendOthers(lists, res, x, y, keys, i, next, k);
    }
  }

  lemma FirstStep<K(!new), T(!new)>(lists: map<K, seq<T>>, res: map<K, seq<T>>, x: T, y: T, keys: seq<K>, i: nat)
    requires x != y && i < |keys|
    requires forall k | k in keys :: k in lists && multiset(lists[k])[x] == multiset(keys)[k]
    requires FirstsReplaced(lists, res, x, y, keys, i)
    ensures keys[i] in res && x in res[keys[i]]
    ensures FirstsReplaced(lists, res[keys[i] := res[keys[i]][IndexOf(res[keys[i]], x) := y]], x, y, keys, i + 1)
  {
    var k := keys[i];
    FirstFound(lists, res, x, y, keys, i);
    var done: nat := multiset(keys[..i])[k];
    PartlyReplacedStep(lists[k], res[k], x, y, done);
    assert keys[..i + 1] == keys[..i] + [k];
    assert multiset(keys[..i + 1])[k] == done + 1;
    FirstsExtend(lists, res, x, y, keys, i, res[k][IndexOf(res[k], x) := y]);
  }

  lemma FirstsDone<K(!new), T(!new)>(lists: map<K, seq<T>>, res: map<K, seq<T>>, x: T, y: T, keys: seq<K>)
    requires forall k | k in keys :: k in lists && multiset(lists[k])[x] == multiset(keys)[k]
    requires FirstsReplaced(lists, res, x, y, keys, |keys|)
    ensures res == map k | k in lists :: if k in keys then ReplaceAll(lists[k], x, y) else lists[k]
  {
    assert keys[..|keys|] == keys;
    forall k | k in lists && k in keys
      ensures res[k] == ReplaceAll(lists[k], x, y)
    {
      PartlyReplacedDone(lists[k], res[k], x, y);
    }
  }

  /** For each key in turn, replace the first remaining x in that key's
      list by y (`lst[lst.index(x)] = y`).  When every list holds x exactly
      as often as its key is visited, no lookup fails and every x is
      replaced. */
  method ReplaceFirstOfEach<K(==,!new), T(==,!new)>(lists: map<K, seq<T>>, x: T, y: T, keys: seq<K>)
    returns (res: map<K, seq<T>>)
    requires x != y || keys == []
    requires forall k | k in keys :: k in lists && multiset(lists[k])[x] == multiset(keys)[k]
    ensures res == map k | k in lists :: if k in keys then ReplaceAll(lists[k], x, y) else lists[k]
  {
    res := lists;
    var i := 0;
    while i < |keys|
      invariant 0 <= i <= |keys|
      invariant FirstsReplaced(lists, res, x, y, keys, i)
    {
      FirstStep(lists, res, x, y, keys, i);
      var k := keys[i];
      var index := IndexOf(res[k], x);
      res := res[k := res[k][index := y]];
      i := i + 1;
    }
    FirstsDone(lists, res, x, y, keys);
  }
  // Iterating over a list while each step removes the element it is
  // looking at (`for x in lst: lst.remove(x)`) visits positions 0, 2, 4, ...
  // of the original list and leaves the odd positions behind.

  predicate Distinct<T(==)>(s: seq<T>) {
    forall i, j | 0 <= i < j < |s| :: s[i] != s[j]
  }

  /** The elements at odd positions. */
  function OddIndexed<T>(s: seq<T>): (r: seq<T>)
    ensures |r| == |s| / 2
    ensures forall j :: 0 <= j < |r| ==> r[j] == s[2 * j + 1]
  {
    seq(|s| / 2, j requires 0 <= j < |s| / 2 => s[2 * j + 1])
  }

  /** The elements at even positions. */
  function EvenIndexed<T>(s: seq<T>): (r: seq<T>)
    ensures |r| == (|s| + 1) / 2
    ensures forall j :: 0 <= j < |r| ==> r[j] == s[2 * j]
  {
    seq((|s| + 1) / 2, j requires 0 <= j < (|s| + 1) / 2 => s[2 * j])
  }

  /** Dropping an absent value leaves the sequence as it was. */
  lemma {:induction false} DropAbsent<T>(s: seq<T>, x: T)
    requires x !in s
    ensures Drop(s, x) == s
  {
    if s != [] {
      assert s == [s[0]] + s[1..];
      DropAbsent(s[1..], x);
    }
  }

  /** Dropping a value the sequence does not hold changes nothing. */
  lemma WithoutAbsent<T(!new)>(s: seq<T>, x: T)
    requires x !in s
    ensures Without(s, x) == s
  {
    DropAbsent(s, x);
  }

  /** Dropping a value held only at position i removes that position. */
  lemma {:induction false} DropOnlyAt<T>(s: seq<T>, i: nat)
    requires i < |s| && s[i] !in s[..i] && s[i] !in s[i + 1..]
    ensures Drop(s, s[i]) == s[..i] + s[i + 1..]
  {
    var x := s[i];
    if i == 0 {
      DropAbsent(s[1..], x);
      assert s[..0] + s[1..] == s[1..];
    } else {
      var t := s[1..];
      assert s[0] == s[..i][0];
      assert t[i - 1] == x;
      assert t[..i - 1] == s[1..i];
      assert s[..i] == [s[0]] + t[..i - 1];
      assert t[i..] == s[i + 1..];
      DropOnlyAt(t, i - 1);
    }
  }

  /** In a sequence without repetitions, dropping an element's occurrences
      is removing its one position. */
  lemma WithoutDistinct<T(!new)>(s: seq<T>, i: nat)
    requires Distinct(s) && i < |s|
    ensures Without(s, s[i]) == s[..i] + s[i + 1..]
  {
    var x := s[i];
    assert x !in s[..i];
    assert x !in s[i + 1..];
    DropOnlyAt(s, i);
  }

  /** A sequence holding each value at most once has no repetitions. */
  lemma DistinctByCounts<T(!new)>(s: seq<T>)
    requires forall x | x in s :: multiset(s)[x] <= 1
    ensures Distinct(s)
  {
    forall i, j | 0 <= i < j < |s| ensures s[i] != s[j] {
      assert s == s[..i] + [s[i]] + s[i + 1..j] + [s[j]] + s[j + 1..];
      assert multiset(s)[s[i]] >= 1 + if s[j] == s[i] then 1 else 0;
    }
  }

  /** How far a removal loop over s has got after k steps, written as the
      prefix of s it has consumed. */
  function Consumed(len: nat, k: nat): nat {
    if 2 * k <= len then 2 * k else len
  }

  /** One step of the removal loop: the element at index k of the current
      list is s[2k], and dropping it consumes two positions of s. */
  lemma RemovalStep<T>(s: seq<T>, k: nat)
    requires 2 * k < |s|
    ensures (OddIndexed(s[..2 * k]) + s[2 * k..])[k] == s[2 * k]
    ensures (OddIndexed(s[..2 * k]) + s[2 * k..])[..k] + (OddIndexed(s[..2 * k]) + s[2 * k..])[k + 1..]
            == OddIndexed(s[..Consumed(|s|, k + 1)]) + s[Consumed(|s|, k + 1)..]
    ensures EvenIndexed(s[..Consumed(|s|, k + 1)]) == EvenIndexed(s[..2 * k]) + [s[2 * k]]
  {
    var cur := OddIndexed(s[..2 * k]) + s[2 * k..];
    var c := Consumed(|s|, k + 1);
    assert cur[..k] == OddIndexed(s[..2 * k]);
    assert cur[k + 1..] == s[2 * k + 1..];
    if 2 * k + 2 <= |s| {
      assert OddIndexed(s[..c]) == OddIndexed(s[..2 * k]) + [s[2 * k + 1]];
      assert s[2 * k + 1..] == [s[2 * k + 1]] + s[c..];
    } else {
      assert OddIndexed(s[..c]) == OddIndexed(s[..2 * k]);
    }
  }
  /** The set of elements of a sequence. */
  function Elements<T>(s: seq<T>): set<T> {
    set x | x in s
  }

  lemma ElementsSnoc<T>(s: seq<T>, x: T)
    ensures Elements(s + [x]) == Elements(s) + {x}
  {
  }

  /** The sequence with every occurrence of the values in e dropped, in
      order: the inputs of an operation after `remove_variable` has run on
      each variable of e. */
  function DropAll<T>(s: seq<T>, e: set<T>): seq<T>
  {
    if s == [] then [] else (if s[0] in e then [] else [s[0]]) + DropAll(s[1..], e)
  }

  /** Dropping nothing keeps the sequence. */
  lemma {:induction false} DropAllNothing<T>(s: seq<T>)
    ensures DropAll(s, {}) == s
  {
    if s != [] {
      DropAllNothing(s[1..]);
      assert s == [s[0]] + s[1..];
    }
  }

  /** Dropping one more value from a filtered sequence is filtering by
      the larger set. */
  lemma {:induction false} DropAllStep<T>(s: seq<T>, e: set<T>, x: T)
    ensures Drop(DropAll(s, e), x) == DropAll(s, e + {x})
  {
    if s != [] {
      DropAllStep(s[1..], e, x);
      var h: seq<T> := if s[0] in e then [] else [s[0]];
      var r := DropAll(s[1..], e);
      assert DropAll(s, e) == h + r;
      if h == [] {
        assert DropAll(s, e) == r;
      } else {
        assert (h + r)[0] == s[0] && (h + r)[1..] == r;
      }
    }
  }

  /** The map without the entries whose value is in e: a name dictionary
      after `remove_variable` has run on each variable of e. */
  function WithoutValues<K(!new), V>(m: map<K, V>, e: set<V>): (r: map<K, V>)
    ensures forall k :: k in r <==> k in m && m[k] !in e
    ensures forall k | k in r :: r[k] == m[k]
  {
    map k | k in m && m[k] !in e :: m[k]
  }

  lemma WithoutNoValues<K(!new), V>(m: map<K, V>)
    ensures WithoutValues(m, {}) == m
  {
  }

  /** Unlinking x from a filtered sequence when it occurs there, as
      `remove_operation` does, is filtering by the larger set. */
  lemma DropAllMore<T(!new)>(s: seq<T>, e: set<T>, x: T)
    ensures (if x in DropAll(s, e) then Without(DropAll(s, e), x) else DropAll(s, e)) == DropAll(s, e + {x})
  {
    DropAllStep(s, e, x);
    if x !in DropAll(s, e) {
      DropAbsent(DropAll(s, e), x);
    }
  }

  lemma WithoutValuesTwice<K(!new), V>(m: map<K, V>, e: set<V>, f: set<V>)
    ensures WithoutValues(WithoutValues(m, e), f) == WithoutValues(m, e + f)
  {
  }
}
