/** The `PriorityQueue` of the block builder (training.py): entries
    `(depth, op)` are appended by `push`, which ignores an operation pushed
    before, and read in order by `pop`, which first re-sorts the whole list
    by depth with a stable sort when a push happened since the last sort. */
module Queue {
  import opened Wrappers
  import opened Ir

  /** The ways the block builder can fail. */
  datatype BuildError = IndexError | KeyError | ValueError | AssertionError

  datatype Entry = Entry(depth: int, op: OpId)

  predicate SortedByDepth(s: seq<Entry>) {
    forall i, j | 0 <= i < j < |s| :: s[i].depth <= s[j].depth
  }

  /** x placed right after the last entry whose depth is at most its own. */
  function Insert(s: seq<Entry>, x: Entry): (r: seq<Entry>)
    ensures multiset(r) == multiset(s) + multiset{x}
  {
    if s == [] then [x]
    else if s[|s| - 1].depth <= x.depth then s + [x]
    else
      assert s == s[..|s| - 1] + [s[|s| - 1]];
      Insert(s[..|s| - 1], x) + [s[|s| - 1]]
  }

  /** `sorted(data, key=lambda x: x[0])`: a stable sort by depth. */
  function SortByDepth(s: seq<Entry>): (r: seq<Entry>)
    ensures multiset(r) == multiset(s)
  {
    if s == [] then []
    else
      assert s == s[..|s| - 1] + [s[|s| - 1]];
      Insert(SortByDepth(s[..|s| - 1]), s[|s| - 1])
  }

  lemma {:induction false} InsertSorted(s: seq<Entry>, x: Entry)
    requires SortedByDepth(s)
    ensures SortedByDepth(Insert(s, x))
  {
    if s != [] && s[|s| - 1].depth > x.depth {
      var init, last := s[..|s| - 1], s[|s| - 1];
      InsertSorted(init, x);
      var r := Insert(init, x);
      forall e | e in r ensures e.depth <= last.depth {
        assert e in multiset(r);
        if e != x {
          assert e in init;
        }
      }
      assert Insert(s, x) == r + [last];
    }
  }

  lemma {:induction false} SortIsSorted(s: seq<Entry>)
    ensures SortedByDepth(SortByDepth(s))
  {
    if s != [] {
      SortIsSorted(s[..|s| - 1]);
      InsertSorted(SortByDepth(s[..|s| - 1]), s[|s| - 1]);
    }
  }

  /** The entries of depth d, in order. */
  function AtDepth(s: seq<Entry>, d: int): seq<Entry> {
    if s == [] then []
    else AtDepth(s[..|s| - 1], d) + (if s[|s| - 1].depth == d then [s[|s| - 1]] else [])
  }

  lemma {:induction false} AtDepthConcat(a: seq<Entry>, b: seq<Entry>, d: int)
    ensures AtDepth(a + b, d) == AtDepth(a, d) + AtDepth(b, d)
  {
    if b != [] {
      assert (a + b)[..|a + b| - 1] == a + b[..|b| - 1];
      AtDepthConcat(a, b[..|b| - 1], d);
    } else {
      assert a + b == a;
    }
  }

  lemma {:induction false} InsertStable(s: seq<Entry>, x: Entry, d: int)
    ensures AtDepth(Insert(s, x), d) == AtDepth(s, d) + (if x.depth == d then [x] else [])
  {
    if s == [] {
      assert AtDepth([x], d) == AtDepth([], d) + (if x.depth == d then [x] else []);
    } else if s[|s| - 1].depth <= x.depth {
      AtDepthConcat(s, [x], d);
      assert AtDepth([x], d) == AtDepth([], d) + (if x.depth == d then [x] else []);
    } else {
      var init, last := s[..|s| - 1], s[|s| - 1];
      InsertStable(init, x, d);
      AtDepthConcat(Insert(init, x), [last], d);
      assert AtDepth([last], d) == AtDepth([], d) + (if last.depth == d then [last] else []);
    }
  }

  /** The sort is stable: the entries of each depth keep their order. */
  lemma {:induction false} SortIsStable(s: seq<Entry>, d: int)
    ensures AtDepth(SortByDepth(s), d) == AtDepth(s, d)
  {
    if s != [] {
      SortIsStable(s[..|s| - 1], d);
      InsertStable(SortByDepth(s[..|s| - 1]), s[|s| - 1], d);
    }
  }

  /** Every entry of q is at least as deep as every entry of p. */
  ghost predicate NoShallower(p: seq<Entry>, q: seq<Entry>) {
    forall e, f | e in p && f in q :: e.depth <= f.depth
  }

  lemma {:induction false} InsertAfterPrefix(p: seq<Entry>, q: seq<Entry>, x: Entry)
    requires p != [] && forall e | e in p :: e.depth <= x.depth
    ensures Insert(p + q, x) == p + Insert(q, x)
  {
    if q == [] {
      assert p + q == p;
    } else {
      var init, last := q[..|q| - 1], q[|q| - 1];
      assert (p + q)[..|p + q| - 1] == p + init;
      assert (p + q)[|p + q| - 1] == last;
      if last.depth > x.depth {
        InsertAfterPrefix(p, init, x);
      }
    }
  }

  /** Sorting a list whose sorted prefix is no deeper than the rest leaves
      that prefix in place: the popped entries stay where `_idx` left
      them. */
  lemma {:induction false} SortKeepsPrefix(p: seq<Entry>, q: seq<Entry>)
    requires SortedByDepth(p) && NoShallower(p, q)
    ensures SortByDepth(p + q) == p + SortByDepth(q)
  {
    if q == [] {
      assert p + q == p;
      SortedUnchanged(p);
    } else if p == [] {
      assert p + q == q;
    } else {
      var init, last := q[..|q| - 1], q[|q| - 1];
      assert (p + q)[..|p + q| - 1] == p + init;
      assert (p + q)[|p + q| - 1] == last;
      assert NoShallower(p, init) by {
        forall e, f | e in p && f in init ensures e.depth <= f.depth {
          assert f in q;
        }
      }
      SortKeepsPrefix(p, init);
      assert SortByDepth(p + q) == Insert(p + SortByDepth(init), last);
      assert last in q;
      InsertAfterPrefix(p, SortByDepth(init), last);
      assert SortByDepth(q) == Insert(SortByDepth(init), last);
    }
  }

  /** A list already sorted by depth is its own sort. */
  lemma {:induction false} SortedUnchanged(p: seq<Entry>)
    requires SortedByDepth(p)
    ensures SortByDepth(p) == p
  {
    if p != [] {
      var init := p[..|p| - 1];
      SortedUnchanged(init);
      assert p == init + [p[|p| - 1]];
    }
  }

  /** No operation has two entries. */
  ghost predicate DistinctOps(s: seq<Entry>) {
    forall i, j | 0 <= i < j < |s| :: s[i].op != s[j].op
  }

  function OpsOf(s: seq<Entry>): set<OpId> {
    set e | e in s :: e.op
  }

  lemma DistinctAppend(s: seq<Entry>, x: Entry)
    requires DistinctOps(s) && x.op !in OpsOf(s)
    ensures DistinctOps(s + [x])
  {
    forall i | 0 <= i < |s| ensures s[i].op != x.op {
      assert s[i] in s;
    }
  }

  /** In a list without repeated operations the entry at i is not among
      those before it, nor is its operation. */
  lemma DistinctNotBefore(s: seq<Entry>, i: nat)
    requires DistinctOps(s) && i < |s|
    ensures s[i] !in s[..i] && s[i].op !in OpsOf(s[..i])
  {
    forall e | e in s[..i] ensures e.op != s[i].op {
      var k :| 0 <= k < i && s[..i][k] == e;
      assert s[k] == e;
    }
  }

  lemma {:induction false} InsertDistinct(s: seq<Entry>, x: Entry)
    requires DistinctOps(s + [x])
    ensures DistinctOps(Insert(s, x))
  {
    if s != [] && s[|s| - 1].depth > x.depth {
      var init, last := s[..|s| - 1], s[|s| - 1];
      assert init + [x] == (s + [x])[..|s| - 1] + [x];
      assert DistinctOps(init + [x]) by {
        forall i, j | 0 <= i < j < |init + [x]| ensures (init + [x])[i].op != (init + [x])[j].op {
          if j < |init| {
            assert (init + [x])[i] == (s + [x])[i] && (init + [x])[j] == (s + [x])[j];
          } else {
            assert (init + [x])[i] == (s + [x])[i] && (init + [x])[j] == (s + [x])[|s|];
          }
        }
      }
      InsertDistinct(init, x);
      var r := Insert(init, x);
      forall k | 0 <= k < |r| ensures r[k].op != last.op {
        assert r[k] in multiset(r);
        if r[k] == x {
          assert (s + [x])[|s| - 1] == last && (s + [x])[|s|] == x;
        } else {
          var m :| 0 <= m < |init| && init[m] == r[k];
          assert (s + [x])[m] == r[k] && (s + [x])[|s| - 1] == last;
        }
      }
      assert Insert(s, x) == r + [last];
    }
  }

  /** Sorting keeps the operations distinct. */
  lemma {:induction false} SortDistinct(s: seq<Entry>)
    requires DistinctOps(s)
    ensures DistinctOps(SortByDepth(s))
  {
    if s != [] {
      var init, last := s[..|s| - 1], s[|s| - 1];
      assert DistinctOps(init) by {
        forall i, j | 0 <= i < j < |init| ensures init[i].op != init[j].op {
          assert init[i] == s[i] && init[j] == s[j];
        }
      }
      SortDistinct(init);
      var r := SortByDepth(init);
      forall k | 0 <= k < |r| ensures r[k].op != last.op {
        assert r[k] in multiset(r);
        var m :| 0 <= m < |init| && init[m] == r[k];
        assert s[m] == r[k];
      }
      assert DistinctOps(r + [last]);
      InsertDistinct(r, last);
    }
  }

  lemma SortedSuffix(s: seq<Entry>, i: nat)
    requires SortedByDepth(s) && i < |s|
    ensures forall e | e in s[i + 1..] :: s[i].depth <= e.depth
    ensures forall e | e in s[..i] :: e.depth <= s[i].depth
  {
  }

  class PriorityQueue {
    var data: seq<Entry>
    var ops: set<OpId>
    var idx: nat
    var lazyTag: bool
    /** Every entry `pop` returned so far, in order. */
    ghost var popped: seq<Entry>
    /** No push so far carried a depth below that of the last entry
        popped before it. */
    ghost var orderly: bool

    ghost predicate Valid()
      reads this
    {
      && idx <= |data| && |popped| == idx
      && ops == OpsOf(data) && DistinctOps(data)
      && (lazyTag ==> SortedByDepth(data))
      && (orderly ==> OrderlyState(data, idx, popped))
    }

    /** The entries not yet popped. */
    function Pending(): seq<Entry>
      reads this
      requires idx <= |data|
    {
      data[idx..]
    }

    constructor ()
      ensures Valid() && orderly
      ensures data == [] && ops == {} && idx == 0 && lazyTag && popped == []
    {
      data, ops, idx, lazyTag := [], {}, 0, true;
      popped, orderly := [], true;
    }

    /** `push(depth, op)`: nothing happens for an operation pushed before,
        even if it has been popped since; otherwise the entry is appended
        and the list is marked unsorted. */
    method Push(depth: int, op: OpId)
      requires Valid()
      modifies this
      ensures Valid() && idx == old(idx) && popped == old(popped)
      ensures op in old(ops) ==>
        data == old(data) && ops == old(ops) && lazyTag == old(lazyTag) && orderly == old(orderly)
      ensures op !in old(ops) ==>
        && data == old(data) + [Entry(depth, op)] && ops == old(ops) + {op} && !lazyTag
        && orderly == (old(orderly) && (old(popped) == [] || old(popped)[|old(popped)| - 1].depth <= depth))
    {
      if op in ops {
        return;
      }
      ghost var before := data;
      DistinctAppend(data, Entry(depth, op));
      data := data + [Entry(depth, op)];
      ops := ops + {op};
      lazyTag := false;
      orderly := orderly && (popped == [] || popped[|popped| - 1].depth <= depth);
      if orderly {
        OrderlyPush(before, idx, popped, Entry(depth, op));
      }
    }

    /** `empty()`: no entry is left to pop. */
    function Empty(): (r: bool)
      reads this
      requires Valid()
      ensures r <==> Pending() == []
    {
      idx >= |data|
    }

    /** `pop()`: the list is sorted by depth first if a push happened since
        the last sort; then an `IndexError` when every entry was popped,
        otherwise the entry at the read index, which moves on by one. While
        the pushes are orderly, the popped entries come out in
        nondecreasing depth and none comes out twice. */
    method Pop() returns (r: Result<Entry, BuildError>)
      requires Valid()
      modifies this
      ensures Valid() && lazyTag && ops == old(ops) && orderly == old(orderly)
      ensures data == if old(lazyTag) then old(data) else SortByDepth(old(data))
      ensures multiset(data) == multiset(old(data)) && |data| == |old(data)|
      ensures r.Err? <==> old(idx) >= |old(data)|
      ensures r.Err? ==> r.error == BuildError.IndexError && idx == old(idx) && popped == old(popped)
      ensures r.Ok? ==> r.value == data[old(idx)] && idx == old(idx) + 1 && popped == old(popped) + [r.value]
      ensures r.Ok? && old(orderly) ==>
        && (old(popped) != [] ==> old(popped)[|old(popped)| - 1].depth <= r.value.depth)
        && r.value !in old(popped) && r.value.op !in OpsOf(old(popped))
    {
      if !lazyTag {
        ghost var before := data;
        SortIsSorted(data);
        if orderly {
          OrderlySort(data, idx, popped);
        }
        data := SortByDepth(data);
        SortDistinct(before);
        OpsPermuted(before, data);
        assert |data| == |multiset(data)| == |multiset(before)| == |before|;
        lazyTag := true;
      }
      if idx >= |data| {
        return Err(BuildError.IndexError);
      }
      var e := data[idx];
      DistinctNotBefore(data, idx);
      if orderly {
        OrderlyPop(data, idx, popped);
      }
      idx := idx + 1;
      popped := popped + [e];
      return Ok(e);
    }
  }

  /** While pushes are orderly the popped entries are the prefix of the
      list, sorted, and no pending entry is shallower than the last one. */
  ghost predicate OrderlyState(data: seq<Entry>, idx: nat, popped: seq<Entry>) {
    && idx <= |data| && data[..idx] == popped && SortedByDepth(popped)
    && (popped != [] ==> forall e | e in data[idx..] :: popped[|popped| - 1].depth <= e.depth)
  }

  lemma OrderlyPush(data: seq<Entry>, idx: nat, popped: seq<Entry>, x: Entry)
    requires OrderlyState(data, idx, popped)
    requires popped == [] || popped[|popped| - 1].depth <= x.depth
    ensures OrderlyState(data + [x], idx, popped)
  {
    assert (data + [x])[..idx] == data[..idx];
    assert (data + [x])[idx..] == data[idx..] + [x];
  }

  lemma OrderlySort(data: seq<Entry>, idx: nat, popped: seq<Entry>)
    requires OrderlyState(data, idx, popped)
    ensures OrderlyState(SortByDepth(data), idx, popped)
  {
    var q := data[idx..];
    assert data == popped + q;
    if popped != [] {
      forall e, f | e in popped && f in q ensures e.depth <= f.depth {
        var i :| 0 <= i < |popped| && popped[i] == e;
        assert e.depth <= popped[|popped| - 1].depth;
      }
    }
    SortKeepsPrefix(popped, q);
    var r := SortByDepth(data);
    assert r == popped + SortByDepth(q);
    assert r[..idx] == popped && r[idx..] == SortByDepth(q);
    forall e | e in r[idx..] ensures e in q {
      assert e in multiset(SortByDepth(q));
    }
  }

  /** Popping the next entry of a sorted list keeps the state orderly. */
  lemma OrderlyPop(data: seq<Entry>, idx: nat, popped: seq<Entry>)
    requires OrderlyState(data, idx, popped) && idx < |data| && SortedByDepth(data)
    ensures OrderlyState(data, idx + 1, popped + [data[idx]])
    ensures popped != [] ==> popped[|popped| - 1].depth <= data[idx].depth
  {
    SortedSuffix(data, idx);
    assert data[..idx + 1] == data[..idx] + [data[idx]];
    assert data[idx + 1..] == data[idx..][1..];
    var p := popped + [data[idx]];
    forall i, j | 0 <= i < j < |p| ensures p[i].depth <= p[j].depth {
      if j == |p| - 1 {
        assert p[i] in data[..idx];
      }
    }
  }

  /** A permutation has the same operations. */
  lemma OpsPermuted(s: seq<Entry>, t: seq<Entry>)
    requires multiset(t) == multiset(s)
    ensures OpsOf(t) == OpsOf(s)
  {
    forall e | e in t ensures e in s {
      assert e in multiset(t);
    }
    forall e | e in s ensures e in t {
      assert e in multiset(s);
    }
  }
}
