/** The block builder of training.py: operation depths computed over a
    topological order, and blocks grown from a start operation towards an
    end operation no deeper than a limit, either along a single-consumer
    chain or up to the next multi-input operation found by a least-depth-
    first search. */
module Training {
  import opened Wrappers
  import opened Seqs
  import opened Ir
  import opened Queue

  /** `TrainableBlock(sp, ep, rps)`: start, end and the operations in
      between. */
  datatype TrainableBlock = TrainableBlock(sp: OpId, ep: OpId, rps: seq<OpId>)

  // ---------------------------------------------------------------------
  // Depth
  // ---------------------------------------------------------------------

  /** `max(xs)`. */
  function MaxOf(xs: seq<int>): (m: int)
    requires xs != []
    ensures m in xs && forall x | x in xs :: x <= m
  {
    if |xs| == 1 then xs[0]
    else
      var m := MaxOf(xs[1..]);
      assert forall x | x in xs :: x == xs[0] || x in xs[1..];
      if xs[0] >= m then xs[0] else m
  }

  /** The depths of some operations, in order. */
  function DepthsOf(depth: map<OpId, int>, ups: seq<OpId>): (r: seq<int>)
    requires forall u | u in ups :: u in depth
    ensures |r| == |ups| && forall k | 0 <= k < |ups| :: r[k] == depth[ups[k]]
  {
    if ups == [] then []
    else DepthsOf(depth, ups[..|ups| - 1]) + [depth[ups[|ups| - 1]]]
  }

  /** The depth rule: 0 for an operation without upstream operations,
      otherwise one more than the deepest of them. */
  function DepthRule(s: GraphState, depth: map<OpId, int>, o: OpId): int
    requires o in s.ops && forall u | u in Upstream(s, o) :: u in depth
  {
    var ups := Upstream(s, o);
    if ups == [] then 0 else MaxOf(DepthsOf(depth, ups)) + 1
  }

  /** o has a depth, is live, its upstream operations have depths, and its
      depth follows the rule. */
  ghost predicate DepthOk(s: GraphState, depth: map<OpId, int>, o: OpId) {
    && o in depth && LiveOp(s, o)
    && (forall u | u in Upstream(s, o) :: u in depth)
    && depth[o] == DepthRule(s, depth, o)
  }

  /** Every operation with a depth satisfies the rule. The trigger keeps a
      mere lookup in the map from unfolding the rule. */
  ghost predicate DepthConsistent(s: GraphState, depth: map<OpId, int>) {
    forall o {:trigger DepthOk(s, depth, o)} | o in depth :: DepthOk(s, depth, o)
  }

  /** Each of the first n operations of the order comes after its upstream
      operations. */
  ghost predicate TopologicalUpTo(s: GraphState, order: seq<OpId>, n: nat)
    requires n <= |order| && forall o | o in order :: LiveOp(s, o)
  {
    forall i | 0 <= i < n ::
      assert order[i] in order && LiveOp(s, order[i]);
      forall u | u in Upstream(s, order[i]) :: u in order[..i]
  }

  /** Every operation of the order comes after its upstream operations. */
  ghost predicate Topological(s: GraphState, order: seq<OpId>)
    requires forall o | o in order :: LiveOp(s, o)
  {
    TopologicalUpTo(s, order, |order|)
  }

  /** An operation is strictly deeper than each of its upstream operations. */
  lemma DepthAboveUpstream(s: GraphState, depth: map<OpId, int>, o: OpId, u: OpId)
    requires DepthConsistent(s, depth) && o in depth && o in s.ops && u in Upstream(s, o)
    ensures u in depth && depth[u] < depth[o]
  {
    assert DepthOk(s, depth, o);
    var ups := Upstream(s, o);
    var k :| 0 <= k < |ups| && ups[k] == u;
    var ds := DepthsOf(depth, ups);
    assert ds[k] == depth[u];
    assert ds[k] in ds;
  }

  /** A depth with no upstream operations is 0. */
  lemma DepthOfSource(s: GraphState, depth: map<OpId, int>, o: OpId)
    requires DepthConsistent(s, depth) && o in depth && o in s.ops && Upstream(s, o) == []
    ensures depth[o] == 0
  {
    assert DepthOk(s, depth, o);
  }

  lemma DepthsOfUnchanged(d: map<OpId, int>, e: map<OpId, int>, ups: seq<OpId>)
    requires forall u | u in ups :: u in d && u in e && d[u] == e[u]
    ensures DepthsOf(d, ups) == DepthsOf(e, ups)
  {
  }

  /** Giving a depth by the rule to an operation without one, once all its
      upstream operations have depths, keeps the map consistent. */
  lemma DepthStep(s: GraphState, depth: map<OpId, int>, o: OpId)
    requires DepthConsistent(s, depth) && LiveOp(s, o) && o !in depth
    requires forall u | u in Upstream(s, o) :: u in depth
    ensures DepthConsistent(s, depth[o := DepthRule(s, depth, o)])
  {
    var nd := depth[o := DepthRule(s, depth, o)];
    DepthsOfUnchanged(depth, nd, Upstream(s, o));
    forall x | x in nd ensures DepthOk(s, nd, x) {
      if x != o {
        assert DepthOk(s, depth, x);
        DepthsOfUnchanged(depth, nd, Upstream(s, x));
      }
    }
  }

  /** Giving o its rule depth keeps a consistent map consistent, whether o
      had a depth already or not. */
  lemma DepthAssign(s: GraphState, depth: map<OpId, int>, o: OpId)
    requires DepthConsistent(s, depth) && LiveOp(s, o)
    requires forall u | u in Upstream(s, o) :: u in depth
    ensures DepthConsistent(s, depth[o := DepthRule(s, depth, o)])
  {
    if o in depth {
      assert DepthOk(s, depth, o);
      assert depth[o := DepthRule(s, depth, o)] == depth;
    } else {
      DepthStep(s, depth, o);
    }
  }

  /** Operations of a prefix of the order. */
  lemma PrefixElements(order: seq<OpId>, i: nat)
    requires i < |order|
    ensures Elements(order[..i + 1]) == Elements(order[..i]) + {order[i]}
  {
    assert order[..i + 1] == order[..i] + [order[i]];
    ElementsSnoc(order[..i], order[i]);
  }

  // ---------------------------------------------------------------------
  // End points
  // ---------------------------------------------------------------------

  /** `_find_coherent_ep(op)`: the single downstream operation, when it has
      one non-parameter input and a single upstream operation. */
  function CoherentEp(s: GraphState, op: OpId): Option<OpId>
    requires WellFormed(s) && LiveOp(s, op)
  {
    var ds := Downstream(s, op);
    if |ds| == 1 then
      NeighboursAreLive(s, op);
      assert ds[0] in ds;
      var f := ds[0];
      if |s.ops[f].inputs| - |Parameters(s, f)| == 1 && |Upstream(s, f)| == 1 then Some(f) else None
    else None
  }

  /** The coherent end point is exactly the sole consumer of op whose sole
      producer is op and which has one non-parameter input. */
  lemma CoherentEpIsSoleSuccessor(s: GraphState, op: OpId, f: OpId)
    requires WellFormed(s) && LiveOp(s, op)
    ensures CoherentEp(s, op) == Some(f) <==>
      && Downstream(s, op) == [f] && LiveOp(s, f)
      && Upstream(s, f) == [op] && |s.ops[f].inputs| - |Parameters(s, f)| == 1
  {
    NeighboursAreLive(s, op);
    if Downstream(s, op) == [f] {
      assert f in Downstream(s, op);
      DownstreamUpstreamDual(s, op, f);
      if |Upstream(s, f)| == 1 {
        assert Upstream(s, f) == [Upstream(s, f)[0]];
      }
    }
  }

  /** With consistent depths a coherent end point is one level deeper. */
  lemma CoherentEpDepth(s: GraphState, depth: map<OpId, int>, op: OpId, f: OpId)
    requires WellFormed(s) && LiveOp(s, op) && DepthConsistent(s, depth)
    requires CoherentEp(s, op) == Some(f) && f in depth
    ensures op in depth && depth[f] == depth[op] + 1
  {
    CoherentEpIsSoleSuccessor(s, op, f);
    DepthAboveUpstream(s, depth, f, op);
    assert DepthOk(s, depth, f);
    assert DepthsOf(depth, [op]) == [depth[op]];
  }

  // ---------------------------------------------------------------------
  // Block members
  // ---------------------------------------------------------------------

  /** The members of m, by first position in the order. */
  function InOrder(order: seq<OpId>, m: set<OpId>): (r: seq<OpId>)
  {
    if order == [] then []
    else if order[0] in m then [order[0]] + InOrder(order[1..], m - {order[0]})
    else InOrder(order[1..], m)
  }

  lemma IndexOfTail(order: seq<OpId>, x: OpId)
    requires order != [] && x in order[1..] && x != order[0]
    ensures IndexOf(order, x) == 1 + IndexOf(order[1..], x)
  {
  }

  /** The members of m found in the order, and no others. */
  lemma {:induction false} InOrderMembers(order: seq<OpId>, m: set<OpId>)
    ensures Elements(InOrder(order, m)) == m * Elements(order)
  {
    if order != [] {
      var h, t := order[0], order[1..];
      assert Elements(order) == {h} + Elements(t) by {
        assert forall x | x in order :: x == h || x in t;
      }
      if h in m {
        InOrderMembers(t, m - {h});
        assert Elements(InOrder(order, m)) == {h} + Elements(InOrder(t, m - {h}));
      } else {
        InOrderMembers(t, m);
      }
    }
  }

  /** The members come in increasing first index within the order. */
  lemma {:induction false} InOrderIncreasing(order: seq<OpId>, m: set<OpId>)
    ensures forall x | x in InOrder(order, m) :: x in order
    ensures var r := InOrder(order, m);
      forall i, j | 0 <= i < j < |r| :: IndexOf(order, r[i]) < IndexOf(order, r[j])
  {
    if order != [] {
      var h, t := order[0], order[1..];
      var m' := if h in m then m - {h} else m;
      InOrderIncreasing(t, m');
      InOrderMembers(t, m');
      var rest := InOrder(t, m');
      forall x | x in rest ensures x in order && IndexOf(order, x) == 1 + IndexOf(t, x) {
        assert x in Elements(rest);
        IndexOfTail(order, x);
      }
      if h in m {
        var r := [h] + rest;
        forall i, j | 0 <= i < j < |r| ensures IndexOf(order, r[i]) < IndexOf(order, r[j]) {
          assert r[j] == rest[j - 1];
          if i > 0 {
            assert r[i] == rest[i - 1];
          }
        }
      }
    }
  }

  /** `sorted((op_orders.index(op), op) for op in rps)`: the members of m
      found in the order, each once, in increasing first index. */
  lemma InOrderSorted(order: seq<OpId>, m: set<OpId>)
    ensures Elements(InOrder(order, m)) == m * Elements(order)
    ensures Distinct(InOrder(order, m))
    ensures forall x | x in InOrder(order, m) :: x in order
    ensures var r := InOrder(order, m);
      forall i, j | 0 <= i < j < |r| :: IndexOf(order, r[i]) < IndexOf(order, r[j])
  {
    InOrderMembers(order, m);
    InOrderIncreasing(order, m);
  }

  // ---------------------------------------------------------------------
  // The builder
  // ---------------------------------------------------------------------

  /** Growing a set of live operations shrinks the set of live operations
      outside it. */
  lemma RestShrinks(s: GraphState, ops0: set<OpId>, ops1: set<OpId>)
    requires ops0 <= ops1 && forall x | x in ops1 :: LiveOp(s, x)
    ensures ops1 != ops0 ==> LiveOps(s) - ops1 < LiveOps(s) - ops0
  {
    if ops1 != ops0 {
      var x :| x in ops1 && x !in ops0;
      assert x in LiveOps(s) - ops0 && x !in LiveOps(s) - ops1;
    }
  }

  /** `BlockBuilder(graph, topo_order)`. The subgraph search of
      `SearchableGraph.opset_matching` (search.py) is a parameter:
      `search(sp, ep)` is the set of operations it matches on the paths
      downward from sp to ep. */
  class BlockBuilder {
    const graph: GraphState
    const order: seq<OpId>
    const search: (OpId, OpId) -> set<OpId>
    var depth: map<OpId, int>

    ghost predicate Valid()
      reads this
    {
      && WellFormed(graph)
      && (forall o | o in order :: LiveOp(graph, o))
      && DepthConsistent(graph, depth)
    }

    constructor (graph: GraphState, order: seq<OpId>, search: (OpId, OpId) -> set<OpId>)
      requires WellFormed(graph) && forall o | o in order :: LiveOp(graph, o)
      ensures this.graph == graph && this.order == order && this.search == search
      ensures depth == map[] && Valid()
    {
      this.graph, this.order, this.search := graph, order, search;
      depth := map[];
    }

    /** The depth-rule value of o: an `AssertionError` when one of its
        upstream operations has no depth yet. */
    method UpstreamDepth(o: OpId) returns (r: Result<int, BuildError>)
      requires o in graph.ops
      ensures r.Err? <==> exists u :: u in Upstream(graph, o) && u !in depth
      ensures r.Err? ==> r.error == BuildError.AssertionError
      ensures r.Ok? ==> (forall u | u in Upstream(graph, o) :: u in depth) && r.value == DepthRule(graph, depth, o)
    {
      var ups := Upstream(graph, o);
      if |ups| == 0 {
        return Ok(0);
      }
      var cache: seq<int> := [];
      var j: nat := 0;
      while j < |ups|
        invariant j <= |ups| && forall k | 0 <= k < j :: ups[k] in depth
        invariant cache == DepthsOf(depth, ups[..j])
      {
        if ups[j] !in depth {
          return Err(BuildError.AssertionError);
        }
        assert ups[..j + 1][..j] == ups[..j];
        cache := cache + [depth[ups[j]]];
        j := j + 1;
      }
      assert ups[..j] == ups;
      return Ok(MaxOf(cache) + 1);
    }

    /** `initialize_depth()`: depths in the given order. It fails with an
        `AssertionError` exactly when the order is not topological; otherwise
        every operation of the order gets a depth by the rule. */
    method InitializeDepth() returns (outcome: Outcome<BuildError>)
      requires Valid() && depth == map[]
      modifies this
      ensures Valid()
      ensures outcome.Fail? <==> !Topological(graph, order)
      ensures outcome.Fail? ==> outcome.error == BuildError.AssertionError
      ensures outcome.Pass? ==> depth.Keys == Elements(order)
    {
      var i: nat := 0;
      while i < |order|
        invariant i <= |order| && Valid()
        invariant depth.Keys == Elements(order[..i])
        invariant TopologicalUpTo(graph, order, i)
      {
        var o := order[i];
        assert o in order;
        var r := UpstreamDepth(o);
        PrefixElements(order, i);
        if r.Err? {
          var u :| u in Upstream(graph, o) && u !in depth;
          assert !Topological(graph, order) by {
            assert u !in order[..i];
          }
          return Fail(BuildError.AssertionError);
        }
        DepthAssign(graph, depth, o);
        depth := depth[o := r.value];
        i := i + 1;
      }
      assert order[..i] == order;
      return Pass;
    }

    /** An end point found by the least-depth-first search from op: a
        multi-input operation deeper than op whose upstream operations were
        all reached, and at least as deep as every operation reached. */
    ghost predicate BlockingEp(op: OpId, e: OpId, reached: set<OpId>)
      reads this
    {
      && LiveOp(graph, e) && op in depth && e in depth && depth[op] < depth[e]
      && op in reached && e in reached
      && |Upstream(graph, e)| > 1 && (forall u | u in Upstream(graph, e) :: u in reached)
      && (forall x | x in reached :: x in depth && depth[x] <= depth[e])
    }

    /** Some downstream operation of x has no depth: `self.depth[down_op]`
        raises a `KeyError` while x is expanded. */
    ghost predicate LacksDepthBelow(x: OpId)
      reads this
    {
      x in graph.ops && exists d :: d in Downstream(graph, x) && d !in depth
    }

    /** Pushes the downstream operations of the last operation popped, each
        with its depth; a `KeyError` exactly when one has no depth. Each of
        them is live and, when it has a depth, deeper than that operation. */
    method PushDownstream(q: PriorityQueue, it: OpId, ghost op: OpId) returns (outcome: Outcome<BuildError>)
      requires it in graph.ops && it in depth && DeeperDownstream(graph, depth, it)
      requires q.Valid() && q.orderly && SearchInv(graph, depth, op, q.data, q.ops, q.popped)
      requires q.popped != [] && q.popped[|q.popped| - 1].op == it
      modifies q
      ensures q.Valid() && q.orderly && SearchInv(graph, depth, op, q.data, q.ops, q.popped)
      ensures q.idx == old(q.idx) && q.popped == old(q.popped)
      ensures old(q.ops) <= q.ops && (q.ops == old(q.ops) ==> q.data == old(q.data))
      ensures outcome.Fail? ==> outcome.error == BuildError.KeyError
      ensures outcome.Fail? <==> LacksDepthBelow(it)
      ensures outcome.Pass? ==> DownstreamIn(graph, it, q.ops)
    {
      var ds := Downstream(graph, it);
      var k: nat := 0;
      while k < |ds|
        invariant k <= |ds| && q.Valid() && q.orderly && SearchInv(graph, depth, op, q.data, q.ops, q.popped)
        invariant q.idx == old(q.idx) && q.popped == old(q.popped)
        invariant old(q.ops) <= q.ops && (q.ops == old(q.ops) ==> q.data == old(q.data))
        invariant forall j | 0 <= j < k :: ds[j] in q.ops && ds[j] in depth
      {
        var d := ds[k];
        if d !in depth {
          assert d in ds;
          return Fail(BuildError.KeyError);
        }
        assert d in ds;
        PushOne(q, it, op, d);
        k := k + 1;
      }
      assert !LacksDepthBelow(it) by {
        forall d | d in ds ensures d in depth {
          var j :| 0 <= j < |ds| && ds[j] == d;
        }
      }
      return Pass;
    }

    /** `push(depth[d], d)` for an operation deeper than the last one
        popped: the pushes stay orderly. */
    method PushOne(q: PriorityQueue, it: OpId, ghost op: OpId, d: OpId)
      requires it in depth && d in depth && LiveOp(graph, d) && depth[it] < depth[d]
      requires q.Valid() && q.orderly && SearchInv(graph, depth, op, q.data, q.ops, q.popped)
      requires q.popped != [] && q.popped[|q.popped| - 1].op == it
      modifies q
      ensures q.Valid() && q.orderly && SearchInv(graph, depth, op, q.data, q.ops, q.popped)
      ensures q.idx == old(q.idx) && q.popped == old(q.popped)
      ensures q.ops == old(q.ops) + {d} && (d in old(q.ops) ==> q.data == old(q.data))
    {
      SearchLast(graph, depth, op, q.data, q.idx, q.ops, q.popped, it);
      ghost var data0, ops0 := q.data, q.ops;
      q.Push(depth[d], d);
      if d !in ops0 {
        SearchPush(graph, depth, op, data0, ops0, q.popped, d);
      }
    }

    /** `_find_multi_input_ep(op)`: the least-depth-first search for a
        blocking end point. `reached` is the set of operations ever pushed.
        A `KeyError` comes only from a missing depth, of op or below an
        operation reached; a drained search reached no such operation. */
    method FindMultiInputEp(op: OpId) returns (r: Result<Option<OpId>, BuildError>, ghost reached: set<OpId>)
      requires Valid() && LiveOp(graph, op)
      ensures op !in depth ==> r == Err(BuildError.KeyError)
      ensures r.Err? ==> r.error == BuildError.KeyError
      ensures r.Err? ==> op !in depth || exists x :: x in reached && LacksDepthBelow(x)
      ensures r.Ok? && r.value.Some? ==> BlockingEp(op, r.value.value, reached)
      ensures r == Ok(None) ==> op in reached && DownstreamClosed(graph, reached)
      ensures r == Ok(None) ==> forall x | x in reached :: x in depth && !LacksDepthBelow(x)
    {
      if op !in depth {
        return Err(BuildError.KeyError), {};
      }
      var q, pushed := StartSearch(op);
      if pushed.Fail? {
        SearchLast(graph, depth, op, q.data, q.idx, q.ops, q.popped, op);
        return Err(BuildError.KeyError), q.ops;
      }
      while !q.Empty()
        invariant q.Valid() && q.orderly && SearchInv(graph, depth, op, q.data, q.ops, q.popped)
        invariant Expanded(graph, q.popped, q.ops)
        decreases LiveOps(graph) - q.ops, |q.data| - q.idx
      {
        ghost var ops0 := q.ops;
        var step, visited := VisitNext(q, op);
        if step != Ok(None) {
          return step, q.ops;
        }
        RestShrinks(graph, ops0, q.ops);
      }
      SearchDrained(graph, depth, op, q.data, q.idx, q.ops, q.popped);
      OpsHaveDepth(graph, depth, op, q.data, q.ops, q.popped);
      return Ok(None), q.ops;
    }

    /** The search's start: op pushed and popped, then its downstream
        operations pushed. */
    method StartSearch(op: OpId) returns (q: PriorityQueue, outcome: Outcome<BuildError>)
      requires Valid() && LiveOp(graph, op) && op in depth
      ensures fresh(q) && q.Valid() && q.orderly && SearchInv(graph, depth, op, q.data, q.ops, q.popped)
      ensures outcome.Fail? ==> outcome.error == BuildError.KeyError
      ensures outcome.Fail? <==> LacksDepthBelow(op)
      ensures outcome.Pass? ==> Expanded(graph, q.popped, q.ops)
      ensures q.popped != [] && q.popped[|q.popped| - 1].op == op
    {
      q := new PriorityQueue();
      q.Push(depth[op], op);
      var first := q.Pop();
      SearchStart(graph, depth, op, q.data, q.ops, q.popped, first.value);
      DownstreamDeeper(graph, depth, op);
      outcome := PushDownstream(q, op, op);
      if outcome.Pass? {
        ExpandedStep(graph, [], q.ops, q.ops, first.value);
      }
    }

    /** One round of the search: pop the shallowest pending operation; when
        it was the last one pending and is a multi-input operation whose
        upstream operations were all reached, it is the end point;
        otherwise push its downstream operations. `Ok(None)` means the
        search goes on. `visited` is the operation popped; a `KeyError`
        comes exactly when it is not the end point and one of its
        downstream operations has no depth. */
    method VisitNext(q: PriorityQueue, ghost op: OpId) returns (r: Result<Option<OpId>, BuildError>, ghost visited: OpId)
      requires Valid() && q.Valid() && q.orderly && SearchInv(graph, depth, op, q.data, q.ops, q.popped)
      requires !q.Empty()
      modifies q
      ensures q.Valid() && q.orderly && SearchInv(graph, depth, op, q.data, q.ops, q.popped)
      ensures old(q.ops) <= q.ops && (forall x | x in q.ops :: LiveOp(graph, x))
      ensures q.ops == old(q.ops) ==> |q.data| - q.idx < old(|q.data| - q.idx)
      ensures r.Err? ==> r.error == BuildError.KeyError
      ensures visited in q.ops && (r.Err? ==> LacksDepthBelow(visited)) && (r == Ok(None) ==> !LacksDepthBelow(visited))
      ensures r.Ok? && r.value.Some? ==> BlockingEp(op, r.value.value, q.ops)
      ensures r == Ok(None) && Expanded(graph, old(q.popped), old(q.ops)) ==> Expanded(graph, q.popped, q.ops)
    {
      ghost var ops0, data0, popped0 := q.ops, q.data, q.popped;
      var e := q.Pop();
      var it := e.value.op;
      visited := it;
      SearchPop(graph, depth, op, data0, ops0, popped0, q.data, e.value);
      SearchLast(graph, depth, op, q.data, q.idx, q.ops, q.popped, it);
      if q.Empty() {
        var ups := Upstream(graph, it);
        if (forall u | u in ups :: u in q.ops) && |ups| > 1 {
          assert it != op;
          Drained(graph, depth, op, q.data, q.idx, q.ops, q.popped, it);
          return Ok(Some(it)), visited;
        }
      }
      DownstreamDeeper(graph, depth, it);
      var pushed := PushDownstream(q, it, op);
      if pushed.Fail? {
        return Err(BuildError.KeyError), visited;
      }
      if Expanded(graph, popped0, ops0) {
        ExpandedStep(graph, popped0, ops0, q.ops, e.value);
      }
      return Ok(None), visited;
    }

    /** `build(op, limit)`: the block from op to the deepest end point
        reachable by coherent or blocking steps whose depth exceeds that of
        op by at most the limit. `chain` is the sequence of end points
        taken; `stop` is the end point the last search returned, and
        `reached` the operations the last least-depth-first search
        reached. */
    method Build(op: OpId, limit: int)
      returns (r: Result<TrainableBlock, BuildError>, ghost chain: seq<OpId>, ghost reached: set<OpId>, ghost stop: Option<OpId>)
      requires Valid() && LiveOp(graph, op)
      ensures chain != [] && chain[0] == op && Chain(chain)
      ensures r != Err(BuildError.KeyError) ==>
        r == CreateBlock(op, chain[|chain| - 1]) && Stopped(op, chain[|chain| - 1], limit, reached, stop)
      ensures r == Err(BuildError.KeyError) ==> KeyMiss(op, chain[|chain| - 1], reached, stop)
      ensures |chain| > 1 ==> op in depth && chain[|chain| - 1] in depth
                              && depth[op] < depth[chain[|chain| - 1]] <= depth[op] + limit
      ensures r.Err? ==> r.error == BuildError.KeyError || r.error == BuildError.ValueError
    {
      var ep := op;
      chain := [op];
      while true
        invariant chain != [] && chain[0] == op && ep == chain[|chain| - 1] && LiveOp(graph, ep) && Chain(chain)
        invariant ep != op ==> op in depth && ep in depth && depth[op] < depth[ep] <= depth[op] + limit
        invariant |chain| > 1 ==> ep != op
        decreases limit - (if ep in depth && op in depth then depth[ep] - depth[op] else 0)
      {
        var future: Option<OpId>;
        reached := {};
        if |Downstream(graph, ep)| <= 1 {
          future := CoherentEp(graph, ep);
        } else {
          var found;
          found, reached := FindMultiInputEp(ep);
          if found.Err? {
            return Err(found.error), chain, reached, None;
          }
          future := found.value;
        }
        stop := future;
        if future.None? {
          return CreateBlock(op, ep), chain, reached, stop;
        }
        var f := future.value;
        if f !in depth || op !in depth {
          return Err(BuildError.KeyError), chain, reached, stop;
        }
        if depth[f] - depth[op] > limit {
          return CreateBlock(op, ep), chain, reached, stop;
        }
        StepTaken(ep, f, reached);
        ChainSnoc(chain, f);
        ep := f;
        chain := chain + [f];
      }
    }

    /** Why `build` stopped at e: the search from e found no end point, or
        the one it found is deeper than op by more than the limit. A
        coherent search found the one that `_find_coherent_ep` gives; a
        least-depth-first search found a blocking end point, or drained
        the operations downstream of e. */
    ghost predicate Stopped(op: OpId, e: OpId, limit: int, reached: set<OpId>, stop: Option<OpId>)
      reads this
    {
      && WellFormed(graph) && LiveOp(graph, e)
      && (if |Downstream(graph, e)| <= 1 then stop == CoherentEp(graph, e)
          else if stop.None? then e in reached && DownstreamClosed(graph, reached)
          else BlockingEp(e, stop.value, reached))
      && (stop.Some? ==> op in depth && stop.value in depth && depth[stop.value] - depth[op] > limit)
    }

    /** Why `build` raised a `KeyError`: op has no depth, or the end point
        found has none, or the least-depth-first search from e reached an
        operation with a downstream operation without one. */
    ghost predicate KeyMiss(op: OpId, e: OpId, reached: set<OpId>, stop: Option<OpId>)
      reads this
    {
      || op !in depth
      || (stop.Some? && stop.value !in depth)
      || (e in graph.ops && |Downstream(graph, e)| > 1 && stop.None? && exists x :: x in reached && LacksDepthBelow(x))
    }

    /** One step of `build`: f is the coherent end point of e, or a deeper
        multi-input operation when e has several consumers. */
    ghost predicate Step(e: OpId, f: OpId)
      reads this
    {
      && WellFormed(graph) && LiveOp(graph, e) && LiveOp(graph, f)
      && e in depth && f in depth && depth[e] < depth[f]
      && (if |Downstream(graph, e)| <= 1 then CoherentEp(graph, e) == Some(f)
          else |Upstream(graph, f)| > 1)
    }

    ghost predicate Chain(chain: seq<OpId>)
      reads this
    {
      forall i | 0 <= i < |chain| - 1 :: Step(chain[i], chain[i + 1])
    }

    lemma ChainSnoc(chain: seq<OpId>, f: OpId)
      requires chain != [] && Chain(chain) && Step(chain[|chain| - 1], f)
      ensures Chain(chain + [f])
    {
    }

    lemma StepTaken(e: OpId, f: OpId, reached: set<OpId>)
      requires Valid() && LiveOp(graph, e) && f in depth
      requires |Downstream(graph, e)| <= 1 ==> CoherentEp(graph, e) == Some(f)
      requires |Downstream(graph, e)| > 1 ==> BlockingEp(e, f, reached)
      ensures Step(e, f)
    {
      if |Downstream(graph, e)| <= 1 {
        CoherentEpIsSoleSuccessor(graph, e, f);
        CoherentEpDepth(graph, depth, e, f);
      }
    }

    /** `create_block(sp, ep)`: the single-operation block when sp is ep,
        otherwise the matched operations sorted by their index in the
        order; a `ValueError` when one is not in the order. */
    function CreateBlock(sp: OpId, ep: OpId): (r: Result<TrainableBlock, BuildError>)
    {
      if sp == ep then Ok(TrainableBlock(sp, ep, [sp]))
      else
        var m := search(sp, ep);
        if forall x | x in m :: x in order then Ok(TrainableBlock(sp, ep, InOrder(order, m)))
        else Err(BuildError.ValueError)
    }

    /** The block holds exactly the matched operations, each once, in the
        order's sequence; it fails exactly when a match is outside the
        order. */
    lemma CreateBlockMembers(sp: OpId, ep: OpId)
      ensures CreateBlock(sp, ep).Err? <==> sp != ep && exists x :: x in search(sp, ep) && x !in order
      ensures var r := CreateBlock(sp, ep); r.Ok? ==>
        && r.value.sp == sp && r.value.ep == ep
        && (sp == ep ==> r.value.rps == [sp])
        && (sp != ep ==> Elements(r.value.rps) == search(sp, ep) && Distinct(r.value.rps))
        && (sp != ep ==> forall x | x in r.value.rps :: x in order)
        && (sp != ep ==> forall i, j | 0 <= i < j < |r.value.rps| ::
              IndexOf(order, r.value.rps[i]) < IndexOf(order, r.value.rps[j]))
    {
      InOrderSorted(order, search(sp, ep));
    }
  }

  // ---------------------------------------------------------------------
  // The state of the least-depth-first search, over the queue's fields
  // ---------------------------------------------------------------------

  /** op was popped first, every operation pushed is live, and every entry
      carries its operation's depth, deeper than op except op itself. */
  ghost predicate SearchInv(s: GraphState, depth: map<OpId, int>, op: OpId,
                            data: seq<Entry>, ops: set<OpId>, popped: seq<Entry>)
  {
    && op in depth && op in OpsOf(popped)
    && (forall x | x in ops :: LiveOp(s, x))
    && (forall e | e in data :: e.op in depth && e.depth == depth[e.op] && (e.op == op || depth[op] < depth[e.op]))
  }

  lemma SearchStart(s: GraphState, depth: map<OpId, int>, op: OpId,
                    data: seq<Entry>, ops: set<OpId>, popped: seq<Entry>, first: Entry)
    requires op in depth && LiveOp(s, op) && ops == {op}
    requires multiset(data) == multiset{Entry(depth[op], op)} && popped == [first] && first in data
    ensures SearchInv(s, depth, op, data, ops, popped) && first.op == op
  {
    forall e | e in data ensures e == Entry(depth[op], op) {
      assert e in multiset(data);
    }
    assert first in popped;
  }

  /** Every downstream operation of x is in ops. */
  ghost predicate DownstreamIn(s: GraphState, x: OpId, ops: set<OpId>) {
    x in s.ops && forall d | d in Downstream(s, x) :: d in ops
  }

  /** The downstream operations of every operation popped were pushed. */
  ghost predicate Expanded(s: GraphState, popped: seq<Entry>, ops: set<OpId>) {
    forall e | e in popped :: DownstreamIn(s, e.op, ops)
  }

  /** The set holds the downstream operations of each of its members: the
      search from its start ran out of operations to visit. */
  ghost predicate DownstreamClosed(s: GraphState, ops: set<OpId>) {
    forall x | x in ops :: DownstreamIn(s, x, ops)
  }

  lemma ExpandedStep(s: GraphState, popped: seq<Entry>, ops: set<OpId>, ops': set<OpId>, e: Entry)
    requires Expanded(s, popped, ops) && ops <= ops' && DownstreamIn(s, e.op, ops')
    ensures Expanded(s, popped + [e], ops')
  {
    forall x | x in popped + [e] ensures DownstreamIn(s, x.op, ops') {
      if x != e {
        assert x in popped;
      }
    }
  }

  /** Once the queue is drained every entry was popped, so the operations
      reached are closed under downstream. */
  lemma SearchDrained(s: GraphState, depth: map<OpId, int>, op: OpId,
                      data: seq<Entry>, idx: nat, ops: set<OpId>, popped: seq<Entry>)
    requires SearchInv(s, depth, op, data, ops, popped) && OrderlyState(data, idx, popped)
    requires idx >= |data| && ops == OpsOf(data) && Expanded(s, popped, ops)
    ensures op in ops && DownstreamClosed(s, ops)
  {
    assert data == data[..idx] == popped;
    forall x | x in ops ensures DownstreamIn(s, x, ops) {
      var e :| e in data && e.op == x;
    }
  }

  /** The last entry popped carries the depth of its operation. */
  lemma SearchLast(s: GraphState, depth: map<OpId, int>, op: OpId,
                   data: seq<Entry>, idx: nat, ops: set<OpId>, popped: seq<Entry>, it: OpId)
    requires SearchInv(s, depth, op, data, ops, popped) && OrderlyState(data, idx, popped) && ops == OpsOf(data)
    requires popped != [] && popped[|popped| - 1].op == it
    ensures it in depth && popped[|popped| - 1].depth == depth[it] && (it == op || depth[op] < depth[it])
    ensures it in ops && LiveOp(s, it)
  {
    assert popped[|popped| - 1] in data[..idx];
    assert popped[|popped| - 1] in data;
  }

  /** The downstream operations of o are live and, when they have a depth,
      deeper than o. */
  ghost predicate DeeperDownstream(s: GraphState, depth: map<OpId, int>, o: OpId)
    requires o in s.ops && o in depth
  {
    forall d | d in Downstream(s, o) :: LiveOp(s, d) && (d in depth ==> depth[o] < depth[d])
  }

  lemma DownstreamDeeper(s: GraphState, depth: map<OpId, int>, o: OpId)
    requires WellFormed(s) && LiveOp(s, o) && DepthConsistent(s, depth) && o in depth
    ensures DeeperDownstream(s, depth, o)
  {
    NeighboursAreLive(s, o);
    forall d | d in Downstream(s, o) ensures LiveOp(s, d) && (d in depth ==> depth[o] < depth[d]) {
      if d in depth {
        DownstreamUpstreamDual(s, o, d);
        DepthAboveUpstream(s, depth, d, o);
      }
    }
  }

  lemma SearchPush(s: GraphState, depth: map<OpId, int>, op: OpId,
                   data: seq<Entry>, ops: set<OpId>, popped: seq<Entry>, d: OpId)
    requires SearchInv(s, depth, op, data, ops, popped)
    requires LiveOp(s, d) && d in depth && depth[op] < depth[d]
    ensures SearchInv(s, depth, op, data + [Entry(depth[d], d)], ops + {d}, popped)
  {
  }

  lemma SearchPop(s: GraphState, depth: map<OpId, int>, op: OpId,
                  data: seq<Entry>, ops: set<OpId>, popped: seq<Entry>, data2: seq<Entry>, e: Entry)
    requires SearchInv(s, depth, op, data, ops, popped)
    requires multiset(data2) == multiset(data) && e in data2
    ensures SearchInv(s, depth, op, data2, ops, popped + [e])
  {
    forall x | x in data2 ensures x in data {
      assert x in multiset(data2);
    }
    var w :| w in popped && w.op == op;
    assert w in popped + [e];
  }

  /** Every operation reached has a depth. */
  lemma OpsHaveDepth(s: GraphState, depth: map<OpId, int>, op: OpId,
                     data: seq<Entry>, ops: set<OpId>, popped: seq<Entry>)
    requires SearchInv(s, depth, op, data, ops, popped) && ops == OpsOf(data)
    ensures forall x | x in ops :: x in depth
  {
    forall x | x in ops ensures x in depth {
      var e :| e in data && e.op == x;
    }
  }

  /** Once the queue is drained, the last operation popped is the deepest
      reached. */
  lemma Drained(s: GraphState, depth: map<OpId, int>, op: OpId,
                data: seq<Entry>, idx: nat, ops: set<OpId>, popped: seq<Entry>, it: OpId)
    requires SearchInv(s, depth, op, data, ops, popped) && OrderlyState(data, idx, popped)
    requires idx == |data| && ops == OpsOf(data)
    requires popped != [] && popped[|popped| - 1].op == it && it != op
    ensures it in ops && op in ops && depth[op] < depth[it]
    ensures forall x | x in ops :: x in depth && depth[x] <= depth[it]
  {
    SearchLast(s, depth, op, data, idx, ops, popped, it);
    assert data == popped;
    var w :| w in popped && w.op == op;
    forall x | x in ops ensures x in depth && depth[x] <= depth[it] {
      var e :| e in data && e.op == x;
      var k :| 0 <= k < |data| && data[k] == e;
      assert data[k].depth <= data[idx - 1].depth;
    }
  }

  /** `BlockBuilder(graph, topo_order)`: the builder with its depths; an
      `AssertionError` when the order is not topological. */
  method NewBlockBuilder(graph: GraphState, order: seq<OpId>, search: (OpId, OpId) -> set<OpId>)
    returns (r: Result<BlockBuilder, BuildError>)
    requires WellFormed(graph) && forall o | o in order :: LiveOp(graph, o)
    ensures r.Err? <==> !Topological(graph, order)
    ensures r.Ok? ==> && fresh(r.value) && r.value.Valid()
                      && r.value.graph == graph && r.value.order == order && r.value.search == search
                      && r.value.depth.Keys == Elements(order)
  {
    var b := new BlockBuilder(graph, order, search);
    var outcome := b.InitializeDepth();
    if outcome.Fail? {
      return Err(outcome.error);
    }
    return Ok(b);
  }
}
