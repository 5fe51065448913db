/** `GraphFormatter` (mppq/ir/morph.py): passes that normalise a graph in
    place.  Each pass is a method of `GraphFormatter` over the shared
    `Graph` object; the facts its loops need about single steps are lemmas
    over `GraphState` snapshots. */
module Formatter {
  import opened Wrappers
  import opened Seqs
  import opened Ir
  import opened Rewrites
  import opened FormatSpecs
  import opened ConstantSpecs
  import opened ParamSpecs

  // ---------------------------------------------------------------------
  // delete_isolated
  // ---------------------------------------------------------------------

  /** An operation phase 1 of `delete_isolated` blacklists: nothing
      consumes its outputs and none of their names is a graph output. */
  predicate DeadEnd(s: GraphState, o: OpId)
    requires o in s.ops
  {
    && Downstream(s, o) == []
    && forall w | w in s.ops[o].outputs :: w in s.vars ==> s.vars[w].name !in s.outputs
  }

  /** `op.name in graph.operations`, the test phase 2 applies to the
      producer and the consumers of a variable. */
  predicate Registered(s: GraphState, o: OpId) {
    o in s.ops && s.ops[o].name in s.operations
  }

  /** A variable phase 2 blacklists, by the four tests of the source in
      order: no producer and no consumer; a producer missing from the
      graph; a consumer missing from the graph; no producer, not a graph
      input and no consumer. */
  predicate Orphan(s: GraphState, v: VarId)
    requires v in s.vars
  {
    var x := s.vars[v];
    || (x.sourceOp.None? && x.destOps == [])
    || (x.sourceOp.Some? && !Registered(s, x.sourceOp.value))
    || (exists o | o in x.destOps :: !Registered(s, o))
    || (x.sourceOp.None? && x.name !in s.inputs && x.destOps == [])
  }

  /** No operation is left that phase 1 would remove. */
  ghost predicate Pruned(s: GraphState) {
    forall o | LiveOp(s, o) :: !DeadEnd(s, o)
  }

  /** No variable is left that phase 2 would remove. */
  ghost predicate Swept(s: GraphState) {
    forall v | LiveVar(s, v) :: !Orphan(s, v)
  }

  /** Graph outputs that have a producer.  The producer of such a variable
      is never blacklisted, so both survive `delete_isolated`. */
  ghost function Anchors(s: GraphState): set<VarId> {
    set w | w in s.vars && LiveVar(s, w) && s.vars[w].name in s.outputs && s.vars[w].sourceOp.Some?
  }

  /** In a well-formed graph the last three tests of phase 2 add nothing:
      a variable is blacklisted exactly when it has neither a producer nor
      a consumer, graph inputs included. */
  lemma OrphanInWellFormed(s: GraphState, v: VarId)
    requires WellFormed(s) && LiveVar(s, v)
    ensures Orphan(s, v) <==> s.vars[v].sourceOp.None? && s.vars[v].destOps == []
  {
    var x := s.vars[v];
    assert x.sourceOp.Some? ==> LiveOp(s, x.sourceOp.value);
    assert forall o | o in x.destOps :: LiveOp(s, o);
  }

  /** The producer of a graph output is live and is not a dead end. */
  lemma AnchorProducerKept(s: GraphState, w: VarId)
    requires WellFormed(s) && w in Anchors(s)
    ensures LiveOp(s, s.vars[w].sourceOp.value) && !DeadEnd(s, s.vars[w].sourceOp.value)
  {
    var p := s.vars[w].sourceOp.value;
    assert LiveOp(s, p);
    assert multiset(s.ops[p].outputs)[w] == 1;
  }

  /** The outputs of a live operation are distinct variables. */
  lemma OutputsDistinct(s: GraphState, o: OpId)
    requires WellFormed(s) && LiveOp(s, o)
    ensures Distinct(s.ops[o].outputs)
  {
    forall x | x in s.ops[o].outputs ensures multiset(s.ops[o].outputs)[x] <= 1 {
      assert LiveVar(s, x);
    }
    DistinctByCounts(s.ops[o].outputs);
  }

  /** A variable listed among a live operation's outputs has it as
      producer. */
  lemma OutputProducer(s: GraphState, o: OpId, v: VarId)
    requires WellFormed(s) && LiveOp(s, o) && v in s.ops[o].outputs
    ensures LiveVar(s, v) && s.vars[v].sourceOp == Some(o)
  {
    assert LiveVar(s, v);
    assert multiset(s.ops[o].outputs)[v] > 0;
  }

  /** Removing another variable keeps a graph output and its record. */
  lemma RemoveVariableKeepsAnchor(s: GraphState, x: VarId, w: VarId)
    requires LiveVar(s, x) && w in Anchors(s) && w != x
    ensures w in Anchors(RemoveVariableState(s, x))
  {
    var r := RemoveVariableState(s, x);
    var n := s.vars[w].name;
    assert s.variables[n] == w;
    assert n != s.vars[x].name;
    assert r.vars == s.vars && r.variables == s.variables - {s.vars[x].name};
    assert LiveVar(r, w);
    assert n in r.outputs;
  }

  /** `remove_variable` takes exactly the removed variable out of the
      anchors. */
  lemma RemoveVariableAnchors(s: GraphState, v: VarId)
    requires WellFormed(s) && LiveVar(s, v)
    ensures Anchors(RemoveVariableState(s, v)) == Anchors(s) - {v}
  {
    var r := RemoveVariableState(s, v);
    RemoveVariableLiveSets(s, v);
    forall w | w in Anchors(s) - {v}
      ensures w in Anchors(r)
    {
      RemoveVariableKeepsAnchor(s, v, w);
    }
    assert v !in LiveVars(r);
  }

  /** Removing an operation other than its producer keeps a variable's
      producer. */
  lemma RemoveOperationKeepsSource(s: GraphState, b: OpId, w: VarId)
    requires WellFormed(s) && LiveOp(s, b) && LiveVar(s, w) && s.vars[w].sourceOp != Some(b)
    ensures RemoveOperationState(s, b).vars[w] == s.vars[w].(destOps := RemoveOperationState(s, b).vars[w].destOps)
  {
    if w in s.ops[b].outputs {
      OutputProducer(s, b, w);
    }
  }

  /** Removing an operation other than its producer keeps a graph output. */
  lemma RemoveOperationKeepsAnchor(s: GraphState, b: OpId, w: VarId)
    requires WellFormed(s) && LiveOp(s, b) && w in Anchors(s) && s.vars[w].sourceOp != Some(b)
    ensures w in Anchors(RemoveOperationState(s, b))
    ensures RemoveOperationState(s, b).vars[w].sourceOp == s.vars[w].sourceOp
  {
    RemoveOperationKeepsSource(s, b, w);
    RemoveOperationLiveness(s, b);
  }

  /** A variable with neither producer nor consumer is linked to no
      operation, so removing it leaves every operation as it was. */
  lemma RemoveOrphanKeepsOps(s: GraphState, v: VarId)
    requires v in s.vars && s.vars[v].sourceOp.None? && s.vars[v].destOps == []
    ensures RemoveVariableState(s, v).ops == s.ops
  {
    var r := RemoveVariableState(s, v);
    forall o | o in s.ops ensures r.ops[o] == s.ops[o] {
      assert r.ops[o] == Detached(s.ops[o], v, false, false);
    }
  }

  lemma OrphanKeepsConsumers(s: GraphState, v: VarId, o: OpId)
    requires v in s.vars && s.vars[v].sourceOp.None? && s.vars[v].destOps == []
    requires o in s.ops && Downstream(s, o) != []
    ensures !DeadEnd(RemoveVariableState(s, v), o)
  {
    RemoveOrphanKeepsOps(s, v);
    SameArenaSameNeighbours(s, RemoveVariableState(s, v), o);
  }

  lemma OrphanKeepsNamedOutput(s: GraphState, v: VarId, o: OpId, w: VarId)
    requires NamesConsistent(s) && LiveVar(s, v) && LiveVar(s, w) && w != v
    requires s.vars[v].sourceOp.None? && s.vars[v].destOps == []
    requires o in s.ops && w in s.ops[o].outputs && s.vars[w].name in s.outputs
    ensures !DeadEnd(RemoveVariableState(s, v), o)
  {
    RemoveOrphanKeepsOps(s, v);
    var r := RemoveVariableState(s, v);
    assert s.variables[s.vars[w].name] == w;
    assert s.vars[w].name != s.vars[v].name;
    assert w in r.ops[o].outputs && s.vars[w].name in r.outputs;
  }

  lemma RemoveOrphanKeepsLiveOp(s: GraphState, v: VarId, o: OpId)
    requires WellFormed(s) && LiveVar(s, v) && s.vars[v].sourceOp.None? && s.vars[v].destOps == []
    requires LiveOp(s, o) && !DeadEnd(s, o)
    ensures !DeadEnd(RemoveVariableState(s, v), o)
  {
    if Downstream(s, o) == [] {
      var w :| w in s.ops[o].outputs && w in s.vars && s.vars[w].name in s.outputs;
      OutputProducer(s, o, w);
      OrphanKeepsNamedOutput(s, v, o, w);
    } else {
      OrphanKeepsConsumers(s, v, o);
    }
  }

  /** Removing such a variable keeps every fact phase 1 established. */
  lemma RemoveOrphan(s: GraphState, v: VarId)
    requires WellFormed(s) && LiveVar(s, v) && s.vars[v].sourceOp.None? && s.vars[v].destOps == []
    ensures RemoveVariableState(s, v).ops == s.ops
    ensures Pruned(s) ==> Pruned(RemoveVariableState(s, v))
  {
    RemoveOrphanKeepsOps(s, v);
    var r := RemoveVariableState(s, v);
    if Pruned(s) {
      RemoveVariableLiveness(s, v);
      forall o | LiveOp(r, o) ensures !DeadEnd(r, o) {
        RemoveOrphanKeepsLiveOp(s, v, o);
      }
    }
  }

  /** The operations phase 1 blacklists, gathered by a loop over
      `graph.operations`. */
  method DeadEndOps(s: GraphState) returns (blacklist: set<OpId>)
    requires NamesConsistent(s)
    ensures forall o :: o in blacklist <==> LiveOp(s, o) && DeadEnd(s, o)
  {
    blacklist := {};
    var names := s.operations.Keys;
    while names != {}
      invariant names <= s.operations.Keys
      invariant forall o :: o in blacklist <==> LiveOp(s, o) && DeadEnd(s, o) && s.ops[o].name !in names
      decreases names
    {
      var n :| n in names;
      var o := s.operations[n];
      if DeadEnd(s, o) {
        blacklist := blacklist + {o};
      }
      names := names - {n};
    }
  }

  /** The variables phase 2 blacklists, gathered by a loop over
      `graph.variables`. */
  method OrphanVars(s: GraphState) returns (blacklist: set<VarId>)
    requires NamesConsistent(s)
    ensures forall v :: v in blacklist <==> LiveVar(s, v) && Orphan(s, v)
  {
    blacklist := {};
    var names := s.variables.Keys;
    while names != {}
      invariant names <= s.variables.Keys
      invariant forall v :: v in blacklist <==> LiveVar(s, v) && Orphan(s, v) && s.vars[v].name !in names
      decreases names
    {
      var n :| n in names;
      var v := s.variables[n];
      if Orphan(s, v) {
        blacklist := blacklist + {v};
      }
      names := names - {n};
    }
  }

  // ---------------------------------------------------------------------
  // truncate_on_var
  // ---------------------------------------------------------------------

  /** p is a walk along producer-to-consumer edges that starts at one of
      the starts. */
  ghost predicate IsWalk(s: GraphState, starts: seq<OpId>, p: seq<OpId>) {
    && |p| > 0 && p[0] in starts
    && forall i | 0 <= i < |p| - 1 :: p[i] in s.ops && p[i + 1] in Downstream(s, p[i])
  }

  /** o is downstream-reachable from the starts (the starts included). */
  ghost predicate Reachable(s: GraphState, starts: seq<OpId>, o: OpId) {
    exists p :: IsWalk(s, starts, p) && p[|p| - 1] == o
  }

  /** A set holding the starts and closed under `Downstream` holds every
      reachable operation. */
  lemma {:induction false} ClosedSetHoldsWalk(s: GraphState, starts: seq<OpId>, m: set<OpId>, p: seq<OpId>)
    requires IsWalk(s, starts, p)
    requires forall o | o in starts :: o in m
    requires forall o, d | o in m && o in s.ops && d in Downstream(s, o) :: d in m
    ensures p[|p| - 1] in m
    decreases |p|
  {
    if |p| > 1 {
      var q := p[..|p| - 1];
      assert IsWalk(s, starts, q);
      ClosedSetHoldsWalk(s, starts, m, q);
      assert p[|p| - 2] == q[|q| - 1];
    }
  }

  lemma ReachableStart(s: GraphState, starts: seq<OpId>, o: OpId)
    requires o in starts
    ensures Reachable(s, starts, o)
  {
    assert IsWalk(s, starts, [o]);
  }

  lemma ReachableStep(s: GraphState, starts: seq<OpId>, o: OpId, d: OpId)
    requires Reachable(s, starts, o) && o in s.ops && d in Downstream(s, o)
    ensures Reachable(s, starts, d)
  {
    var p :| IsWalk(s, starts, p) && p[|p| - 1] == o;
    var q := p + [d];
    assert forall i | 0 <= i < |p| :: q[i] == p[i];
    assert IsWalk(s, starts, q);
  }

  /** The downstream operations of a live operation are live. */
  ghost predicate DownClosed(s: GraphState) {
    forall o, d | LiveOp(s, o) && d in Downstream(s, o) :: LiveOp(s, d)
  }

  lemma WellFormedDownClosed(s: GraphState)
    requires WellFormed(s)
    ensures DownClosed(s)
  {
    forall o | LiveOp(s, o) ensures forall d | d in Downstream(s, o) :: LiveOp(s, d) {
      NeighboursAreLive(s, o);
    }
  }

  /** When the worklist is exhausted, the marked set holds the starts and
      is closed under `Downstream`, so it holds every reachable operation. */
  lemma WorklistDone(s: GraphState, starts: seq<OpId>, queue: seq<OpId>, marked: set<OpId>)
    requires forall q | q in starts :: q in queue
    requires forall j | 0 <= j < |queue| :: queue[j] in marked
    requires forall o | o in marked :: Reachable(s, starts, o)
    requires forall o, d | o in marked && o in s.ops && d in Downstream(s, o) :: d in queue
    ensures forall o :: o in marked <==> Reachable(s, starts, o)
  {
    forall o, d | o in marked && o in s.ops && d in Downstream(s, o) ensures d in marked {
      var j := IndexOf(queue, d);
    }
    forall q | q in starts ensures q in marked {
      var j := IndexOf(queue, q);
    }
    forall o | Reachable(s, starts, o) ensures o in marked {
      var p :| IsWalk(s, starts, p) && p[|p| - 1] == o;
      ClosedSetHoldsWalk(s, starts, marked, p);
    }
  }

  /** The worklist of `truncate_on_var`: `delete_queue` starts as the
      consumers of the variable, `didx` walks it, and every operation seen
      for the first time is marked and has its downstream operations
      appended.  The marked set is exactly the reachable operations. */
  method CollectDownstream(s: GraphState, starts: seq<OpId>) returns (marked: set<OpId>)
    requires DownClosed(s) && forall o | o in starts :: LiveOp(s, o)
    ensures forall o :: o in marked <==> Reachable(s, starts, o)
    ensures marked <= LiveOps(s)
  {
    marked := {};
    var queue := starts;
    var didx := 0;
    forall q | q in starts ensures Reachable(s, starts, q) {
      ReachableStart(s, starts, q);
    }
    while didx < |queue|
      invariant didx <= |queue|
      invariant forall q | q in starts :: q in queue
      invariant forall q | q in queue :: LiveOp(s, q) && Reachable(s, starts, q)
      invariant forall j | 0 <= j < didx :: queue[j] in marked
      invariant forall o | o in marked :: o in LiveOps(s) && Reachable(s, starts, o)
      invariant forall o, d | o in marked && o in s.ops && d in Downstream(s, o) :: d in queue
      decreases LiveOps(s) - marked, |queue| - didx
    {
      var first := queue[didx];
      assert first in queue;
      if first !in marked {
        marked := marked + {first};
        var next := Downstream(s, first);
        forall d | d in next ensures Reachable(s, starts, d) {
          ReachableStep(s, starts, first, d);
        }
        queue := queue + next;
      }
      didx := didx + 1;
    }
    WorklistDone(s, starts, queue, marked);
  }

  /** One step of the loop in `RemoveOutputVariables`: after i removals
      from the outputs `outs` of o, the variable at index i is outs[2i], it
      is a live variable produced by o, and removing it consumes two more
      positions of outs. */
  lemma OutputRemovalStep(t: GraphState, o: OpId, outs: seq<VarId>, i: nat)
    requires WellFormed(t) && LiveOp(t, o)
    requires t.ops[o].outputs == OddIndexed(outs[..Consumed(|outs|, i)]) + outs[Consumed(|outs|, i)..]
    requires i < |t.ops[o].outputs|
    ensures 2 * i < |outs| && t.ops[o].outputs[i] == outs[2 * i]
    ensures LiveVar(t, outs[2 * i]) && t.vars[outs[2 * i]].sourceOp == Some(o)
    ensures RemoveVariableState(t, outs[2 * i]).ops[o].outputs
            == OddIndexed(outs[..Consumed(|outs|, i + 1)]) + outs[Consumed(|outs|, i + 1)..]
    ensures EvenIndexed(outs[..Consumed(|outs|, i + 1)]) == EvenIndexed(outs[..Consumed(|outs|, i)]) + [outs[2 * i]]
  {
    var cur := t.ops[o].outputs;
    assert Consumed(|outs|, i) == 2 * i;
    var v := cur[i];
    RemovalStep(outs, i);
    OutputsDistinct(t, o);
    WithoutDistinct(cur, i);
    OutputProducer(t, o, v);
    var r := RemoveVariableState(t, v);
    assert r.ops[o] == Detached(t.ops[o], v, o in t.vars[v].destOps, true);
  }

  /** The state after `remove_variable` has been called on the outputs of
      `o` as the loop over `op.outputs` sees them, with the loop index at
      `i`: the outputs at even positions below the cursor are gone, from the
      operation, the live variables and the anchors, and nothing else. */
  ghost predicate Stripped(s: GraphState, t: GraphState, o: OpId, outs: seq<VarId>, i: nat) {
    var c := Consumed(|outs|, i);
    && WellFormed(t) && LiveOp(t, o)
    && t.ops[o].outputs == OddIndexed(outs[..c]) + outs[c..]
    && t.vars == s.vars
    && LiveOps(t) == LiveOps(s)
    && LiveVars(t) == LiveVars(s) - Elements(EvenIndexed(outs[..c]))
    && Anchors(t) == Anchors(s) - Elements(EvenIndexed(outs[..c]))
    && StrippedFrame(s, t, o, Elements(EvenIndexed(outs[..c])))
  }

  /** The rest of the state while the variables in e are removed from the
      outputs of o: the name dictionaries lose exactly their entries,
      every live operation loses them from its inputs, the others keep
      their outputs, and nothing else in the arena changes. */
  ghost predicate StrippedFrame(s: GraphState, t: GraphState, o: OpId, e: set<VarId>) {
    && t.ops.Keys == s.ops.Keys
    && t.operations == s.operations
    && t.variables == WithoutValues(s.variables, e)
    && t.inputs == WithoutValues(s.inputs, e)
    && t.outputs == WithoutValues(s.outputs, e)
    && (forall p | p in s.ops && !LiveOp(s, p) :: t.ops[p] == s.ops[p])
    && (forall p | LiveOp(s, p) ::
          t.ops[p] == s.ops[p].(inputs := DropAll(s.ops[p].inputs, e),
                                outputs := if p == o then t.ops[p].outputs else s.ops[p].outputs))
  }

  lemma StrippedFrameStart(s: GraphState, o: OpId)
    ensures StrippedFrame(s, s, o, {})
  {
    WithoutNoValues(s.variables);
    WithoutNoValues(s.inputs);
    WithoutNoValues(s.outputs);
    forall p | LiveOp(s, p) ensures DropAll(s.ops[p].inputs, {}) == s.ops[p].inputs {
      DropAllNothing(s.ops[p].inputs);
    }
  }

  /** Removing one more output v of o extends the frame by v. */
  lemma DetachFrame(s: GraphState, t: GraphState, o: OpId, e: set<VarId>, v: VarId)
    requires StrippedFrame(s, t, o, e) && WellFormed(t) && LiveVar(t, v) && LiveOp(s, o)
    requires t.vars[v].sourceOp == Some(o)
    ensures StrippedFrame(s, RemoveVariableState(t, v), o, e + {v})
  {
    DropNameEntry(t, t.variables, s.variables, e, v);
    DropNameEntry(t, t.inputs, s.inputs, e, v);
    DropNameEntry(t, t.outputs, s.outputs, e, v);
    DetachKeepsDead(s, t, o, e, v);
    DetachKeepsLive(s, t, o, e, v);
  }

  lemma DetachKeepsDead(s: GraphState, t: GraphState, o: OpId, e: set<VarId>, v: VarId)
    requires StrippedFrame(s, t, o, e) && WellFormed(t) && LiveVar(t, v) && LiveOp(s, o)
    requires t.vars[v].sourceOp == Some(o)
    ensures forall p | p in s.ops && !LiveOp(s, p) :: RemoveVariableState(t, v).ops[p] == s.ops[p]
  {
    var r := RemoveVariableState(t, v);
    forall p | p in s.ops && !LiveOp(s, p) ensures r.ops[p] == s.ops[p] {
      assert t.ops[p].name == s.ops[p].name;
      assert !LiveOp(t, p);
      assert p !in t.vars[v].destOps;
    }
  }

  lemma DetachKeepsLive(s: GraphState, t: GraphState, o: OpId, e: set<VarId>, v: VarId)
    requires StrippedFrame(s, t, o, e) && WellFormed(t) && LiveVar(t, v) && LiveOp(s, o)
    requires t.vars[v].sourceOp == Some(o)
    ensures forall p | LiveOp(s, p) ::
              RemoveVariableState(t, v).ops[p]
              == s.ops[p].(inputs := DropAll(s.ops[p].inputs, e + {v}),
                           outputs := if p == o then RemoveVariableState(t, v).ops[p].outputs else s.ops[p].outputs)
  {
    var r := RemoveVariableState(t, v);
    forall p | LiveOp(s, p)
      ensures r.ops[p] == s.ops[p].(inputs := DropAll(s.ops[p].inputs, e + {v}),
                                     outputs := if p == o then r.ops[p].outputs else s.ops[p].outputs)
    {
      assert t.ops[p].name == s.ops[p].name;
      assert LiveOp(t, p);
      DetachInputs(s, t, p, e, v);
    }
  }

  /** The inputs of a live operation once v is removed. */
  lemma DetachInputs(s: GraphState, t: GraphState, p: OpId, e: set<VarId>, v: VarId)
    requires WellFormed(t) && LiveVar(t, v) && LiveOp(t, p) && p in s.ops
    requires t.ops[p].inputs == DropAll(s.ops[p].inputs, e)
    ensures RemoveVariableState(t, v).ops[p].inputs == DropAll(s.ops[p].inputs, e + {v})
  {
    var x := t.vars[v];
    DropAllStep(s.ops[p].inputs, e, v);
    if p !in x.destOps {
      assert multiset(t.ops[p].inputs)[v] == 0;
      DropAbsent(t.ops[p].inputs, v);
    }
  }

  lemma StripStart(s: GraphState, o: OpId)
    requires WellFormed(s) && LiveOp(s, o)
    ensures Stripped(s, s, o, s.ops[o].outputs, 0)
  {
    StrippedFrameStart(s, o);
    var outs := s.ops[o].outputs;
    assert outs[..Consumed(|outs|, 0)] == [];
    assert OddIndexed<VarId>([]) == [] && EvenIndexed<VarId>([]) == [];
    assert Elements<VarId>([]) == {};
    assert outs[0..] == outs;
  }

  lemma StripStep(s: GraphState, t: GraphState, o: OpId, outs: seq<VarId>, i: nat)
    requires Stripped(s, t, o, outs, i) && i < |t.ops[o].outputs|
    ensures t.ops[o].outputs[i] in t.vars && LiveVar(t, t.ops[o].outputs[i])
    ensures Stripped(s, RemoveVariableState(t, t.ops[o].outputs[i]), o, outs, i + 1)
  {
    OutputRemovalStep(t, o, outs, i);
    var v := t.ops[o].outputs[i];
    var r := RemoveVariableState(t, v);
    var e := EvenIndexed(outs[..Consumed(|outs|, i)]);
    var e' := EvenIndexed(outs[..Consumed(|outs|, i + 1)]);
    assert e' == e + [v];
    ElementsSnoc(e, v);
    assert Elements(e') == Elements(e) + {v};
    RemoveVariableKeepsWellFormed(t, v);
    RemoveVariableLiveSets(t, v);
    RemoveVariableAnchors(t, v);
    StripSets(LiveVars(s), LiveVars(t), LiveVars(r), Elements(e), v);
    StripSets(Anchors(s), Anchors(t), Anchors(r), Elements(e), v);
    DetachFrame(s, t, o, Elements(e), v);
    assert o in LiveOps(r);
  }

  lemma StripSets<T>(a: set<T>, b: set<T>, c: set<T>, e: set<T>, v: T)
    requires b == a - e && c == b - {v}
    ensures c == a - (e + {v})
  {
  }

  lemma StripDone(s: GraphState, t: GraphState, o: OpId, outs: seq<VarId>, i: nat)
    requires Stripped(s, t, o, outs, i) && i <= |outs| && i >= |t.ops[o].outputs|
    ensures Stripped(s, t, o, outs, |outs|)
    ensures t.ops[o].outputs == OddIndexed(outs)
  {
    var c := Consumed(|outs|, i);
    assert |OddIndexed(outs[..c])| + |outs| - c <= i;
    assert c == |outs|;
    assert Consumed(|outs|, |outs|) == |outs|;
    assert outs[..c] == outs;
  }

  /** Every graph output with a producer in `s0` is still one in `t`,
      with the same producer. */
  ghost predicate KeepsAnchors(s0: GraphState, t: GraphState) {
    forall w | w in Anchors(s0) :: w in Anchors(t) && t.vars[w].sourceOp == s0.vars[w].sourceOp
  }

  lemma KeepsAnchorsTrans(s0: GraphState, s1: GraphState, s2: GraphState)
    requires KeepsAnchors(s0, s1) && KeepsAnchors(s1, s2)
    ensures KeepsAnchors(s0, s2)
  {
  }

  /** A blacklist computed by phase 1 is empty exactly when no live
      operation is a dead end. */
  lemma DeadEndsEmpty(s: GraphState, blacklist: set<OpId>)
    requires forall o :: o in blacklist <==> LiveOp(s, o) && DeadEnd(s, o)
    ensures blacklist == {} <==> Pruned(s)
  {
    if blacklist != {} {
      var o :| o in blacklist;
      assert LiveOp(s, o) && DeadEnd(s, o);
    }
  }

  /** A blacklist computed by phase 2 is empty exactly when no live
      variable is an orphan. */
  lemma OrphansEmpty(s: GraphState, blacklist: set<VarId>)
    requires forall v :: v in blacklist <==> LiveVar(s, v) && Orphan(s, v)
    ensures blacklist == {} <==> Swept(s)
  {
    if blacklist != {} {
      var v :| v in blacklist;
      assert LiveVar(s, v) && Orphan(s, v);
    }
  }

  /** The producer of an anchor is never blacklisted by phase 1. */
  lemma RoundSparesAnchors(s0: GraphState, s1: GraphState, blacklist: set<OpId>)
    requires WellFormed(s1) && KeepsAnchors(s0, s1)
    requires forall o :: o in blacklist <==> LiveOp(s1, o) && DeadEnd(s1, o)
    ensures forall w | w in Anchors(s0) :: s0.vars[w].sourceOp.value !in blacklist
  {
    forall w | w in Anchors(s0) ensures s0.vars[w].sourceOp.value !in blacklist {
      AnchorProducerKept(s1, w);
    }
  }

  /** The variables among the outputs of `o` at even positions, which
      `RemoveOutputVariables` removes, are produced by `o`. */
  lemma EvenOutputsProduced(t: GraphState, o: OpId)
    requires WellFormed(t) && LiveOp(t, o)
    ensures forall x | x in Elements(EvenIndexed(t.ops[o].outputs)) :: x in t.vars && t.vars[x].sourceOp == Some(o)
  {
    var outs := t.ops[o].outputs;
    var e := EvenIndexed(outs);
    forall x | x in Elements(e) ensures x in t.vars && t.vars[x].sourceOp == Some(o) {
      var j := IndexOf(e, x);
      assert x == outs[2 * j];
      OutputProducer(t, o, x);
    }
  }

  /** The operations phase 1 blacklists in one round. */
  ghost function DeadEnds(s: GraphState): set<OpId> {
    set o | o in s.ops && LiveOp(s, o) && DeadEnd(s, o)
  }

  /** The variables phase 1 removes together with the operations in
      `gone`: the outputs at even positions of each. */
  ghost function StrippedBy(s: GraphState, gone: set<OpId>): set<VarId> {
    set o, x | o in gone && o in s.ops && x in Elements(EvenIndexed(s.ops[o].outputs)) :: x
  }

  lemma StrippedByAdd(s: GraphState, gone: set<OpId>, o: OpId)
    requires o in s.ops
    ensures StrippedBy(s, gone + {o}) == StrippedBy(s, gone) + Elements(EvenIndexed(s.ops[o].outputs))
  {
  }

  /** Every producer-to-consumer edge of `s` between operations outside
      `gone` is an edge of `t`. */
  ghost predicate EdgesKept(s: GraphState, t: GraphState, gone: set<OpId>) {
    forall p, q | LiveOp(s, p) && p !in gone && q !in gone && q in Downstream(s, p) ::
      p in t.ops && q in Downstream(t, p)
  }

  /** `remove_operation` keeps the edges between other operations. */
  lemma RemoveOperationKeepsEdge(t: GraphState, o: OpId, p: OpId, q: OpId)
    requires o in t.ops && p in t.ops && p != o && q != o && q in Downstream(t, p)
    ensures q in Downstream(RemoveOperationState(t, o), p)
  {
    var r := RemoveOperationState(t, o);
    ConsumersOfMembership(t, t.ops[p].outputs, q);
    var w :| w in t.ops[p].outputs && w in t.vars && q in t.vars[w].destOps;
    assert q in r.vars[w].destOps;
    ConsumersOfMembership(r, r.ops[p].outputs, q);
  }

  /** p is a path of live operations along producer-to-consumer edges
      that ends at the producer of the graph output w. */
  ghost predicate FeedsOutput(s: GraphState, p: seq<OpId>, w: VarId) {
    && |p| > 0 && w in Anchors(s) && s.vars[w].sourceOp == Some(p[|p| - 1])
    && (forall i | 0 <= i < |p| :: LiveOp(s, p[i]))
    && (forall i | 0 <= i < |p| - 1 :: p[i] in s.ops && p[i + 1] in Downstream(s, p[i]))
  }

  /** No operation on such a path is a dead end. */
  lemma FeedNotDeadEnd(s: GraphState, p: seq<OpId>, w: VarId, i: nat)
    requires WellFormed(s) && FeedsOutput(s, p, w) && i < |p|
    ensures !DeadEnd(s, p[i])
  {
    if i == |p| - 1 {
      AnchorProducerKept(s, w);
    } else {
      assert p[i + 1] in Downstream(s, p[i]);
    }
  }

  /** The state inside one round of phase 1, after the operations in
      `gone` have been removed together with their outputs: the other
      operations keep their outputs and the edges between them. */
  ghost predicate OpsRound(s0: GraphState, s1: GraphState, t: GraphState, gone: set<OpId>) {
    && WellFormed(t)
    && t.ops.Keys == s1.ops.Keys
    && LiveOps(t) == LiveOps(s1) - gone
    && LiveVars(t) == LiveVars(s1) - StrippedBy(s1, gone)
    && KeepsAnchors(s0, t)
    && (forall p | LiveOp(s1, p) && p !in gone :: t.ops[p].outputs == s1.ops[p].outputs)
    && EdgesKept(s1, t, gone)
  }

  lemma OpsRoundStart(s: GraphState)
    requires WellFormed(s)
    ensures OpsRound(s, s, s, {})
  {
    assert StrippedBy(s, {}) == {};
  }

  lemma OpsRoundLive(s0: GraphState, s1: GraphState, t: GraphState, gone: set<OpId>, o: OpId)
    requires OpsRound(s0, s1, t, gone) && o in LiveOps(s1) && o !in gone
    ensures LiveOp(t, o)
  {
    assert o in LiveOps(t);
  }

  lemma OpsRoundStep(s0: GraphState, s1: GraphState, t: GraphState, t': GraphState, gone: set<OpId>, o: OpId)
    requires OpsRound(s0, s1, t, gone) && LiveOp(t, o)
    requires forall w | w in Anchors(s0) :: s0.vars[w].sourceOp != Some(o)
    requires Stripped(t, t', o, t.ops[o].outputs, |t.ops[o].outputs|)
    ensures LiveOp(t', o)
    ensures OpsRound(s0, s1, RemoveOperationState(t', o), gone + {o})
  {
    var outs := t.ops[o].outputs;
    assert Consumed(|outs|, |outs|) == |outs| && outs[..|outs|] == outs;
    EvenOutputsProduced(t, o);
    var r := RemoveOperationState(t', o);
    forall w | w in Anchors(s0)
      ensures w in Anchors(r) && r.vars[w].sourceOp == s0.vars[w].sourceOp
    {
      assert w in Anchors(t');
      RemoveOperationKeepsAnchor(t', o, w);
    }
    RemoveOperationLiveSets(t', o);
    RemoveOperationKeepsWellFormed(t', o);
    OpsRoundVars(s1, t, t', gone, o);
    OpsRoundEdges(s1, t, t', gone, o);
  }

  /** The variables and outputs part of `OpsRoundStep`. */
  lemma OpsRoundVars(s1: GraphState, t: GraphState, t': GraphState, gone: set<OpId>, o: OpId)
    requires LiveOp(t, o) && o in LiveOps(s1) && o !in gone && t.ops.Keys == s1.ops.Keys
    requires LiveOps(t) == LiveOps(s1) - gone
    requires LiveVars(t) == LiveVars(s1) - StrippedBy(s1, gone)
    requires forall p | LiveOp(s1, p) && p !in gone :: t.ops[p].outputs == s1.ops[p].outputs
    requires Stripped(t, t', o, t.ops[o].outputs, |t.ops[o].outputs|)
    requires LiveVars(RemoveOperationState(t', o)) == LiveVars(t')
    ensures LiveVars(RemoveOperationState(t', o)) == LiveVars(s1) - StrippedBy(s1, gone + {o})
    ensures forall p | LiveOp(s1, p) && p !in gone + {o} :: RemoveOperationState(t', o).ops[p].outputs == s1.ops[p].outputs
  {
    var outs := t.ops[o].outputs;
    assert Consumed(|outs|, |outs|) == |outs| && outs[..|outs|] == outs;
    assert outs == s1.ops[o].outputs;
    StrippedByAdd(s1, gone, o);
    forall p | LiveOp(s1, p) && p !in gone + {o}
      ensures RemoveOperationState(t', o).ops[p].outputs == s1.ops[p].outputs
    {
      assert p in LiveOps(t);
    }
  }

  /** The edges part of `OpsRoundStep`. */
  lemma OpsRoundEdges(s1: GraphState, t: GraphState, t': GraphState, gone: set<OpId>, o: OpId)
    requires LiveOp(t, o) && EdgesKept(s1, t, gone) && t.ops.Keys == s1.ops.Keys
    requires Stripped(t, t', o, t.ops[o].outputs, |t.ops[o].outputs|)
    ensures EdgesKept(s1, RemoveOperationState(t', o), gone + {o})
  {
    var outs := t.ops[o].outputs;
    var e := Elements(EvenIndexed(outs[..Consumed(|outs|, |outs|)]));
    forall p, q | LiveOp(s1, p) && p !in gone + {o} && q !in gone + {o} && q in Downstream(s1, p)
      ensures p in RemoveOperationState(t', o).ops && q in Downstream(RemoveOperationState(t', o), p)
    {
      assert q in Downstream(t, p);
      StrippedDownstream(t, t', o, e, p);
      RemoveOperationKeepsEdge(t', o, p, q);
    }
  }

  /** Removing the outputs of o keeps the consumers of every other
      operation. */
  lemma StrippedDownstream(t: GraphState, t': GraphState, o: OpId, e: set<VarId>, p: OpId)
    requires StrippedFrame(t, t', o, e) && t'.vars == t.vars && p in t.ops && p != o
    ensures p in t'.ops && Downstream(t', p) == Downstream(t, p)
  {
    assert t'.ops[p].outputs == t.ops[p].outputs;
    NeighboursOfSameArena(t', t, t.ops[p].outputs);
  }

  /** A path to a graph output survives a round that removes only dead
      ends. */
  lemma FeedsSurviveRound(s1: GraphState, t: GraphState, gone: set<OpId>, p: seq<OpId>, w: VarId)
    requires WellFormed(s1) && FeedsOutput(s1, p, w)
    requires LiveOps(t) == LiveOps(s1) - gone && KeepsAnchors(s1, t) && EdgesKept(s1, t, gone)
    requires forall o | o in gone :: o in s1.ops && DeadEnd(s1, o)
    ensures FeedsOutput(t, p, w)
  {
    assert w in Anchors(t);
    forall i | 0 <= i < |p| ensures p[i] !in gone && LiveOp(t, p[i]) {
      FeedNotDeadEnd(s1, p, w, i);
      assert p[i] in LiveOps(t);
    }
    forall i | 0 <= i < |p| - 1 ensures p[i] in t.ops && p[i + 1] in Downstream(t, p[i]) {
      assert p[i + 1] in Downstream(s1, p[i]);
    }
  }

  /** The state inside one round of phase 2, after the variables in
      `gone` have been removed. */
  ghost predicate VarsRound(s0: GraphState, s1: GraphState, t: GraphState, gone: set<VarId>) {
    && WellFormed(t)
    && t.ops == s0.ops && t.vars == s0.vars
    && t.operations == s0.operations
    && t.variables == WithoutValues(s0.variables, gone)
    && t.inputs == WithoutValues(s0.inputs, gone)
    && t.outputs == WithoutValues(s0.outputs, gone)
    && LiveOps(t) == LiveOps(s0)
    && LiveVars(t) == LiveVars(s1) - gone
    && (Pruned(s0) ==> Pruned(t))
    && Anchors(t) == Anchors(s0)
  }

  /** The variables phase 2 blacklists in one round. */
  ghost function Orphans(s: GraphState): set<VarId> {
    set v | v in s.vars && LiveVar(s, v) && Orphan(s, v)
  }

  lemma VarsRoundStart(s: GraphState)
    requires WellFormed(s)
    ensures VarsRound(s, s, s, {})
  {
    WithoutNoValues(s.variables);
    WithoutNoValues(s.inputs);
    WithoutNoValues(s.outputs);
  }

  /** Two rounds of phase 2 drop the entries of the variables that are
      live before the first and not after the second. */
  lemma SweepEntries(m0: map<string, VarId>, m1: map<string, VarId>, a: set<VarId>, b: set<VarId>, c: set<VarId>)
    requires m1 == WithoutValues(m0, a - b) && c <= b && b <= a
    ensures WithoutValues(m1, b - c) == WithoutValues(m0, a - c)
  {
    assert (a - b) + (b - c) == a - c;
  }

  /** The state of phase 2 after some rounds: only the name dictionaries
      have changed, by the entries of the variables no longer live. */
  ghost predicate Sweeping(s0: GraphState, t: GraphState) {
    && t.ops == s0.ops && t.vars == s0.vars && t.operations == s0.operations
    && t.variables == WithoutValues(s0.variables, LiveVars(s0) - LiveVars(t))
    && t.inputs == WithoutValues(s0.inputs, LiveVars(s0) - LiveVars(t))
    && t.outputs == WithoutValues(s0.outputs, LiveVars(s0) - LiveVars(t))
    && LiveOps(t) == LiveOps(s0) && LiveVars(t) <= LiveVars(s0)
    && (Pruned(s0) ==> Pruned(t))
    && Anchors(t) == Anchors(s0)
    && (Swept(s0) ==> t == s0)
  }

  lemma SweepStart(s0: GraphState)
    ensures Sweeping(s0, s0)
  {
    assert LiveVars(s0) - LiveVars(s0) == {};
    WithoutNoValues(s0.variables);
    WithoutNoValues(s0.inputs);
    WithoutNoValues(s0.outputs);
  }

  lemma SweepStep(s0: GraphState, s1: GraphState, t: GraphState)
    requires Sweeping(s0, s1)
    requires t.ops == s1.ops && t.vars == s1.vars && t.operations == s1.operations
    requires t.variables == WithoutValues(s1.variables, Orphans(s1))
    requires t.inputs == WithoutValues(s1.inputs, Orphans(s1))
    requires t.outputs == WithoutValues(s1.outputs, Orphans(s1))
    requires LiveOps(t) == LiveOps(s1) && LiveVars(t) == LiveVars(s1) - Orphans(s1)
    requires (Pruned(s1) ==> Pruned(t)) && Anchors(t) == Anchors(s1)
    requires Swept(s1) ==> t == s1
    ensures Sweeping(s0, t)
  {
    var a, b, c := LiveVars(s0), LiveVars(s1), LiveVars(t);
    assert b - c == Orphans(s1);
    SweepEntries(s0.variables, s1.variables, a, b, c);
    SweepEntries(s0.inputs, s1.inputs, a, b, c);
    SweepEntries(s0.outputs, s1.outputs, a, b, c);
  }

  lemma SweepDone(s0: GraphState, t: GraphState)
    requires Sweeping(s0, t)
    ensures forall p, w | FeedsOutput(s0, p, w) :: FeedsOutput(t, p, w)
  {
    forall p, w | FeedsOutput(s0, p, w) ensures FeedsOutput(t, p, w) {
      FeedsSameArena(s0, t, p, w);
    }
  }

  /** A graph with the same arena, the same live operations and the same
      graph outputs keeps every path to a graph output. */
  lemma FeedsSameArena(s: GraphState, t: GraphState, p: seq<OpId>, w: VarId)
    requires FeedsOutput(s, p, w) && s.ops == t.ops && s.vars == t.vars
    requires LiveOps(s) == LiveOps(t) && w in Anchors(t)
    ensures FeedsOutput(t, p, w)
  {
    forall i | 0 <= i < |p| ensures LiveOp(t, p[i]) {
      assert p[i] in LiveOps(s);
    }
    forall i | 0 <= i < |p| - 1 ensures p[i + 1] in Downstream(t, p[i]) {
      SameArenaSameNeighbours(s, t, p[i]);
    }
  }

  lemma VarsRoundStep(s0: GraphState, s1: GraphState, t: GraphState, gone: set<VarId>, v: VarId)
    requires VarsRound(s0, s1, t, gone) && v in LiveVars(s1) && v !in gone
    requires v in s0.vars && s0.vars[v].sourceOp.None? && s0.vars[v].destOps == []
    ensures LiveVar(t, v)
    ensures VarsRound(s0, s1, RemoveVariableState(t, v), gone + {v})
  {
    assert v in LiveVars(t);
    RemoveOrphan(t, v);
    RemoveVariableLiveSets(t, v);
    RemoveVariableAnchors(t, v);
    RemoveVariableKeepsWellFormed(t, v);
    DropNameEntry(t, t.variables, s0.variables, gone, v);
    DropNameEntry(t, t.inputs, s0.inputs, gone, v);
    DropNameEntry(t, t.outputs, s0.outputs, gone, v);
    assert v !in Anchors(t);
  }

  /** Variables of `s` that are live and produced by an operation outside
      `gone` are in `t` with the same producer. */
  ghost predicate KeepsSourcesOutside(s: GraphState, t: GraphState, gone: set<OpId>) {
    forall w | w in LiveVars(s) && s.vars[w].sourceOp.Some? && s.vars[w].sourceOp.value !in gone ::
      w in t.vars && t.vars[w].sourceOp == s.vars[w].sourceOp
  }

  /** The state of `truncate_on_var` after the operations in `gone` have
      been removed with `remove_operation`, which leaves their outputs
      in the graph without a producer. */
  ghost predicate CutState(s: GraphState, t: GraphState, gone: set<OpId>) {
    && WellFormed(t)
    && LiveOps(t) == LiveOps(s) - gone
    && LiveVars(t) == LiveVars(s)
    && KeepsSourcesOutside(s, t, gone)
    && (forall w | w in Anchors(s) && s.vars[w].sourceOp.value !in gone :: w in Anchors(t))
    && EdgesKept(s, t, gone)
  }

  lemma CutStart(s: GraphState)
    requires WellFormed(s)
    ensures CutState(s, s, {})
  {
  }

  lemma CutStep(s: GraphState, t: GraphState, gone: set<OpId>, o: OpId)
    requires CutState(s, t, gone) && o in LiveOps(s) && o !in gone
    ensures LiveOp(t, o)
    ensures CutState(s, RemoveOperationState(t, o), gone + {o})
  {
    assert o in LiveOps(t);
    var r := RemoveOperationState(t, o);
    RemoveOperationLiveSets(t, o);
    RemoveOperationKeepsWellFormed(t, o);
    forall w | w in LiveVars(s) && s.vars[w].sourceOp.Some? && s.vars[w].sourceOp.value !in gone + {o}
      ensures w in r.vars && r.vars[w].sourceOp == s.vars[w].sourceOp
    {
      assert w in LiveVars(t);
      RemoveOperationKeepsSource(t, o, w);
    }
    forall w | w in Anchors(s) && s.vars[w].sourceOp.value !in gone + {o}
      ensures w in Anchors(r)
    {
      assert w in LiveVars(s);
      RemoveOperationKeepsAnchor(t, o, w);
    }
    CutEdges(s, t, gone, o);
  }

  lemma CutEdges(s: GraphState, t: GraphState, gone: set<OpId>, o: OpId)
    requires EdgesKept(s, t, gone) && o in t.ops
    ensures EdgesKept(s, RemoveOperationState(t, o), gone + {o})
  {
    forall p, q | LiveOp(s, p) && p !in gone + {o} && q !in gone + {o} && q in Downstream(s, p)
      ensures p in RemoveOperationState(t, o).ops && q in Downstream(RemoveOperationState(t, o), p)
    {
      RemoveOperationKeepsEdge(t, o, p, q);
    }
  }

  /** A path to a graph output none of whose operations is cut survives
      the cut and the marking. */
  lemma FeedsSurviveCut(s: GraphState, t1: GraphState, t2: GraphState, gone: set<OpId>, p: seq<OpId>, w: VarId)
    requires CutState(s, t1, gone) && FeedsOutput(s, p, w)
    requires forall i | 0 <= i < |p| :: p[i] !in gone
    requires t2.ops == t1.ops && t2.vars == t1.vars && LiveOps(t2) == LiveOps(t1) && KeepsAnchors(t1, t2)
    ensures FeedsOutput(t2, p, w)
  {
    assert p[|p| - 1] !in gone;
    assert w in Anchors(t1);
    assert s.vars[w].sourceOp.value !in gone && w in LiveVars(s);
    assert t1.vars[w].sourceOp == s.vars[w].sourceOp;
    forall i | 0 <= i < |p| ensures LiveOp(t1, p[i]) {
      assert p[i] in LiveOps(t1);
    }
    forall i | 0 <= i < |p| - 1 ensures p[i] in t1.ops && p[i + 1] in Downstream(t1, p[i]) {
      assert p[i + 1] in Downstream(s, p[i]);
    }
    assert FeedsOutput(t1, p, w);
    FeedsSameArena(t1, t2, p, w);
  }

  /** `mark_variable_as_graph_output` keeps the live sets and the anchors,
      and makes the variable one when it has a producer. */
  lemma MarkOutputAnchors(s: GraphState, v: VarId)
    requires WellFormed(s) && LiveVar(s, v)
    ensures LiveOps(MarkOutputState(s, v)) == LiveOps(s)
    ensures LiveVars(MarkOutputState(s, v)) == LiveVars(s)
    ensures KeepsAnchors(s, MarkOutputState(s, v))
    ensures s.vars[v].sourceOp.Some? ==> v in Anchors(MarkOutputState(s, v))
  {
    var r := MarkOutputState(s, v);
    assert forall o :: LiveOp(r, o) == LiveOp(s, o);
    assert forall w :: LiveVar(r, w) == LiveVar(s, w);
  }

  /** What `truncate_on_var` leaves behind, from the states after its
      three steps: the cut, the optional marking, and `delete_isolated`. */
  lemma TruncateDone(s: GraphState, starts: seq<OpId>, marked: set<OpId>, t1: GraphState, t2: GraphState,
                     f: GraphState, v: VarId, markAsOutput: bool)
    requires forall o :: o in marked <==> Reachable(s, starts, o)
    requires CutState(s, t1, marked) && v in LiveVars(s)
    requires markAsOutput ==> t2 == MarkOutputState(t1, v)
    requires !markAsOutput ==> t2 == t1
    requires LiveVars(t1) == LiveVars(t2) && LiveOps(t1) == LiveOps(t2) && KeepsAnchors(t1, t2)
    requires markAsOutput && t1.vars[v].sourceOp.Some? ==> v in Anchors(t2)
    requires LiveOps(f) <= LiveOps(t2) && KeepsAnchors(t2, f)
    ensures forall o | o in LiveOps(f) :: o in LiveOps(s) && !Reachable(s, starts, o)
    ensures forall w | w in Anchors(s) && !Reachable(s, starts, s.vars[w].sourceOp.value) :: w in Anchors(f)
    ensures markAsOutput && s.vars[v].sourceOp.Some? && !Reachable(s, starts, s.vars[v].sourceOp.value) ==>
              v in Anchors(f)
  {
  }

  class GraphFormatter {
    const graph: Graph

    constructor (graph: Graph)
      ensures this.graph == graph
    {
      this.graph := graph;
    }

    /** `for var in op.outputs: graph.remove_variable(var)`.  The loop
        walks the list that each removal shrinks, so it removes the outputs
        at even positions and leaves those at odd positions in place. */
    method RemoveOutputVariables(o: OpId)
      requires graph.Valid() && LiveOp(graph.View(), o)
      modifies graph
      ensures graph.Valid()
      ensures Stripped(old(graph.View()), graph.View(), o, old(graph.ops[o].outputs), |old(graph.ops[o].outputs)|)
    {
      ghost var s := graph.View();
      ghost var outs := graph.ops[o].outputs;
      StripStart(s, o);
      var i := 0;
      while i < |graph.ops[o].outputs|
        invariant graph.Valid() && i <= |outs|
        invariant Stripped(s, graph.View(), o, outs, i)
        decreases |outs| - i
      {
        RemoveOutputAt(o, s, outs, i);
        i := i + 1;
      }
      StripDone(s, graph.View(), o, outs, i);
    }

    /** The body of the loop in `RemoveOutputVariables`: the removal of the
        output at the cursor. */
    method RemoveOutputAt(o: OpId, ghost s: GraphState, ghost outs: seq<VarId>, i: nat)
      requires graph.Valid() && Stripped(s, graph.View(), o, outs, i) && i < |graph.ops[o].outputs|
      modifies graph
      ensures graph.Valid() && Stripped(s, graph.View(), o, outs, i + 1) && i < |outs|
    {
      StripStep(s, graph.View(), o, outs, i);
      OutputRemovalStep(graph.View(), o, outs, i);
      graph.RemoveVariable(graph.ops[o].outputs[i]);
    }

    /** One round of phase 1 of `delete_isolated`: blacklist the dead-end
        operations and remove each with its outputs.  It reports whether
        the blacklist was empty, which is when the graph was already
        pruned. */
    method PruneOperationsRound() returns (done: bool)
      requires graph.Valid()
      modifies graph
      ensures graph.Valid()
      ensures done <==> Pruned(old(graph.View()))
      ensures done ==> graph.View() == old(graph.View())
      ensures !done ==> LiveOps(graph.View()) < old(LiveOps(graph.View()))
      ensures LiveOps(graph.View()) == old(LiveOps(graph.View())) - DeadEnds(old(graph.View()))
      ensures LiveVars(graph.View()) == old(LiveVars(graph.View())) - StrippedBy(old(graph.View()), DeadEnds(old(graph.View())))
      ensures forall p | p in LiveOps(graph.View()) :: graph.ops[p].outputs == old(graph.ops[p].outputs)
      ensures KeepsAnchors(old(graph.View()), graph.View())
      ensures forall p, w | FeedsOutput(old(graph.View()), p, w) :: FeedsOutput(graph.View(), p, w)
    {
      ghost var s1 := graph.View();
      var blacklist := DeadEndOps(graph.View());
      DeadEndsEmpty(s1, blacklist);
      assert blacklist == DeadEnds(s1);
      done := blacklist == {};
      if !done {
        RoundSparesAnchors(s1, s1, blacklist);
        RemoveOperationsIn(blacklist);
        var o :| o in blacklist;
        assert o in LiveOps(s1) && o !in LiveOps(graph.View());
        forall p, w | FeedsOutput(s1, p, w) ensures FeedsOutput(graph.View(), p, w) {
          FeedsSurviveRound(s1, graph.View(), blacklist, p, w);
        }
      } else {
        assert StrippedBy(s1, {}) == {};
      }
    }

    /** The loop of one round of phase 1 over its blacklist: each operation
        loses its outputs (as `RemoveOutputVariables` describes) and is
        removed. */
    method RemoveOperationsIn(blacklist: set<OpId>)
      requires graph.Valid() && blacklist <= LiveOps(graph.View())
      requires forall w | w in Anchors(graph.View()) :: graph.vars[w].sourceOp.value !in blacklist
      modifies graph
      ensures graph.Valid() && OpsRound(old(graph.View()), old(graph.View()), graph.View(), blacklist)
    {
      ghost var s1 := graph.View();
      OpsRoundStart(s1);
      var rest := blacklist;
      ghost var gone: set<OpId> := {};
      while rest != {}
        invariant graph.Valid() && gone + rest == blacklist && gone !! rest
        invariant OpsRound(s1, s1, graph.View(), gone)
        decreases rest
      {
        var o :| o in rest;
        RemoveBlacklisted(s1, gone, o);
        gone, rest := gone + {o}, rest - {o};
      }
    }

    /** The body of the loop in `RemoveOperationsIn`: operation o loses its
        outputs and is removed. */
    method RemoveBlacklisted(ghost s1: GraphState, ghost gone: set<OpId>, o: OpId)
      requires graph.Valid() && OpsRound(s1, s1, graph.View(), gone) && o in LiveOps(s1) && o !in gone
      requires forall w | w in Anchors(s1) :: s1.vars[w].sourceOp != Some(o)
      modifies graph
      ensures graph.Valid() && OpsRound(s1, s1, graph.View(), gone + {o})
    {
      ghost var t := graph.View();
      OpsRoundLive(s1, s1, t, gone, o);
      RemoveOutputVariables(o);
      OpsRoundStep(s1, s1, t, graph.View(), gone, o);
      graph.RemoveOperation(o);
    }

    /** Phase 1 of `delete_isolated`: rounds of removing blacklisted
        operations, with their outputs, until a round blacklists nothing.
        Every round that removes something shrinks the set of live
        operations. */
    method PruneOperations()
      requires graph.Valid()
      modifies graph
      ensures graph.Valid() && Pruned(graph.View())
      ensures LiveOps(graph.View()) <= old(LiveOps(graph.View()))
      ensures LiveVars(graph.View()) <= old(LiveVars(graph.View()))
      ensures KeepsAnchors(old(graph.View()), graph.View())
      ensures forall p, w | FeedsOutput(old(graph.View()), p, w) :: FeedsOutput(graph.View(), p, w)
      ensures old(Pruned(graph.View())) ==> graph.View() == old(graph.View())
    {
      ghost var s0 := graph.View();
      var done := false;
      while !done
        invariant graph.Valid()
        invariant done ==> Pruned(graph.View())
        invariant LiveOps(graph.View()) <= LiveOps(s0) && LiveVars(graph.View()) <= LiveVars(s0)
        invariant KeepsAnchors(s0, graph.View())
        invariant forall p, w | FeedsOutput(s0, p, w) :: FeedsOutput(graph.View(), p, w)
        invariant Pruned(s0) ==> graph.View() == s0
        decreases LiveOps(graph.View()), if done then 0 else 1
      {
        ghost var s1 := graph.View();
        done := PruneOperationsRound();
        KeepsAnchorsTrans(s0, s1, graph.View());
      }
    }

    /** One round of phase 2 of `delete_isolated`: blacklist the orphan
        variables and remove them.  It reports whether the blacklist was
        empty, which is when the graph was already swept. */
    method PruneVariablesRound() returns (done: bool)
      requires graph.Valid()
      modifies graph
      ensures graph.Valid()
      ensures done <==> Swept(old(graph.View()))
      ensures done ==> graph.View() == old(graph.View())
      ensures !done ==> LiveVars(graph.View()) < old(LiveVars(graph.View()))
      ensures graph.ops == old(graph.ops) && graph.vars == old(graph.vars)
      ensures graph.operations == old(graph.operations)
      ensures graph.variables == WithoutValues(old(graph.variables), Orphans(old(graph.View())))
      ensures graph.inputs == WithoutValues(old(graph.inputs), Orphans(old(graph.View())))
      ensures graph.outputs == WithoutValues(old(graph.outputs), Orphans(old(graph.View())))
      ensures LiveOps(graph.View()) == old(LiveOps(graph.View()))
      ensures LiveVars(graph.View()) == old(LiveVars(graph.View())) - Orphans(old(graph.View()))
      ensures old(Pruned(graph.View())) ==> Pruned(graph.View())
      ensures Anchors(graph.View()) == old(Anchors(graph.View()))
    {
      ghost var s1 := graph.View();
      var blacklist := OrphanVars(graph.View());
      OrphansEmpty(s1, blacklist);
      assert blacklist == Orphans(s1);
      done := blacklist == {};
      if done {
        WithoutNoValues(s1.variables);
        WithoutNoValues(s1.inputs);
        WithoutNoValues(s1.outputs);
      } else {
        forall v | v in blacklist ensures v in LiveVars(s1) && s1.vars[v].sourceOp.None? && s1.vars[v].destOps == [] {
          OrphanInWellFormed(s1, v);
        }
        RemoveVariablesIn(blacklist);
        var v :| v in blacklist;
        assert v in LiveVars(s1) && v !in LiveVars(graph.View());
      }
    }

    /** The loop of one round of phase 2 over its blacklist of variables
        with neither producer nor consumer. */
    method RemoveVariablesIn(blacklist: set<VarId>)
      requires graph.Valid()
      requires forall v | v in blacklist ::
                 v in LiveVars(graph.View()) && graph.vars[v].sourceOp.None? && graph.vars[v].destOps == []
      modifies graph
      ensures graph.Valid() && VarsRound(old(graph.View()), old(graph.View()), graph.View(), blacklist)
    {
      ghost var s1 := graph.View();
      VarsRoundStart(s1);
      var rest := blacklist;
      ghost var gone: set<VarId> := {};
      while rest != {}
        invariant graph.Valid() && gone + rest == blacklist && gone !! rest
        invariant VarsRound(s1, s1, graph.View(), gone)
        decreases rest
      {
        var v :| v in rest;
        RemoveOrphanVariable(s1, gone, v);
        gone, rest := gone + {v}, rest - {v};
      }
    }

    /** The body of the loop in `RemoveVariablesIn`. */
    method RemoveOrphanVariable(ghost s1: GraphState, ghost gone: set<VarId>, v: VarId)
      requires graph.Valid() && VarsRound(s1, s1, graph.View(), gone) && v in LiveVars(s1) && v !in gone
      requires v in s1.vars && s1.vars[v].sourceOp.None? && s1.vars[v].destOps == []
      modifies graph
      ensures graph.Valid() && VarsRound(s1, s1, graph.View(), gone + {v})
    {
      VarsRoundStep(s1, s1, graph.View(), gone, v);
      graph.RemoveVariable(v);
    }

    /** Phase 2 of `delete_isolated`: rounds of removing blacklisted
        variables until a round blacklists nothing.  It only edits the name
        dictionaries. */
    method PruneVariables()
      requires graph.Valid()
      modifies graph
      ensures graph.Valid() && Swept(graph.View())
      ensures graph.ops == old(graph.ops) && graph.vars == old(graph.vars)
      ensures graph.operations == old(graph.operations)
      ensures graph.variables == WithoutValues(old(graph.variables), old(LiveVars(graph.View())) - LiveVars(graph.View()))
      ensures graph.inputs == WithoutValues(old(graph.inputs), old(LiveVars(graph.View())) - LiveVars(graph.View()))
      ensures graph.outputs == WithoutValues(old(graph.outputs), old(LiveVars(graph.View())) - LiveVars(graph.View()))
      ensures LiveOps(graph.View()) == old(LiveOps(graph.View()))
      ensures LiveVars(graph.View()) <= old(LiveVars(graph.View()))
      ensures old(Pruned(graph.View())) ==> Pruned(graph.View())
      ensures Anchors(graph.View()) == old(Anchors(graph.View()))
      ensures forall p, w | FeedsOutput(old(graph.View()), p, w) :: FeedsOutput(graph.View(), p, w)
      ensures old(Swept(graph.View())) ==> graph.View() == old(graph.View())
    {
      ghost var s0 := graph.View();
      SweepStart(s0);
      var done := false;
      while !done
        invariant graph.Valid()
        invariant done ==> Swept(graph.View())
        invariant Sweeping(s0, graph.View())
        decreases LiveVars(graph.View()), if done then 0 else 1
      {
        ghost var s1 := graph.View();
        done := PruneVariablesRound();
        SweepStep(s0, s1, graph.View());
      }
      SweepDone(s0, graph.View());
    }

    /** `delete_isolated()`: afterwards no operation is a dead end and no
        variable an orphan; graph outputs with a producer are kept; run on
        a graph with neither, it changes nothing, so a second run is a
        no-op. */
    method DeleteIsolated()
      requires graph.Valid()
      modifies graph
      ensures graph.Valid() && Pruned(graph.View()) && Swept(graph.View())
      ensures LiveOps(graph.View()) <= old(LiveOps(graph.View()))
      ensures LiveVars(graph.View()) <= old(LiveVars(graph.View()))
      ensures forall w | w in old(Anchors(graph.View())) ::
                w in Anchors(graph.View()) && graph.vars[w].sourceOp == old(graph.vars[w].sourceOp)
      ensures forall p, w | FeedsOutput(old(graph.View()), p, w) :: FeedsOutput(graph.View(), p, w)
      ensures old(Pruned(graph.View()) && Swept(graph.View())) ==> graph.View() == old(graph.View())
    {
      PruneOperations();
      PruneVariables();
    }

    /** `truncate_on_var(var, mark_as_output)`: a KeyError for a name the
        graph does not know; otherwise every operation downstream-reachable
        from the variable is removed, the variable is marked as a graph
        output if asked, and `delete_isolated` runs. */
    method TruncateOnVar(v: VarId, markAsOutput: bool) returns (outcome: Outcome<GraphError>)
      requires graph.Valid() && v in graph.vars
      requires graph.vars[v].name in graph.variables ==> LiveVar(graph.View(), v)
      modifies graph
      ensures outcome.Fail? <==> old(graph.vars[v].name !in graph.variables)
      ensures outcome.Fail? ==> outcome.error == KeyError && graph.View() == old(graph.View())
      ensures outcome.Pass? ==> graph.Valid() && Pruned(graph.View()) && Swept(graph.View())
      ensures outcome.Pass? ==> forall o | o in LiveOps(graph.View()) ::
                o in old(LiveOps(graph.View())) && !Reachable(old(graph.View()), old(graph.vars[v].destOps), o)
      ensures outcome.Pass? ==> forall w | w in old(Anchors(graph.View())) &&
                !Reachable(old(graph.View()), old(graph.vars[v].destOps), old(graph.vars[w].sourceOp.value)) ::
                w in Anchors(graph.View())
      ensures outcome.Pass? && markAsOutput && old(graph.vars[v].sourceOp.Some?) &&
                !Reachable(old(graph.View()), old(graph.vars[v].destOps), old(graph.vars[v].sourceOp.value)) ==>
                v in Anchors(graph.View())
      ensures outcome.Pass? ==> forall p, w | FeedsOutput(old(graph.View()), p, w) &&
                (forall i | 0 <= i < |p| :: !Reachable(old(graph.View()), old(graph.vars[v].destOps), p[i])) ::
                FeedsOutput(graph.View(), p, w)
    {
      if graph.vars[v].name !in graph.variables {
        return Fail(KeyError);
      }
      ghost var s := graph.View();
      var starts := graph.vars[v].destOps;
      assert forall o | o in starts :: LiveOp(s, o);
      WellFormedDownClosed(s);
      var marked := CollectDownstream(graph.View(), starts);
      RemoveOperationsOf(marked);
      ghost var t1 := graph.View();
      assert v in LiveVars(t1) by {
        assert v in LiveVars(s);
      }
      if markAsOutput {
        MarkOutputAnchors(t1, v);
        var marking := graph.MarkVariableAsGraphOutput(v);
      }
      ghost var t2 := graph.View();
      forall p, w | FeedsOutput(s, p, w) && (forall i | 0 <= i < |p| :: !Reachable(s, starts, p[i]))
        ensures FeedsOutput(t2, p, w)
      {
        FeedsSurviveCut(s, t1, t2, marked, p, w);
      }
      DeleteIsolated();
      TruncateDone(s, starts, marked, t1, t2, graph.View(), v, markAsOutput);
      return Pass;
    }

    /** `for operation in mark_to_delete: graph.remove_operation(operation)`. */
    method RemoveOperationsOf(marked: set<OpId>)
      requires graph.Valid() && marked <= LiveOps(graph.View())
      modifies graph
      ensures graph.Valid() && CutState(old(graph.View()), graph.View(), marked)
    {
      ghost var s := graph.View();
      CutStart(s);
      var rest := marked;
      ghost var gone: set<OpId> := {};
      while rest != {}
        invariant graph.Valid() && gone + rest == marked && gone !! rest
        invariant CutState(s, graph.View(), gone)
        decreases rest
      {
        var o :| o in rest;
        CutOperation(s, gone, o);
        gone, rest := gone + {o}, rest - {o};
      }
    }

    /** The body of the loop in `RemoveOperationsOf`. */
    method CutOperation(ghost s: GraphState, ghost gone: set<OpId>, o: OpId)
      requires graph.Valid() && CutState(s, graph.View(), gone) && o in LiveOps(s) && o !in gone
      modifies graph
      ensures graph.Valid() && CutState(s, graph.View(), gone + {o})
    {
      CutStep(s, graph.View(), gone, o);
      graph.RemoveOperation(o);
    }

    /** `format_pad()`: every Pad operation that carries `pads` as an
        attribute gets them as a new parameter input, and loses all its
        attributes. */
    method FormatPad()
      requires graph.Valid()
      modifies graph
      ensures graph.Valid()
      ensures InputRound(PadPass, old(graph.View()), graph.View(), old(LiveOps(graph.View())))
    {
      ghost var s := graph.View();
      OperationsAreLive(s);
      var rest := graph.operations.Values;
      InputLoopStart(PadPass, s);
      while rest != {}
        invariant graph.Valid() && InputLoop(PadPass, s, graph.View(), rest)
        decreases rest
      {
        var o :| o in rest;
        VisitPad(s, rest, o);
        rest := rest - {o};
      }
      InputLoopDone(PadPass, s, graph.View());
    }

    /** The body of the loop of `format_pad` for one operation. */
    method VisitPad(ghost s: GraphState, ghost rest: set<OpId>, o: OpId)
      requires graph.Valid() && InputLoop(PadPass, s, graph.View(), rest) && o in rest
      modifies graph
      ensures graph.Valid() && InputLoop(PadPass, s, graph.View(), rest - {o})
    {
      ghost var done := LiveOps(s) - rest;
      DoneGrows(LiveOps(s), rest, o);
      ghost var t := graph.View();
      LiveIn(s, t, o);
      if graph.ops[o].opType == "Pad" && "pads" in graph.ops[o].attributes {
        var h := graph.CreateVariable(Some(graph.ops[o].attributes["pads"]), true, [o]);
        PadStep(s, t, done, o, h, graph.vars[h]);
        graph.Commit(EditOperation(graph.View(), o, graph.ops[o].(attributes := map[])));
      } else {
        RoundSkip(PadPass, s, t, done, o);
      }
    }

    /** `format_resize()`: every Resize operation with two inputs (opset
        10) gets an empty placeholder variable as its second input, its old
        second input moving to the third slot. */
    method FormatResize()
      requires graph.Valid()
      modifies graph
      ensures graph.Valid()
      ensures InputRound(ResizePass, old(graph.View()), graph.View(), old(LiveOps(graph.View())))
    {
      ghost var s := graph.View();
      OperationsAreLive(s);
      var rest := graph.operations.Values;
      InputLoopStart(ResizePass, s);
      while rest != {}
        invariant graph.Valid() && InputLoop(ResizePass, s, graph.View(), rest)
        decreases rest
      {
        var o :| o in rest;
        VisitResize(s, rest, o);
        rest := rest - {o};
      }
      InputLoopDone(ResizePass, s, graph.View());
    }

    /** The body of the loop of `format_resize` for one operation. */
    method VisitResize(ghost s: GraphState, ghost rest: set<OpId>, o: OpId)
      requires graph.Valid() && InputLoop(ResizePass, s, graph.View(), rest) && o in rest
      modifies graph
      ensures graph.Valid() && InputLoop(ResizePass, s, graph.View(), rest - {o})
    {
      ghost var done := LiveOps(s) - rest;
      DoneGrows(LiveOps(s), rest, o);
      ghost var t := graph.View();
      LiveIn(s, t, o);
      if graph.ops[o].opType == "Resize" && |graph.ops[o].inputs| == 2 {
        var h := graph.CreateVariable(None, false, [o]);
        ResizeStep(s, t, done, o, h, graph.vars[h]);
        var ins := graph.ops[o].inputs;
        graph.Commit(EditOperation(graph.View(), o, graph.ops[o].(inputs := ins[1 := ins[2]][2 := ins[1]])));
      } else {
        RoundSkip(ResizePass, s, t, done, o);
      }
    }

    /** `format_clip()`: every Clip operation carrying `min` or `max` as
        attributes gets two new parameter inputs `<name>_min` and
        `<name>_max` holding the bounds (defaults -(2^31) and 2^31), and
        loses the attributes. `append_variable` raises a `KeyError` when one
        of those names is already taken. */
    method FormatClip() returns (outcome: Outcome<GraphError>)
      requires graph.Valid()
      modifies graph
      ensures outcome.Fail? <==> ClipCollision(old(graph.View()))
      ensures outcome.Fail? ==> outcome.error == KeyError
      ensures outcome.Pass? ==> graph.Valid()
      ensures outcome.Pass? ==> InputRound(ClipPass, old(graph.View()), graph.View(), old(LiveOps(graph.View())))
    {
      ghost var s := graph.View();
      OperationsAreLive(s);
      var rest := graph.operations.Values;
      ClipLoopStart(s);
      while rest != {}
        invariant graph.Valid() && ClipLoop(s, graph.View(), rest)
        decreases rest
      {
        var o :| o in rest;
        outcome := VisitClip(s, rest, o);
        if outcome.Fail? {
          return;
        }
        rest := rest - {o};
      }
      ClipLoopDone(s, graph.View());
      return Pass;
    }

    /** The body of the loop of `format_clip` for one operation. */
    method VisitClip(ghost s: GraphState, ghost rest: set<OpId>, o: OpId) returns (outcome: Outcome<GraphError>)
      requires graph.Valid() && ClipLoop(s, graph.View(), rest) && o in rest
      modifies graph
      ensures outcome.Fail? ==> ClipCollision(s) && outcome.error == KeyError
      ensures outcome.Pass? ==> graph.Valid() && ClipLoop(s, graph.View(), rest - {o})
    {
      ghost var t := graph.View();
      ClipLoopVisit(s, t, rest, o);
      var x := graph.ops[o];
      if !(x.opType == "Clip" && ("min" in x.attributes || "max" in x.attributes)) {
        ClipLoopSkip(s, t, rest, o);
        return Pass;
      }
      var xmin := Variable(x.name + "_min", Some(ClipMin(x)), true, None, [o]);
      var xmax := Variable(x.name + "_max", Some(ClipMax(x)), true, None, [o]);
      var hmin := graph.NewVariable(xmin);
      var hmax := graph.NewVariable(xmax);
      outcome := graph.AppendVariable(hmin);
      if outcome.Fail? {
        assert Collides(s, o);
        return Fail(KeyError);
      }
      SuffixedNames(x.name, x.name);
      outcome := graph.AppendVariable(hmax);
      if outcome.Fail? {
        assert Collides(s, o);
        return Fail(KeyError);
      }
      ClipLoopStep(s, t, rest, o, hmin, xmin, hmax, xmax);
      ClipCommitted(t, graph.View(), o, hmin, xmin, hmax, xmax);
      graph.Commit(graph.View().(ops := graph.ops[o := x.(attributes := x.attributes - {"min", "max"}, inputs := x.inputs + [hmin, hmax])]));
    }

    /** `remove_constant_input()`: a `ValueError`, with nothing changed,
        when some Constant operation does not have exactly one output;
        otherwise every Constant operation is removed and its output becomes
        a parameter holding its `value` attribute (a `KeyError` when that
        attribute is missing). */
    method RemoveConstantInput() returns (outcome: Outcome<GraphError>)
      requires graph.Valid()
      modifies graph
      ensures graph.Valid()
      ensures BadConstant(old(graph.View())) ==> outcome == Fail(ValueError) && graph.View() == old(graph.View())
      ensures !BadConstant(old(graph.View())) ==> (outcome.Fail? <==> ValuelessConstant(old(graph.View())))
      ensures !BadConstant(old(graph.View())) && outcome.Fail? ==> outcome.error == KeyError
      ensures outcome.Pass? ==> ConstRound(old(graph.View()), graph.View(), Constants(old(graph.View())))
    {
      var removing;
      outcome, removing := CollectConstants();
      if outcome.Fail? {
        return;
      }
      outcome := FoldConstants(removing);
    }

    /** The first loop of `remove_constant_input`: the Constant operations,
        or a `ValueError`. */
    method CollectConstants() returns (outcome: Outcome<GraphError>, removing: set<OpId>)
      requires graph.Valid()
      ensures outcome.Fail? <==> BadConstant(graph.View())
      ensures outcome.Fail? ==> outcome.error == ValueError
      ensures outcome.Pass? ==> removing == Constants(graph.View())
    {
      ghost var s := graph.View();
      OperationsAreLive(s);
      var rest := graph.operations.Values;
      removing := {};
      while rest != {}
        invariant rest <= LiveOps(s)
        invariant removing == Constants(s) - rest
        invariant forall c | c in Constants(s) - rest :: |s.ops[c].outputs| == 1
        decreases rest
      {
        var o :| o in rest;
        if graph.ops[o].opType == "Constant" {
          if |graph.ops[o].outputs| != 1 {
            assert o in Constants(s);
            return Fail(ValueError), {};
          }
          removing := removing + {o};
        }
        rest := rest - {o};
      }
      return Pass, removing;
    }

    /** The second loop of `remove_constant_input`. */
    method FoldConstants(removing: set<OpId>) returns (outcome: Outcome<GraphError>)
      requires graph.Valid() && !BadConstant(graph.View()) && removing == Constants(graph.View())
      modifies graph
      ensures graph.Valid()
      ensures outcome.Fail? <==> ValuelessConstant(old(graph.View()))
      ensures outcome.Fail? ==> outcome.error == KeyError
      ensures outcome.Pass? ==> ConstRound(old(graph.View()), graph.View(), removing)
    {
      ghost var s := graph.View();
      ConstRoundStart(s);
      var rest := removing;
      while rest != {}
        invariant graph.Valid() && FoldLoop(s, graph.View(), rest)
        decreases rest
      {
        var c :| c in rest;
        outcome := FoldConstant(s, rest, c);
        if outcome.Fail? {
          return;
        }
        rest := rest - {c};
      }
      FoldLoopDone(s, graph.View());
      return Pass;
    }

    /** The body of that loop for one Constant operation c. */
    method FoldConstant(ghost s: GraphState, ghost rest: set<OpId>, c: OpId) returns (outcome: Outcome<GraphError>)
      requires graph.Valid() && FoldLoop(s, graph.View(), rest) && c in rest
      modifies graph
      ensures graph.Valid()
      ensures outcome.Fail? ==> ValuelessConstant(s) && outcome.error == KeyError
      ensures outcome.Pass? ==> FoldLoop(s, graph.View(), rest - {c})
    {
      ghost var t := graph.View();
      FoldLoopVisit(s, t, rest, c);
      if "value" !in graph.ops[c].attributes {
        return Fail(KeyError);
      }
      ConstStep(s, t, Constants(s) - rest, c);
      var w := graph.ops[c].outputs[0];
      var x := graph.vars[w].(isParameter := true, value := Some(graph.ops[c].attributes["value"]));
      EditVariableKeepsWellFormed(t, w, x);
      graph.Commit(EditVariable(graph.View(), w, x));
      assert LiveOp(graph.View(), c);
      graph.RemoveOperation(c);
      FoldLoopNext(s, graph.View(), rest, c);
      return Pass;
    }

    /** `__add_constant_input(op, value)`: a `KeyError` when no operation of
        the graph has op's name; otherwise a parameter variable holding the
        value, named after op and its input count, is registered (a
        `KeyError` when that name is taken) and appended to the inputs of
        the operation registered under op's name. */
    method AddConstantInput(o: OpId, value: Value) returns (outcome: Outcome<GraphError>, ghost h: VarId)
      requires graph.Valid() && o in graph.ops
      modifies graph
      ensures graph.Valid()
      ensures outcome.Fail? <==> old(graph.ops[o].name !in graph.operations || ConstInputName(graph.ops[o]) in graph.variables)
      ensures outcome.Fail? ==> outcome.error == KeyError && graph.View() == old(graph.View()).(vars := graph.vars)
      ensures forall w | w in old(graph.vars) :: w in graph.vars && graph.vars[w] == old(graph.vars[w])
      ensures outcome.Pass? ==> h !in old(graph.vars) && old(graph.ops[o].name) in old(graph.operations)
      ensures outcome.Pass? ==>
        graph.View() == ConstantAdded(old(graph.View()), old(graph.operations[graph.ops[o].name]), h, old(ConstInputName(graph.ops[o])), value)
    {
      h := 0;
      var name := graph.ops[o].name;
      if name !in graph.operations {
        return Fail(KeyError), h;
      }
      var p := graph.operations[name];
      assert LiveOp(graph.View(), p);
      outcome, h := InstallConstantInput(p, ConstInputName(graph.ops[o]), value);
    }

    /** A new parameter variable holding value, registered under name (a
        `KeyError` when the name is taken) and appended to the inputs of p. */
    method InstallConstantInput(p: OpId, name: string, value: Value) returns (outcome: Outcome<GraphError>, ghost h: VarId)
      requires graph.Valid() && LiveOp(graph.View(), p)
      modifies graph
      ensures graph.Valid()
      ensures outcome.Fail? <==> old(name in graph.variables)
      ensures outcome.Fail? ==> outcome.error == KeyError && graph.View() == old(graph.View()).(vars := graph.vars)
      ensures forall w | w in old(graph.vars) :: w in graph.vars && graph.vars[w] == old(graph.vars[w])
      ensures outcome.Pass? ==> h !in old(graph.vars) && graph.View() == ConstantAdded(old(graph.View()), p, h, name, value)
    {
      ghost var s := graph.View();
      var x := Variable(name, Some(value), true, None, []);
      var k := graph.NewVariable(x);
      h := k;
      outcome := graph.AppendVariable(k);
      if outcome.Fail? {
        return Fail(KeyError), h;
      }
      LinkConstantInput(s, p, k, x);
    }

    /** `var.dest_ops.append(op); op.inputs.append(var)` for the variable at
        k, just registered, and its consumer p. */
    method LinkConstantInput(ghost s: GraphState, p: OpId, k: VarId, x: Variable)
      requires WellFormed(s) && LiveOp(s, p) && k !in s.vars && x.name !in s.variables
      requires x.value.Some? && x == Variable(x.name, x.value, true, None, [])
      requires graph.View() == s.(vars := s.vars[k := x], variables := s.variables[x.name := k])
      requires forall h | h in graph.ops :: h < graph.nextOp
      requires forall h | h in graph.vars :: h < graph.nextVar
      modifies graph
      ensures graph.Valid() && graph.View() == ConstantAdded(s, p, k, x.name, x.value.value)
      ensures graph.vars == old(graph.vars)[k := x.(destOps := [p])]
    {
      ConstantAddedWellFormed(s, p, k, x.name, x.value.value);
      ConstantAddCommitted(s, graph.View(), p, k, x);
      assert k in graph.vars && p in graph.ops;
      graph.Commit(graph.View().(vars := graph.vars[k := x.(destOps := [p])],
                                 ops := graph.ops[p := graph.ops[p].(inputs := graph.ops[p].inputs + [k])]));
    }

    /** The checks of `__delete_constant_input(op, input_idx)`, which change
        nothing: on success, the consumer p registered under op's name and
        the input slot k that `input_idx` designates. */
    method CheckDeleteConstant(o: OpId, idx: int) returns (outcome: Outcome<GraphError>, p: OpId, k: nat)
      requires graph.Valid() && o in graph.ops
      ensures outcome == DeleteCheck(graph.View(), graph.ops[o], idx)
      ensures outcome.Pass? ==>
        && graph.ops[o].name in graph.operations && p == graph.operations[graph.ops[o].name]
        && LiveOp(graph.View(), p) && -(|graph.ops[p].inputs| as int) <= idx < |graph.ops[p].inputs|
        && k == PyIndex(idx, |graph.ops[p].inputs|)
    {
      ghost var s := graph.View();
      p, k := 0, 0;
      var name := graph.ops[o].name;
      if name !in graph.operations {
        return Fail(KeyError), p, k;
      }
      p := graph.operations[name];
      assert LiveOp(s, p);
      var n := |graph.ops[p].inputs|;
      if idx >= n {
        return Fail(ValueError), p, k;
      }
      if idx < -n {
        return Fail(IndexError), p, k;
      }
      k := PyIndex(idx, n);
      var v := graph.ops[p].inputs[k];
      assert v in graph.ops[p].inputs;
      assert LiveVar(s, v);
      var src := graph.vars[v].sourceOp;
      if src.None? {
        return Fail(ValueError), p, k;
      }
      assert LiveOp(s, src.value);
      if graph.ops[src.value].opType != "Constant" {
        return Fail(ValueError), p, k;
      }
      return Pass, p, k;
    }

    /** `__delete_constant_input(op, input_idx)`: the checks of
        `DeleteCheck`; once they pass, the input slot is dropped, and a
        Constant producer left without consumers is removed together with
        its output. */
    method DeleteConstantInput(o: OpId, idx: int) returns (outcome: Outcome<GraphError>)
      requires graph.Valid() && o in graph.ops
      modifies graph
      ensures graph.Valid()
      ensures outcome == old(DeleteCheck(graph.View(), graph.ops[o], idx))
      ensures outcome.Fail? ==> graph.View() == old(graph.View())
      ensures outcome.Pass? ==>
        && old(graph.ops[o].name) in old(graph.operations)
        && LiveOp(old(graph.View()), old(graph.operations[graph.ops[o].name]))
        && -(|old(graph.ops[graph.operations[graph.ops[o].name]].inputs)| as int) <= idx
        && idx < |old(graph.ops[graph.operations[graph.ops[o].name]].inputs)|
      ensures outcome.Pass? ==>
        var p := old(graph.operations[graph.ops[o].name]);
        graph.View() == ConstantDeleted(old(graph.View()), p, PyIndex(idx, |old(graph.ops[p].inputs)|))
    {
      var p, k;
      outcome, p, k := CheckDeleteConstant(o, idx);
      if outcome.Fail? {
        return;
      }
      DropConstantInput(p, k);
    }

    /** Dropping input slot k of p, whose variable a live Constant
        operation produces, and the producer and the variable once nothing
        else consumes it. */
    method DropConstantInput(p: OpId, k: nat)
      requires graph.Valid() && LiveOp(graph.View(), p) && k < |graph.ops[p].inputs|
      modifies graph
      ensures graph.Valid()
      ensures graph.View() == ConstantDeleted(old(graph.View()), p, k)
    {
      ghost var s := graph.View();
      var v := graph.ops[p].inputs[k];
      DeleteInputKeepsWellFormed(s, p, k);
      var src := graph.vars[v].sourceOp;
      graph.Commit(DeleteInput(graph.View(), p, k));
      if graph.vars[v].destOps == [] && src.Some? && src.value in graph.ops {
        ghost var t := graph.View();
        assert v in LiveVars(t);
        ConstantProducerLive(s, p, k);
        graph.RemoveOperation(src.value);
        assert LiveVar(graph.View(), v) by {
          assert v in LiveVars(t);
        }
        graph.RemoveVariable(v);
      }
    }

    // -------------------------------------------------------------------
    // format_parameter
    // -------------------------------------------------------------------

    /** `format_parameter`: every parameter variable with more than one
        consumer is split into one fresh parameter copy per consumer slot
        and removed; an `AttributeError` when such a parameter has no
        value. */
    method FormatParameter() returns (outcome: Outcome<GraphError>)
      requires graph.Valid()
      modifies graph
      ensures graph.Valid()
      ensures outcome.Fail? <==> ValuelessShared(old(graph.View()))
      ensures outcome.Fail? ==> outcome.error == AttributeError
      ensures outcome.Pass? ==> ParamRound(old(graph.View()), graph.View(), old(LiveVars(graph.View())))
      ensures outcome.Pass? ==>
        LiveVars(graph.View()) == (old(LiveVars(graph.View())) - SharedIn(old(graph.View()), old(LiveVars(graph.View()))))
                                  + CopySlots(old(graph.View()), graph.View(), old(LiveVars(graph.View())))
      ensures outcome.Pass? ==>
        forall u | LiveVar(graph.View(), u) && graph.vars[u].isParameter :: |graph.vars[u].destOps| <= 1
    {
      ghost var s := graph.View();
      VariablesAreLive(s);
      var rest := graph.variables.Values;
      ParamRoundStart(s);
      while rest != {}
        invariant graph.Valid() && ParamLoop(s, graph.View(), rest)
        decreases rest
      {
        var v :| v in rest;
        outcome := VisitParameter(s, rest, v);
        if outcome.Fail? {
          return;
        }
        rest := rest - {v};
      }
      ParamLoopDone(s, graph.View());
      ParamsUnshared(s, graph.View());
      ParamLiveVars(s, graph.View(), LiveVars(s));
      return Pass;
    }

    /** The body of the loop of `format_parameter` for one variable. */
    method VisitParameter(ghost s: GraphState, ghost rest: set<VarId>, v: VarId) returns (outcome: Outcome<GraphError>)
      requires graph.Valid() && ParamLoop(s, graph.View(), rest) && v in rest
      modifies graph
      ensures graph.Valid()
      ensures outcome.Fail? ==> ValuelessShared(s) && outcome.error == AttributeError
      ensures outcome.Pass? ==> ParamLoop(s, graph.View(), rest - {v})
    {
      ghost var t := graph.View();
      ParamLoopVisit(s, t, rest, v);
      var x := graph.vars[v];
      if !(x.isParameter && |x.destOps| > 1) {
        ParamLoopSkip(s, t, rest, v);
        return Pass;
      }
      if x.value.None? {
        return Fail(AttributeError);
      }
      SplitParameter(v);
      ParamLoopStep(s, t, graph.View(), rest, v);
      return Pass;
    }

    /** Splitting the shared parameter v: a copy for each consumer slot,
        then `remove_variable(var)`. */
    method SplitParameter(v: VarId)
      requires graph.Valid() && LiveVar(graph.View(), v) && graph.vars[v].value.Some?
      modifies graph
      ensures graph.Valid()
      ensures SplitEffect(old(graph.View()), graph.View(), v)
    {
      ghost var s0 := graph.View();
      var ds := graph.vars[v].destOps;
      SplitLoopStart(s0, v);
      var i: nat := 0;
      while i < |ds|
        invariant graph.Valid() && SplitLoop(s0, graph.View(), v, ds, i)
      {
        SplitForConsumer(s0, v, ds, i);
        i := i + 1;
      }
      RemoveSplitVariable(s0, v, ds);
    }

    /** `var.dest_ops.clear()` (nothing is left to clear) and
        `remove_variable(var)`. */
    method RemoveSplitVariable(ghost s0: GraphState, v: VarId, ghost ds: seq<OpId>)
      requires graph.Valid() && SplitLoop(s0, graph.View(), v, ds, |ds|)
      modifies graph
      ensures graph.Valid() && SplitEffect(s0, graph.View(), v)
    {
      ghost var t := graph.View();
      SplitLoopDone(s0, t, v, ds);
      graph.RemoveVariable(v);
      SplitFinishArena(s0, t, graph.View(), v, ds);
      SplitFinishSlots(s0, t, graph.View(), v, ds);
    }

    /** `created = create_variable(value, is_parameter=True)` for consumer
        ds[i], which then reads the copy in the slot that held v. */
    method SplitForConsumer(ghost s0: GraphState, v: VarId, ds: seq<OpId>, i: nat)
      requires graph.Valid() && SplitLoop(s0, graph.View(), v, ds, i) && i < |ds|
      modifies graph
      ensures graph.Valid() && SplitLoop(s0, graph.View(), v, ds, i + 1)
    {
      ghost var t := graph.View();
      SplitPre(s0, t, v, ds, i);
      var o := ds[i];
      var h := graph.CreateVariable(graph.vars[v].value, true, []);
      ghost var x := graph.vars[h];
      CreateUnlinked(t, h, x);
      ghost var c := graph.View();
      assert LiveVar(c, h) by {
        assert h in LiveVars(c);
      }
      assert LiveOp(c, o) && LiveVar(c, v) by {
        assert o in LiveOps(c) && v in LiveVars(c);
      }
      MoveInputKeepsWellFormed(c, o, v, h);
      graph.Commit(MoveInput(graph.View(), o, v, h));
      SplitLoopStep(s0, t, graph.View(), v, ds, i, h, x);
    }
  }
}
