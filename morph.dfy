/** The graph-rewriting passes of mppq/ir/morph.py: `GraphReplacer`, which
    swaps an operation or a variable for another object, and
    `GraphFormatter`, which normalises operator encodings and prunes the
    graph. */
module Morph {
  import opened Wrappers
  import opened Seqs
  import opened Ir

  // ---------------------------------------------------------------------
  // replace_op
  // ---------------------------------------------------------------------

  /** A variable after operation o has been swapped for r. */
  function OpSwapped(x: Variable, o: OpId, r: OpId, asInput: bool, asOutput: bool): Variable {
    x.(destOps := if asInput then ReplaceAll(x.destOps, o, r) else x.destOps,
       sourceOp := if asOutput then Some(r) else x.sourceOp)
  }

  /** Every variable after o has been swapped for r, where o consumes the
      variables in ins and produces those in outs. */
  function OpSwappedVars(vars: map<VarId, Variable>, o: OpId, r: OpId, ins: seq<VarId>, outs: seq<VarId>)
    : map<VarId, Variable>
  {
    map v | v in vars :: OpSwapped(vars[v], o, r, v in ins, v in outs)
  }

  /** The graph after `replace_op(name, r)` succeeds: r takes over the
      operation's input and output lists, every consumer slot of an input
      variable that held the operation holds r, every output variable is
      produced by r, and the name maps to r.  The old operation object is
      left detached but otherwise untouched.  Nothing is asked of r: a
      replacement already in the graph loses its own lists, and the
      operation itself as replacement is left with none. */
  function ReplaceOpState(s: GraphState, name: string, r: OpId): GraphState
    requires name in s.operations && s.operations[name] in s.ops && r in s.ops
  {
    var o := s.operations[name];
    // r's lists are cleared before the operation's are read
    var ins := if o == r then [] else s.ops[o].inputs;
    var outs := if o == r then [] else s.ops[o].outputs;
    s.(ops := s.ops[r := s.ops[r].(inputs := ins, outputs := outs)],
       vars := OpSwappedVars(s.vars, o, r, ins, outs),
       operations := s.operations[name := r])
  }

  /** The replacement is an operation object outside the graph that carries
      the replaced operation's name. */
  ghost predicate OpReplaceable(s: GraphState, name: string, r: OpId) {
    name in s.operations && r in s.ops && !LiveOp(s, r) && s.ops[r].name == name
  }

  lemma OpSwapVarFacts(s: GraphState, name: string, r: OpId, v: VarId)
    requires WellFormed(s) && name in s.operations && r in s.ops && !LiveOp(s, r) && LiveVar(s, v)
    ensures var o := s.operations[name]; var op := s.ops[o]; var x := s.vars[v];
      && LiveOp(s, o)
      && multiset(x.destOps)[o] == multiset(op.inputs)[v]
      && r !in x.destOps
      && (v in op.outputs <==> x.sourceOp == Some(o))
      && x.sourceOp != Some(r)
      && ReplaceOpState(s, name, r).vars[v].destOps == ReplaceAll(x.destOps, o, r)
      && ReplaceOpState(s, name, r).vars[v].sourceOp == if x.sourceOp == Some(o) then Some(r) else x.sourceOp
  {
    var o := s.operations[name];
    var op := s.ops[o];
    var x := s.vars[v];
    assert LiveOp(s, o);
    if v in op.outputs {
      assert multiset(op.outputs)[v] > 0;
    }
    if v !in op.inputs {
      assert multiset(op.inputs)[v] == 0;
      assert o !in x.destOps;
      ReplaceAllAbsent(x.destOps, o, r);
    }
  }

  lemma ReplaceOpLiveness(s: GraphState, name: string, r: OpId)
    requires WellFormed(s) && OpReplaceable(s, name, r)
    ensures forall p :: LiveOp(ReplaceOpState(s, name, r), p) <==>
              (LiveOp(s, p) && p != s.operations[name]) || p == r
    ensures forall v :: LiveVar(ReplaceOpState(s, name, r), v) <==> LiveVar(s, v)
  {
  }

  lemma ReplaceOpLinkedAt(s: GraphState, name: string, r: OpId, p: OpId, v: VarId)
    requires WellFormed(s) && OpReplaceable(s, name, r)
    requires LiveOp(ReplaceOpState(s, name, r), p) && LiveVar(ReplaceOpState(s, name, r), v)
    ensures var t := ReplaceOpState(s, name, r);
      && multiset(t.ops[p].inputs)[v] == multiset(t.vars[v].destOps)[p]
      && multiset(t.ops[p].outputs)[v] == if t.vars[v].sourceOp == Some(p) then 1 else 0
  {
    var o := s.operations[name];
    ReplaceOpLiveness(s, name, r);
    OpSwapVarFacts(s, name, r, v);
    ReplaceAllCount(s.vars[v].destOps, o, r, p);
    if p != r {
      assert ReplaceOpState(s, name, r).ops[p] == s.ops[p];
    }
  }

  lemma ReplaceOpKeepsLinks(s: GraphState, name: string, r: OpId)
    requires WellFormed(s) && OpReplaceable(s, name, r)
    ensures Linked(ReplaceOpState(s, name, r))
  {
    var t := ReplaceOpState(s, name, r);
    forall p, v | LiveOp(t, p) && LiveVar(t, v)
      ensures multiset(t.ops[p].inputs)[v] == multiset(t.vars[v].destOps)[p]
    {
      ReplaceOpLinkedAt(s, name, r, p, v);
    }
    forall p, v | LiveOp(t, p) && LiveVar(t, v)
      ensures multiset(t.ops[p].outputs)[v] == if t.vars[v].sourceOp == Some(p) then 1 else 0
    {
      ReplaceOpLinkedAt(s, name, r, p, v);
    }
  }

  lemma ReplaceOpKeepsClosure(s: GraphState, name: string, r: OpId)
    requires WellFormed(s) && OpReplaceable(s, name, r)
    ensures Closed(ReplaceOpState(s, name, r))
  {
    var t := ReplaceOpState(s, name, r);
    var o := s.operations[name];
    ReplaceOpLiveness(s, name, r);
    forall v, p | LiveVar(t, v) && p in t.vars[v].destOps ensures LiveOp(t, p) {
      OpSwapVarFacts(s, name, r, v);
    }
    forall v | LiveVar(t, v) && t.vars[v].sourceOp.Some? ensures LiveOp(t, t.vars[v].sourceOp.value) {
      OpSwapVarFacts(s, name, r, v);
    }
    forall p, v | LiveOp(t, p) && (v in t.ops[p].inputs || v in t.ops[p].outputs) ensures LiveVar(t, v) {
      if p != r {
        assert t.ops[p] == s.ops[p];
      } else {
        assert LiveOp(s, o);
      }
    }
  }

  /** With a fresh, same-named replacement, `replace_op` keeps the graph
      well formed. */
  lemma ReplaceOpKeepsWellFormed(s: GraphState, name: string, r: OpId)
    requires WellFormed(s) && OpReplaceable(s, name, r)
    ensures WellFormed(ReplaceOpState(s, name, r))
  {
    ReplaceOpKeepsLinks(s, name, r);
    ReplaceOpKeepsClosure(s, name, r);
    ReplaceOpLiveness(s, name, r);
  }

  /** The graph's shape is unchanged by `replace_op`: every operation's
      producers and consumers are what they were, with the replaced
      operation renamed to its replacement. */
  lemma ReplaceOpRelinks(s: GraphState, name: string, r: OpId, p: OpId)
    requires WellFormed(s) && OpReplaceable(s, name, r) && LiveOp(s, p)
    ensures var o := s.operations[name]; var t := ReplaceOpState(s, name, r);
      var q := if p == o then r else p;
      && Downstream(t, q) == ReplaceAll(Downstream(s, p), o, r)
      && Upstream(t, q) == ReplaceAll(Upstream(s, p), o, r)
      && Parameters(t, q) == Parameters(s, p)
  {
    var o := s.operations[name];
    var t := ReplaceOpState(s, name, r);
    var q := if p == o then r else p;
    assert t.ops[q].inputs == s.ops[p].inputs && t.ops[q].outputs == s.ops[p].outputs;
    forall v | v in s.ops[p].inputs || v in s.ops[p].outputs
      ensures v in s.vars && v in t.vars
      ensures t.vars[v].destOps == ReplaceAll(s.vars[v].destOps, o, r)
      ensures t.vars[v].sourceOp == if s.vars[v].sourceOp == Some(o) then Some(r) else s.vars[v].sourceOp
    {
      OpSwapVarFacts(s, name, r, v);
    }
    ConsumersRenamed(s, t, s.ops[p].outputs, o, r);
    ProducersRenamed(s, t, s.ops[p].inputs, o, r);
    ParametersKept(s, t, s.ops[p].inputs);
  }

  /** `parameters` follows the inputs: variables whose parameter flag is
      unchanged select the same parameters. */
  lemma {:induction false} ParametersKept(s: GraphState, t: GraphState, vs: seq<VarId>)
    requires forall v | v in vs :: v in s.vars && v in t.vars && t.vars[v].isParameter == s.vars[v].isParameter
    ensures ParameterVars(t, vs) == ParameterVars(s, vs)
  {
    if vs != [] {
      ParametersKept(s, t, vs[1..]);
    }
  }

  lemma {:induction false} ConsumersRenamed(s: GraphState, t: GraphState, vs: seq<VarId>, o: OpId, r: OpId)
    requires forall v | v in vs :: v in s.vars && v in t.vars && t.vars[v].destOps == ReplaceAll(s.vars[v].destOps, o, r)
    ensures ConsumersOf(t, vs) == ReplaceAll(ConsumersOf(s, vs), o, r)
  {
    if vs != [] {
      ConsumersRenamed(s, t, vs[1..], o, r);
      ReplaceAllConcat(s.vars[vs[0]].destOps, ConsumersOf(s, vs[1..]), o, r);
    }
  }

  lemma {:induction false} ProducersRenamed(s: GraphState, t: GraphState, vs: seq<VarId>, o: OpId, r: OpId)
    requires forall v | v in vs :: v in s.vars && v in t.vars &&
               t.vars[v].sourceOp == if s.vars[v].sourceOp == Some(o) then Some(r) else s.vars[v].sourceOp
    ensures ProducersOf(t, vs) == ReplaceAll(ProducersOf(s, vs), o, r)
  {
    if vs != [] {
      ProducersRenamed(s, t, vs[1..], o, r);
      var head := if s.vars[vs[0]].sourceOp.Some? then [s.vars[vs[0]].sourceOp.value] else [];
      ReplaceAllConcat(head, ProducersOf(s, vs[1..]), o, r);
    }
  }

  /** The loop of `replace_op` over the operation's inputs: for each
      listing of a variable, the first remaining consumer slot holding o is
      given to r.  Every slot is found because each variable lists o as
      often as it occurs in `ins`. */
  method RedirectConsumers(vars: map<VarId, Variable>, o: OpId, r: OpId, ins: seq<VarId>)
    returns (res: map<VarId, Variable>)
    requires o != r || ins == []
    requires forall v | v in ins :: v in vars && multiset(vars[v].destOps)[o] == multiset(ins)[v]
    ensures res == map v | v in vars ::
              if v in ins then vars[v].(destOps := ReplaceAll(vars[v].destOps, o, r)) else vars[v]
  {
    var lists := map v | v in vars :: vars[v].destOps;
    var replaced := ReplaceFirstOfEach(lists, o, r, ins);
    res := map v | v in vars :: vars[v].(destOps := replaced[v]);
  }

  /** The loop of `replace_op` over the operation's outputs: each is now
      produced by r. */
  method RedirectProducers(vars: map<VarId, Variable>, r: OpId, outs: seq<VarId>)
    returns (res: map<VarId, Variable>)
    requires forall v | v in outs :: v in vars
    ensures res == map v | v in vars :: if v in outs then vars[v].(sourceOp := Some(r)) else vars[v]
  {
    res := vars;
    var j := 0;
    while j < |outs|
      invariant 0 <= j <= |outs|
      invariant res.Keys == vars.Keys
      invariant forall v | v in vars :: res[v] == if v in outs[..j] then vars[v].(sourceOp := Some(r)) else vars[v]
    {
      assert outs[..j + 1] == outs[..j] + [outs[j]];
      res := res[outs[j] := res[outs[j]].(sourceOp := Some(r))];
      j := j + 1;
    }
    assert outs[..j] == outs;
  }

  /** What the loops of `replace_op` need of a well-formed graph: each
      input variable lists the operation as a consumer once per listing
      among its inputs, so every `dest_ops.index(operation)` succeeds, and
      every output is a variable of the graph. */
  lemma ReplaceOpArguments(s: GraphState, name: string)
    requires WellFormed(s) && name in s.operations
    ensures var o := s.operations[name];
      && LiveOp(s, o)
      && (forall v | v in s.ops[o].inputs :: v in s.vars && multiset(s.vars[v].destOps)[o] == multiset(s.ops[o].inputs)[v])
      && (forall v | v in s.ops[o].outputs :: v in s.vars)
  {
    var o := s.operations[name];
    assert LiveOp(s, o);
    forall v | v in s.ops[o].inputs
      ensures v in s.vars && multiset(s.vars[v].destOps)[o] == multiset(s.ops[o].inputs)[v]
    {
      assert LiveVar(s, v);
    }
    assert forall v | v in s.ops[o].outputs :: LiveVar(s, v);
  }

  lemma SwapsCompose(vars: map<VarId, Variable>, o: OpId, r: OpId, ins: seq<VarId>, outs: seq<VarId>)
    ensures var mid := map v | v in vars ::
                         if v in ins then vars[v].(destOps := ReplaceAll(vars[v].destOps, o, r)) else vars[v];
      (map v | v in mid :: if v in outs then mid[v].(sourceOp := Some(r)) else mid[v])
      == OpSwappedVars(vars, o, r, ins, outs)
  {
  }

  /** The body of `replace_op` on the arena: r takes over o's input and
      output lists, each input's consumer slot holding o goes to r, and
      each output is produced by r.  When r is o, clearing r's lists
      clears o's, and the loops run over nothing. */
  method SwapOperation(ops: map<OpId, Operation>, vars: map<VarId, Variable>, o: OpId, r: OpId)
    returns (ops': map<OpId, Operation>, vars': map<VarId, Variable>)
    requires o in ops && r in ops
    requires forall v | v in ops[o].inputs :: v in vars && multiset(vars[v].destOps)[o] == multiset(ops[o].inputs)[v]
    requires forall v | v in ops[o].outputs :: v in vars
    ensures var ins := if o == r then [] else ops[o].inputs;
      var outs := if o == r then [] else ops[o].outputs;
      && ops' == ops[r := ops[r].(inputs := ins, outputs := outs)]
      && vars' == OpSwappedVars(vars, o, r, ins, outs)
  {
    ops', vars' := ops, vars;
    // replace_to.inputs.clear(); replace_to.inputs.extend(operation.inputs)
    ops' := ops'[r := ops'[r].(inputs := [])];
    ops' := ops'[r := ops'[r].(inputs := ops'[r].inputs + ops'[o].inputs)];
    var ins := ops'[o].inputs;
    vars' := RedirectConsumers(vars', o, r, ins);
    // replace_to.outputs.clear(); replace_to.outputs.extend(operation.outputs)
    ops' := ops'[r := ops'[r].(outputs := [])];
    ops' := ops'[r := ops'[r].(outputs := ops'[r].outputs + ops'[o].outputs)];
    var outs := ops'[o].outputs;
    vars' := RedirectProducers(vars', r, outs);
    assert [] + ops[o].inputs == ops[o].inputs;
    assert [] + ops[o].outputs == ops[o].outputs;
    assert ops'[r].inputs == ins && ops'[r].outputs == outs;
    SwapsCompose(vars, o, r, ins, outs);
  }

  /** The arena and dictionaries `replace_op` computes are `ReplaceOpState`,
      over the same handles: well formed when the replacement is a fresh
      object carrying the name, and not well formed when it is already in
      the graph with links of its own. */
  lemma ReplaceOpCommitted(s: GraphState, name: string, r: OpId, t: GraphState)
    requires WellFormed(s) && name in s.operations && r in s.ops
    requires var o := s.operations[name];
      var ins := if o == r then [] else s.ops[o].inputs;
      var outs := if o == r then [] else s.ops[o].outputs;
      && t.ops == s.ops[r := s.ops[r].(inputs := ins, outputs := outs)]
      && t.vars == OpSwappedVars(s.vars, o, r, ins, outs)
      && t.operations == s.operations[name := r]
      && t.variables == s.variables && t.inputs == s.inputs && t.outputs == s.outputs
    ensures t == ReplaceOpState(s, name, r)
    ensures t.ops.Keys == s.ops.Keys && t.vars.Keys == s.vars.Keys
    ensures !LiveOp(s, r) && s.ops[r].name == name ==> WellFormed(t)
    ensures LiveOp(s, r) && (s.ops[r].inputs != [] || s.ops[r].outputs != []) ==> !WellFormed(t)
  {
    if !LiveOp(s, r) && s.ops[r].name == name {
      ReplaceOpKeepsWellFormed(s, name, r);
    }
    if LiveOp(s, r) && (s.ops[r].inputs != [] || s.ops[r].outputs != []) {
      ReplaceLiveOpBreaks(s, name, r);
    }
  }

  /** A replacement that is already an operation of the graph, the replaced
      operation itself included, loses its input and output lists while its
      old variables still name it, so the graph is left inconsistent. */
  lemma ReplaceLiveOpBreaks(s: GraphState, name: string, r: OpId)
    requires WellFormed(s) && name in s.operations && LiveOp(s, r)
    requires s.ops[r].inputs != [] || s.ops[r].outputs != []
    ensures !Linked(ReplaceOpState(s, name, r))
  {
    var o := s.operations[name];
    var t := ReplaceOpState(s, name, r);
    assert LiveOp(s, o);
    assert LiveOp(t, r);
    if s.ops[r].inputs != [] {
      var v := s.ops[r].inputs[0];
      assert LiveVar(s, v) && LiveVar(t, v);
      LiveOpInputBreaks(s, name, r, v);
    } else {
      var w := s.ops[r].outputs[0];
      assert LiveVar(s, w) && LiveVar(t, w);
      LiveOpOutputBreaks(s, name, r, w);
    }
  }

  /** An input v of a live replacement r: afterwards v still lists r as a
      consumer more often than r lists v. */
  lemma LiveOpInputBreaks(s: GraphState, name: string, r: OpId, v: VarId)
    requires WellFormed(s) && name in s.operations && LiveOp(s, r) && LiveVar(s, v) && v in s.ops[r].inputs
    ensures var t := ReplaceOpState(s, name, r);
      r in t.ops && v in t.vars && multiset(t.ops[r].inputs)[v] != multiset(t.vars[v].destOps)[r]
  {
    var o := s.operations[name];
    var t := ReplaceOpState(s, name, r);
    var x := s.vars[v];
    assert LiveOp(s, o);
    assert multiset(s.ops[r].inputs)[v] >= 1;
    if o == r {
      assert t.vars[v] == OpSwapped(x, o, r, false, false) == x;
      assert t.ops[r].inputs == [];
    } else {
      ReplaceAllCount(x.destOps, o, r, r);
      assert t.vars[v] == OpSwapped(x, o, r, v in s.ops[o].inputs, v in s.ops[o].outputs);
      if v !in s.ops[o].inputs {
        assert multiset(s.ops[o].inputs)[v] == 0;
      }
      assert t.ops[r].inputs == s.ops[o].inputs;
    }
  }

  /** An output w of a live replacement r: afterwards w is still produced
      by r, which no longer lists it. */
  lemma LiveOpOutputBreaks(s: GraphState, name: string, r: OpId, w: VarId)
    requires WellFormed(s) && name in s.operations && LiveOp(s, r) && LiveVar(s, w) && w in s.ops[r].outputs
    ensures var t := ReplaceOpState(s, name, r);
      r in t.ops && w in t.vars && t.vars[w].sourceOp == Some(r) && multiset(t.ops[r].outputs)[w] == 0
  {
    var o := s.operations[name];
    var t := ReplaceOpState(s, name, r);
    var x := s.vars[w];
    assert LiveOp(s, o);
    assert multiset(s.ops[r].outputs)[w] >= 1;
    assert x.sourceOp == Some(r);
    if o != r {
      assert multiset(s.ops[o].outputs)[w] == 0;
      assert t.ops[r].outputs == s.ops[o].outputs;
    } else {
      assert t.ops[r].outputs == [];
    }
  }

  // ---------------------------------------------------------------------
  // replace_var
  // ---------------------------------------------------------------------

  /** An operation after variable v has been swapped for r. */
  function VarSwapped(x: Operation, v: VarId, r: VarId, asInput: bool, asOutput: bool): Operation {
    x.(inputs := if asInput then ReplaceAll(x.inputs, v, r) else x.inputs,
       outputs := if asOutput then ReplaceAll(x.outputs, v, r) else x.outputs)
  }

  /** Every operation after v has been swapped for r, where v is consumed
      by the operations in dests and produced by source. */
  function VarSwappedOps(ops: map<OpId, Operation>, v: VarId, r: VarId, dests: seq<OpId>, source: Option<OpId>)
    : map<OpId, Operation>
  {
    map o | o in ops :: VarSwapped(ops[o], v, r, o in dests, source == Some(o))
  }

  /** The graph after `replace_var(name, r)` succeeds: r takes over the
      variable's consumers and producer, every input slot of a consumer and
      the output slot of the producer that held the variable hold r, and the
      name maps to r in `variables` and, where present, in `inputs` and
      `outputs`.  The old variable object keeps its links but is detached.
      Nothing is asked of r: a replacement already in the graph loses its
      own consumers and producer, and the variable itself as replacement is
      left with no consumers. */
  function ReplaceVarState(s: GraphState, name: string, r: VarId): GraphState
    requires name in s.variables && s.variables[name] in s.vars && r in s.vars
  {
    var v := s.variables[name];
    var x := s.vars[v];
    // r's consumer list is cleared before the variable's is read
    var dests := if v == r then [] else x.destOps;
    s.(vars := s.vars[r := s.vars[r].(destOps := dests, sourceOp := x.sourceOp)],
       ops := VarSwappedOps(s.ops, v, r, dests, x.sourceOp),
       variables := s.variables[name := r],
       inputs := if name in s.inputs then s.inputs[name := r] else s.inputs,
       outputs := if name in s.outputs then s.outputs[name := r] else s.outputs)
  }

  /** The replacement is a variable object outside the graph that carries
      the replaced variable's name. */
  ghost predicate VarReplaceable(s: GraphState, name: string, r: VarId) {
    name in s.variables && r in s.vars && !LiveVar(s, r) && s.vars[r].name == name
  }

  lemma VarSwapOpFacts(s: GraphState, name: string, r: VarId, p: OpId)
    requires WellFormed(s) && name in s.variables && r in s.vars && !LiveVar(s, r) && LiveOp(s, p)
    ensures var v := s.variables[name]; var x := s.vars[v]; var y := s.ops[p];
      && LiveVar(s, v)
      && multiset(y.inputs)[v] == multiset(x.destOps)[p]
      && multiset(y.outputs)[v] == (if x.sourceOp == Some(p) then 1 else 0)
      && r !in y.inputs && r !in y.outputs
      && ReplaceVarState(s, name, r).ops[p].inputs == ReplaceAll(y.inputs, v, r)
      && ReplaceVarState(s, name, r).ops[p].outputs == ReplaceAll(y.outputs, v, r)
  {
    var v := s.variables[name];
    var x := s.vars[v];
    var y := s.ops[p];
    assert LiveVar(s, v);
    if p !in x.destOps {
      assert multiset(y.inputs)[v] == 0;
      ReplaceAllAbsent(y.inputs, v, r);
    }
    if x.sourceOp != Some(p) {
      assert multiset(y.outputs)[v] == 0;
      ReplaceAllAbsent(y.outputs, v, r);
    }
  }

  lemma ReplaceVarLiveness(s: GraphState, name: string, r: VarId)
    requires WellFormed(s) && VarReplaceable(s, name, r)
    ensures forall p :: LiveOp(ReplaceVarState(s, name, r), p) <==> LiveOp(s, p)
    ensures forall w :: LiveVar(ReplaceVarState(s, name, r), w) <==>
              (LiveVar(s, w) && w != s.variables[name]) || w == r
  {
  }

  lemma ReplaceVarLinkedAt(s: GraphState, name: string, r: VarId, p: OpId, w: VarId)
    requires WellFormed(s) && VarReplaceable(s, name, r)
    requires LiveOp(ReplaceVarState(s, name, r), p) && LiveVar(ReplaceVarState(s, name, r), w)
    ensures var t := ReplaceVarState(s, name, r);
      && multiset(t.ops[p].inputs)[w] == multiset(t.vars[w].destOps)[p]
      && multiset(t.ops[p].outputs)[w] == if t.vars[w].sourceOp == Some(p) then 1 else 0
  {
    var v := s.variables[name];
    ReplaceVarLiveness(s, name, r);
    VarSwapOpFacts(s, name, r, p);
    ReplaceAllCount(s.ops[p].inputs, v, r, w);
    ReplaceAllCount(s.ops[p].outputs, v, r, w);
  }

  lemma ReplaceVarKeepsLinks(s: GraphState, name: string, r: VarId)
    requires WellFormed(s) && VarReplaceable(s, name, r)
    ensures Linked(ReplaceVarState(s, name, r))
  {
    var t := ReplaceVarState(s, name, r);
    forall p, w | LiveOp(t, p) && LiveVar(t, w)
      ensures multiset(t.ops[p].inputs)[w] == multiset(t.vars[w].destOps)[p]
    {
      ReplaceVarLinkedAt(s, name, r, p, w);
    }
    forall p, w | LiveOp(t, p) && LiveVar(t, w)
      ensures multiset(t.ops[p].outputs)[w] == if t.vars[w].sourceOp == Some(p) then 1 else 0
    {
      ReplaceVarLinkedAt(s, name, r, p, w);
    }
  }

  lemma ReplaceVarKeepsClosure(s: GraphState, name: string, r: VarId)
    requires WellFormed(s) && VarReplaceable(s, name, r)
    ensures Closed(ReplaceVarState(s, name, r))
  {
    var t := ReplaceVarState(s, name, r);
    var v := s.variables[name];
    ReplaceVarLiveness(s, name, r);
    assert LiveVar(s, v);
    forall p, w | LiveOp(t, p) && (w in t.ops[p].inputs || w in t.ops[p].outputs) ensures LiveVar(t, w) {
      VarSwapOpFacts(s, name, r, p);
    }
    forall w, p | LiveVar(t, w) && p in t.vars[w].destOps ensures LiveOp(t, p) {
    }
    forall w | LiveVar(t, w) && t.vars[w].sourceOp.Some? ensures LiveOp(t, t.vars[w].sourceOp.value) {
    }
  }

  /** With a fresh, same-named replacement, `replace_var` keeps the graph
      well formed. */
  lemma ReplaceVarKeepsWellFormed(s: GraphState, name: string, r: VarId)
    requires WellFormed(s) && VarReplaceable(s, name, r)
    ensures WellFormed(ReplaceVarState(s, name, r))
  {
    ReplaceVarKeepsLinks(s, name, r);
    ReplaceVarKeepsClosure(s, name, r);
    ReplaceVarLiveness(s, name, r);
  }

  lemma {:induction false} ConsumersSwapped(s: GraphState, t: GraphState, vs: seq<VarId>, v: VarId, r: VarId)
    requires r in t.vars && v in s.vars && t.vars[r].destOps == s.vars[v].destOps
    requires forall w | w in vs :: w != r && w in s.vars && (w != v ==> w in t.vars && t.vars[w].destOps == s.vars[w].destOps)
    ensures ConsumersOf(t, ReplaceAll(vs, v, r)) == ConsumersOf(s, vs)
  {
    if vs != [] {
      ReplaceAllConcat([vs[0]], vs[1..], v, r);
      assert vs == [vs[0]] + vs[1..];
      ConsumersSwapped(s, t, vs[1..], v, r);
    }
  }

  lemma {:induction false} ProducersSwapped(s: GraphState, t: GraphState, vs: seq<VarId>, v: VarId, r: VarId)
    requires r in t.vars && v in s.vars && t.vars[r].sourceOp == s.vars[v].sourceOp
    requires forall w | w in vs :: w != r && w in s.vars && (w != v ==> w in t.vars && t.vars[w].sourceOp == s.vars[w].sourceOp)
    ensures ProducersOf(t, ReplaceAll(vs, v, r)) == ProducersOf(s, vs)
  {
    if vs != [] {
      ReplaceAllConcat([vs[0]], vs[1..], v, r);
      assert vs == [vs[0]] + vs[1..];
      ProducersSwapped(s, t, vs[1..], v, r);
    }
  }

  lemma ReplaceVarVarFacts(s: GraphState, name: string, r: VarId, p: OpId)
    requires WellFormed(s) && VarReplaceable(s, name, r) && LiveOp(s, p)
    ensures var v := s.variables[name]; var t := ReplaceVarState(s, name, r);
      && r in t.vars && v in s.vars
      && t.vars[r].destOps == s.vars[v].destOps && t.vars[r].sourceOp == s.vars[v].sourceOp
      && forall w | w in s.ops[p].inputs || w in s.ops[p].outputs ::
           w != r && w in s.vars && (w != v ==> w in t.vars && t.vars[w] == s.vars[w])
  {
    forall w | w in s.ops[p].inputs || w in s.ops[p].outputs ensures LiveVar(s, w) {
    }
  }

  /** `replace_var` leaves the graph's shape alone: every operation has the
      same producers and consumers as before, and each of its input and
      output slots that held the variable holds the replacement. */
  lemma ReplaceVarRelinks(s: GraphState, name: string, r: VarId, p: OpId)
    requires WellFormed(s) && VarReplaceable(s, name, r) && LiveOp(s, p)
    ensures var v := s.variables[name]; var t := ReplaceVarState(s, name, r);
      && t.ops[p].inputs == ReplaceAll(s.ops[p].inputs, v, r)
      && t.ops[p].outputs == ReplaceAll(s.ops[p].outputs, v, r)
      && Downstream(t, p) == Downstream(s, p)
      && Upstream(t, p) == Upstream(s, p)
  {
    var v := s.variables[name];
    var t := ReplaceVarState(s, name, r);
    VarSwapOpFacts(s, name, r, p);
    ReplaceVarVarFacts(s, name, r, p);
    ConsumersSwapped(s, t, s.ops[p].outputs, v, r);
    ProducersSwapped(s, t, s.ops[p].inputs, v, r);
  }

  /** What the loops of `replace_var` need of a well-formed graph: each
      consumer lists the variable among its inputs once per listing among
      the consumers, and the producer lists it once among its outputs, so
      every `index` lookup succeeds. */
  lemma ReplaceVarArguments(s: GraphState, name: string)
    requires WellFormed(s) && name in s.variables
    ensures var v := s.variables[name]; var x := s.vars[v];
      && LiveVar(s, v)
      && (forall d | d in x.destOps :: d in s.ops && multiset(s.ops[d].inputs)[v] == multiset(x.destOps)[d])
      && (x.sourceOp.Some? ==> x.sourceOp.value in s.ops && multiset(s.ops[x.sourceOp.value].outputs)[v] == 1)
  {
    var v := s.variables[name];
    var x := s.vars[v];
    assert LiveVar(s, v);
    forall d | d in x.destOps ensures d in s.ops && multiset(s.ops[d].inputs)[v] == multiset(x.destOps)[d] {
      assert LiveOp(s, d);
    }
    if x.sourceOp.Some? {
      assert LiveOp(s, x.sourceOp.value);
    }
  }

  /** Replacing the only occurrence is replacing all of them. */
  lemma ReplaceOnlyOccurrence(s: seq<VarId>, x: VarId, y: VarId)
    requires multiset(s)[x] == 1
    ensures x in s && s[IndexOf(s, x) := y] == ReplaceAll(s, x, y)
  {
    assert x in multiset(s);
    if x == y {
      assert s[IndexOf(s, x) := y] == s == ReplaceAll(s, x, y);
    } else {
      PartlyReplacedStart(s, x, y);
      PartlyReplacedStep(s, s, x, y, 0);
      PartlyReplacedDone(s, s[IndexOf(s, x) := y], x, y);
    }
  }

  /** The loop of `replace_var` over the variable's consumers: each
      listing gives the first remaining input slot holding v to r. */
  method RedirectInputs(ops: map<OpId, Operation>, v: VarId, r: VarId, dests: seq<OpId>)
    returns (res: map<OpId, Operation>)
    requires v != r || dests == []
    requires forall d | d in dests :: d in ops && multiset(ops[d].inputs)[v] == multiset(dests)[d]
    ensures res == map o | o in ops ::
              if o in dests then ops[o].(inputs := ReplaceAll(ops[o].inputs, v, r)) else ops[o]
  {
    var lists := map o | o in ops :: ops[o].inputs;
    var replaced := ReplaceFirstOfEach(lists, v, r, dests);
    res := map o | o in ops :: ops[o].(inputs := replaced[o]);
  }

  lemma VarSwapsCompose(ops: map<OpId, Operation>, v: VarId, r: VarId, dests: seq<OpId>, source: Option<OpId>)
    requires source.Some? ==> source.value in ops
    ensures var mid := map o | o in ops ::
                         if o in dests then ops[o].(inputs := ReplaceAll(ops[o].inputs, v, r)) else ops[o];
      (if source.Some? then mid[source.value := mid[source.value].(outputs := ReplaceAll(mid[source.value].outputs, v, r))] else mid)
      == VarSwappedOps(ops, v, r, dests, source)
  {
  }

  /** The arena and dictionaries `replace_var` computes are `ReplaceVarState`,
      over the same handles: well formed when the replacement is a fresh
      object carrying the name, and not well formed when it is already in
      the graph with consumers, or with a producer while not the variable
      itself. */
  lemma ReplaceVarCommitted(s: GraphState, name: string, r: VarId, t: GraphState)
    requires WellFormed(s) && name in s.variables && r in s.vars
    requires var v := s.variables[name]; var x := s.vars[v];
      var dests := if v == r then [] else x.destOps;
      && t.ops == VarSwappedOps(s.ops, v, r, dests, x.sourceOp)
      && t.vars == s.vars[r := s.vars[r].(destOps := dests, sourceOp := x.sourceOp)]
      && t.operations == s.operations && t.variables == s.variables[name := r]
      && t.inputs == (if name in s.inputs then s.inputs[name := r] else s.inputs)
      && t.outputs == (if name in s.outputs then s.outputs[name := r] else s.outputs)
    ensures t == ReplaceVarState(s, name, r)
    ensures t.ops.Keys == s.ops.Keys && t.vars.Keys == s.vars.Keys
    ensures !LiveVar(s, r) && s.vars[r].name == name ==> WellFormed(t)
    ensures LiveVar(s, r) && (s.vars[r].destOps != [] || (r != s.variables[name] && s.vars[r].sourceOp.Some?)) ==>
              !WellFormed(t)
  {
    if !LiveVar(s, r) && s.vars[r].name == name {
      ReplaceVarKeepsWellFormed(s, name, r);
    }
    if LiveVar(s, r) && (s.vars[r].destOps != [] || (r != s.variables[name] && s.vars[r].sourceOp.Some?)) {
      ReplaceLiveVarBreaks(s, name, r);
    }
  }

  /** A replacement that is already a variable of the graph loses its
      consumers and producer while they still list it, and the variable
      itself as replacement loses its consumers, so the graph is left
      inconsistent. */
  lemma ReplaceLiveVarBreaks(s: GraphState, name: string, r: VarId)
    requires WellFormed(s) && name in s.variables && LiveVar(s, r)
    requires s.vars[r].destOps != [] || (r != s.variables[name] && s.vars[r].sourceOp.Some?)
    ensures !Linked(ReplaceVarState(s, name, r))
  {
    var v := s.variables[name];
    var x := s.vars[v];
    var t := ReplaceVarState(s, name, r);
    assert LiveVar(s, v);
    assert LiveVar(t, r);
    if s.vars[r].destOps != [] {
      var d := s.vars[r].destOps[0];
      assert LiveOp(s, d) && LiveOp(t, d);
      assert multiset(s.vars[r].destOps)[d] >= 1;
      if v == r {
        assert t.ops[d].inputs == s.ops[d].inputs;
        assert multiset(t.vars[r].destOps)[d] == 0;
      } else {
        ReplaceAllCount(s.ops[d].inputs, v, r, r);
        if d !in x.destOps {
          assert multiset(x.destOps)[d] == 0;
        }
        assert multiset(t.vars[r].destOps)[d] == multiset(x.destOps)[d] == multiset(s.ops[d].inputs)[v];
      }
      assert multiset(t.ops[d].inputs)[r] != multiset(t.vars[r].destOps)[d];
    } else {
      var p := s.vars[r].sourceOp.value;
      assert LiveOp(s, p) && LiveOp(t, p);
      assert multiset(s.ops[p].outputs)[r] == 1;
      if x.sourceOp == Some(p) {
        assert multiset(s.ops[p].outputs)[v] == 1;
        ReplaceAllCount(s.ops[p].outputs, v, r, r);
        assert multiset(t.ops[p].outputs)[r] == 2;
      } else {
        assert t.ops[p].outputs == s.ops[p].outputs;
        assert t.vars[r].sourceOp != Some(p);
      }
    }
  }

  /** The body of `replace_var` on the arena: r takes over v's consumer
      list, each consumer's input slot holding v goes to r, r takes over
      v's producer, and the producer's output slot holding v goes to r.
      When r is v, clearing r's list clears v's, and the loop runs over
      nothing. */
  method SwapVariable(ops: map<OpId, Operation>, vars: map<VarId, Variable>, v: VarId, r: VarId)
    returns (ops': map<OpId, Operation>, vars': map<VarId, Variable>)
    requires v in vars && r in vars
    requires forall d | d in vars[v].destOps :: d in ops && multiset(ops[d].inputs)[v] == multiset(vars[v].destOps)[d]
    requires vars[v].sourceOp.Some? ==> vars[v].sourceOp.value in ops && multiset(ops[vars[v].sourceOp.value].outputs)[v] == 1
    ensures var dests := if v == r then [] else vars[v].destOps;
      && ops' == VarSwappedOps(ops, v, r, dests, vars[v].sourceOp)
      && vars' == vars[r := vars[r].(destOps := dests, sourceOp := vars[v].sourceOp)]
  {
    ops', vars' := ops, vars;
    // replace_to.dest_ops.clear(); replace_to.dest_ops.extend(variable.dest_ops)
    vars' := vars'[r := vars'[r].(destOps := [])];
    vars' := vars'[r := vars'[r].(destOps := vars'[r].destOps + vars'[v].destOps)];
    var dests := vars'[r].destOps;
    assert dests == if v == r then [] else vars[v].destOps;
    ops' := RedirectInputs(ops', v, r, dests);
    vars' := vars'[r := vars'[r].(sourceOp := vars'[v].sourceOp)];
    var source := vars'[v].sourceOp;
    if source.Some? {
      var src := source.value;
      assert ops'[src].outputs == ops[src].outputs;
      ReplaceOnlyOccurrence(ops'[src].outputs, v, r);
      var sourceIdx := IndexOf(ops'[src].outputs, v);
      ops' := ops'[src := ops'[src].(outputs := ops'[src].outputs[sourceIdx := r])];
    }
    VarSwapsCompose(ops, v, r, dests, source);
  }

  class GraphReplacer {
    const graph: Graph

    constructor (graph: Graph)
      ensures this.graph == graph
    {
      this.graph := graph;
    }

    /** `replace_op(op_name, replace_to)`. */
    method ReplaceOp(name: string, r: OpId) returns (outcome: Outcome<GraphError>)
      requires graph.Valid() && r in graph.ops
      modifies graph
      ensures outcome.Fail? <==> name !in old(graph.operations)
      ensures outcome.Fail? ==> graph.View() == old(graph.View())
      ensures outcome.Pass? ==> graph.View() == ReplaceOpState(old(graph.View()), name, r)
      ensures outcome.Pass? && !LiveOp(old(graph.View()), r) && old(graph.ops[r].name) == name ==> graph.Valid()
      ensures outcome.Pass? && LiveOp(old(graph.View()), r) && (old(graph.ops[r].inputs) != [] || old(graph.ops[r].outputs) != []) ==>
                !graph.Valid()
    {
      if name !in graph.operations {
        return Fail(KeyError);
      }
      ghost var s := graph.View();
      var o := graph.operations[name];
      ReplaceOpArguments(s, name);
      var ops, vars := SwapOperation(graph.ops, graph.vars, o, r);
      var operations: map<string, OpId> := graph.operations[name := r];
      ReplaceOpCommitted(s, name, r, GraphState(ops, vars, operations, graph.variables, graph.inputs, graph.outputs));
      graph.Commit(GraphState(ops, vars, operations, graph.variables, graph.inputs, graph.outputs));
      return Pass;
    }

    /** `replace_var(var_name, replace_to)`. */
    method ReplaceVar(name: string, r: VarId) returns (outcome: Outcome<GraphError>)
      requires graph.Valid() && r in graph.vars
      modifies graph
      ensures outcome.Fail? <==> name !in old(graph.variables)
      ensures outcome.Fail? ==> graph.View() == old(graph.View())
      ensures outcome.Pass? ==> graph.View() == ReplaceVarState(old(graph.View()), name, r)
      ensures outcome.Pass? && !LiveVar(old(graph.View()), r) && old(graph.vars[r].name) == name ==> graph.Valid()
      ensures outcome.Pass? && LiveVar(old(graph.View()), r) &&
                (old(graph.vars[r].destOps) != [] || (r != old(graph.variables[name]) && old(graph.vars[r].sourceOp).Some?)) ==>
                !graph.Valid()
    {
      if name !in graph.variables {
        return Fail(KeyError);
      }
      ghost var s := graph.View();
      var v := graph.variables[name];
      ReplaceVarArguments(s, name);
      var ops, vars := SwapVariable(graph.ops, graph.vars, v, r);
      var variables: map<string, VarId>, inputs: map<string, VarId>, outputs: map<string, VarId>
        := graph.variables, graph.inputs, graph.outputs;
      variables := variables[name := r];
      if name in inputs {
        inputs := inputs[name := r];
      }
      if name in outputs {
        outputs := outputs[name := r];
      }
      ReplaceVarCommitted(s, name, r, GraphState(ops, vars, graph.operations, variables, inputs, outputs));
      graph.Commit(GraphState(ops, vars, graph.operations, variables, inputs, outputs));
      return Pass;
    }
  }
}
