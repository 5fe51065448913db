/** In-place edits the formatting passes make to operations and variables
    directly (attribute dictionaries, input lists, producer and consumer
    lists), as functions on graph states, with the proofs that each keeps a
    well-formed graph well-formed. */
module Rewrites {
  import opened Wrappers
  import opened Seqs
  import opened Ir

  /** The operation at o replaced by x: an assignment to its attributes or
      its input list. */
  function EditOperation(s: GraphState, o: OpId, x: Operation): GraphState {
    s.(ops := s.ops[o := x])
  }

  /** y has the links of x: the same name, the same inputs up to order and
      the same outputs. */
  predicate SameLinks(x: Operation, y: Operation) {
    x.name == y.name && multiset(x.inputs) == multiset(y.inputs) && x.outputs == y.outputs
  }

  lemma EditOperationKeepsWellFormed(s: GraphState, o: OpId, x: Operation)
    requires WellFormed(s) && o in s.ops && SameLinks(s.ops[o], x)
    ensures WellFormed(EditOperation(s, o, x))
    ensures LiveOps(EditOperation(s, o, x)) == LiveOps(s)
    ensures LiveVars(EditOperation(s, o, x)) == LiveVars(s)
  {
    var r := EditOperation(s, o, x);
    assert forall p :: LiveOp(r, p) <==> LiveOp(s, p);
    assert forall w :: LiveVar(r, w) <==> LiveVar(s, w);
    forall w ensures w in x.inputs <==> w in s.ops[o].inputs {
      assert multiset(x.inputs)[w] == multiset(s.ops[o].inputs)[w];
    }
  }

  /** The variable at w replaced by x: an assignment to its value or its
      parameter flag. */
  function EditVariable(s: GraphState, w: VarId, x: Variable): GraphState {
    s.(vars := s.vars[w := x])
  }

  /** y sits where x does: the same name, producer and consumers. */
  predicate SamePlace(x: Variable, y: Variable) {
    x.name == y.name && x.sourceOp == y.sourceOp && x.destOps == y.destOps
  }

  lemma EditVariableLiveness(s: GraphState, w: VarId, x: Variable)
    requires w in s.vars && SamePlace(s.vars[w], x)
    ensures forall p :: LiveOp(EditVariable(s, w, x), p) <==> LiveOp(s, p)
    ensures forall u :: LiveVar(EditVariable(s, w, x), u) <==> LiveVar(s, u)
  {
  }

  lemma EditVariableKeepsLinks(s: GraphState, w: VarId, x: Variable)
    requires WellFormed(s) && w in s.vars && SamePlace(s.vars[w], x)
    ensures Linked(EditVariable(s, w, x))
  {
    var r := EditVariable(s, w, x);
    EditVariableLiveness(s, w, x);
    forall o, u | LiveOp(r, o) && LiveVar(r, u)
      ensures multiset(r.ops[o].inputs)[u] == multiset(r.vars[u].destOps)[o]
      ensures multiset(r.ops[o].outputs)[u] == if r.vars[u].sourceOp == Some(o) then 1 else 0
    {
      assert r.vars[u].destOps == s.vars[u].destOps && r.vars[u].sourceOp == s.vars[u].sourceOp;
    }
    LinkedByPairs(r);
  }

  lemma EditVariableKeepsClosure(s: GraphState, w: VarId, x: Variable)
    requires WellFormed(s) && w in s.vars && SamePlace(s.vars[w], x)
    ensures Closed(EditVariable(s, w, x))
  {
    EditVariableLiveness(s, w, x);
  }

  lemma EditVariableKeepsWellFormed(s: GraphState, w: VarId, x: Variable)
    requires WellFormed(s) && w in s.vars && SamePlace(s.vars[w], x)
    ensures WellFormed(EditVariable(s, w, x))
    ensures LiveOps(EditVariable(s, w, x)) == LiveOps(s)
    ensures LiveVars(EditVariable(s, w, x)) == LiveVars(s)
  {
    EditVariableLiveness(s, w, x);
    EditVariableKeepsLinks(s, w, x);
    EditVariableKeepsClosure(s, w, x);
  }

  /** `op.inputs[op.inputs.index(v)] = h; h.dest_ops.append(op)`, with
      `v.dest_ops` losing one listing of op: the first use of v by op moved
      to h. */
  function MoveInput(s: GraphState, o: OpId, v: VarId, h: VarId): (r: GraphState)
    requires o in s.ops && v in s.ops[o].inputs && v in s.vars && h in s.vars && h != v
    requires o in s.vars[v].destOps
    ensures r.ops.Keys == s.ops.Keys && r.vars.Keys == s.vars.Keys
  {
    var op := s.ops[o];
    s.(ops := s.ops[o := op.(inputs := op.inputs[IndexOf(op.inputs, v) := h])],
       vars := s.vars[v := s.vars[v].(destOps := RemoveFirst(s.vars[v].destOps, o))]
                     [h := s.vars[h].(destOps := s.vars[h].destOps + [o])])
  }

  lemma MoveInputCounts(s: GraphState, o: OpId, v: VarId, h: VarId, p: OpId, w: VarId)
    requires o in s.ops && v in s.ops[o].inputs && v in s.vars && h in s.vars && h != v
    requires o in s.vars[v].destOps && p in s.ops && w in s.vars
    ensures var r := MoveInput(s, o, v, h);
      multiset(r.ops[p].inputs)[w] + multiset(s.vars[w].destOps)[p]
      == multiset(r.vars[w].destOps)[p] + multiset(s.ops[p].inputs)[w]
  {
    var r := MoveInput(s, o, v, h);
    var ins := s.ops[o].inputs;
    var i := IndexOf(ins, v);
    MultisetOfUpdate(ins, i, h);
    assert multiset(r.vars[h].destOps) == multiset(s.vars[h].destOps) + multiset{o};
  }

  lemma MoveInputLiveness(s: GraphState, o: OpId, v: VarId, h: VarId)
    requires o in s.ops && v in s.ops[o].inputs && v in s.vars && h in s.vars && h != v
    requires o in s.vars[v].destOps
    ensures forall p :: LiveOp(MoveInput(s, o, v, h), p) <==> LiveOp(s, p)
    ensures forall u :: LiveVar(MoveInput(s, o, v, h), u) <==> LiveVar(s, u)
  {
  }

  lemma MoveInputKeepsLinks(s: GraphState, o: OpId, v: VarId, h: VarId)
    requires Linked(s) && o in s.ops && v in s.vars && h in s.vars && h != v
    requires v in s.ops[o].inputs && o in s.vars[v].destOps
    ensures Linked(MoveInput(s, o, v, h))
  {
    var r := MoveInput(s, o, v, h);
    MoveInputLiveness(s, o, v, h);
    forall p, w | LiveOp(r, p) && LiveVar(r, w)
      ensures multiset(r.ops[p].inputs)[w] == multiset(r.vars[w].destOps)[p]
    {
      assert LiveOp(s, p) && LiveVar(s, w);
      MoveInputCounts(s, o, v, h, p, w);
    }
    forall p, w | LiveOp(r, p) && LiveVar(r, w)
      ensures multiset(r.ops[p].outputs)[w] == if r.vars[w].sourceOp == Some(p) then 1 else 0
    {
      assert LiveOp(s, p) && LiveVar(s, w);
      assert r.ops[p].outputs == s.ops[p].outputs && r.vars[w].sourceOp == s.vars[w].sourceOp;
    }
  }

  lemma MoveInputKeepsClosure(s: GraphState, o: OpId, v: VarId, h: VarId)
    requires Closed(s) && LiveOp(s, o) && LiveVar(s, h) && v in s.vars && h != v
    requires v in s.ops[o].inputs && o in s.vars[v].destOps
    ensures Closed(MoveInput(s, o, v, h))
  {
    var r := MoveInput(s, o, v, h);
    MoveInputLiveness(s, o, v, h);
    var ins := s.ops[o].inputs;
    var i := IndexOf(ins, v);
    forall p, w | LiveOp(r, p) && w in r.ops[p].inputs ensures LiveVar(r, w) {
      if p == o {
        var j :| 0 <= j < |r.ops[o].inputs| && r.ops[o].inputs[j] == w;
        if j != i {
          assert ins[j] == w;
        }
      } else {
        assert r.ops[p] == s.ops[p];
      }
    }
    forall p, w | LiveOp(r, p) && w in r.ops[p].outputs ensures LiveVar(r, w) {
      assert r.ops[p].outputs == s.ops[p].outputs;
    }
    forall w | LiveVar(r, w) && r.vars[w].sourceOp.Some? ensures LiveOp(r, r.vars[w].sourceOp.value) {
      assert r.vars[w].sourceOp == s.vars[w].sourceOp;
    }
    forall w, p | LiveVar(r, w) && p in r.vars[w].destOps ensures LiveOp(r, p) {
      if w == v {
        assert multiset(r.vars[v].destOps)[p] <= multiset(s.vars[v].destOps)[p];
      } else if w == h {
        assert p in s.vars[h].destOps || p == o;
      } else {
        assert r.vars[w] == s.vars[w];
      }
    }
  }

  lemma MoveInputKeepsNames(s: GraphState, o: OpId, v: VarId, h: VarId)
    requires NamesConsistent(s) && o in s.ops && v in s.ops[o].inputs && v in s.vars && h in s.vars && h != v
    requires o in s.vars[v].destOps
    ensures NamesConsistent(MoveInput(s, o, v, h))
    ensures LiveOps(MoveInput(s, o, v, h)) == LiveOps(s)
    ensures LiveVars(MoveInput(s, o, v, h)) == LiveVars(s)
  {
    MoveInputLiveness(s, o, v, h);
  }

  lemma MoveInputKeepsWellFormed(s: GraphState, o: OpId, v: VarId, h: VarId)
    requires WellFormed(s) && LiveOp(s, o) && LiveVar(s, v) && LiveVar(s, h) && h != v
    requires v in s.ops[o].inputs
    ensures o in s.vars[v].destOps
    ensures WellFormed(MoveInput(s, o, v, h))
    ensures LiveOps(MoveInput(s, o, v, h)) == LiveOps(s)
    ensures LiveVars(MoveInput(s, o, v, h)) == LiveVars(s)
  {
    assert multiset(s.ops[o].inputs)[v] > 0;
    MoveInputKeepsNames(s, o, v, h);
    MoveInputKeepsLinks(s, o, v, h);
    MoveInputKeepsClosure(s, o, v, h);
  }

  /** `v.dest_ops.pop(v.dest_ops.index(op)); op.inputs.pop(i)` for the
      variable v at input i of op. */
  function DeleteInput(s: GraphState, o: OpId, i: nat): (r: GraphState)
    requires o in s.ops && i < |s.ops[o].inputs| && s.ops[o].inputs[i] in s.vars
    requires o in s.vars[s.ops[o].inputs[i]].destOps
    ensures r.ops.Keys == s.ops.Keys && r.vars.Keys == s.vars.Keys
  {
    var op := s.ops[o];
    var v := op.inputs[i];
    s.(ops := s.ops[o := op.(inputs := RemoveAt(op.inputs, i))],
       vars := s.vars[v := s.vars[v].(destOps := RemoveFirst(s.vars[v].destOps, o))])
  }

  lemma DeleteInputCounts(s: GraphState, o: OpId, i: nat, p: OpId, w: VarId)
    requires o in s.ops && i < |s.ops[o].inputs| && s.ops[o].inputs[i] in s.vars
    requires o in s.vars[s.ops[o].inputs[i]].destOps && p in s.ops && w in s.vars
    ensures var r := DeleteInput(s, o, i);
      multiset(r.ops[p].inputs)[w] + multiset(s.vars[w].destOps)[p]
      == multiset(r.vars[w].destOps)[p] + multiset(s.ops[p].inputs)[w]
  {
  }

  lemma DeleteInputLiveness(s: GraphState, o: OpId, i: nat)
    requires o in s.ops && i < |s.ops[o].inputs| && s.ops[o].inputs[i] in s.vars
    requires o in s.vars[s.ops[o].inputs[i]].destOps
    ensures forall p :: LiveOp(DeleteInput(s, o, i), p) <==> LiveOp(s, p)
    ensures forall u :: LiveVar(DeleteInput(s, o, i), u) <==> LiveVar(s, u)
  {
  }

  lemma DeleteInputKeepsNames(s: GraphState, o: OpId, i: nat)
    requires NamesConsistent(s) && o in s.ops && i < |s.ops[o].inputs| && s.ops[o].inputs[i] in s.vars
    requires o in s.vars[s.ops[o].inputs[i]].destOps
    ensures NamesConsistent(DeleteInput(s, o, i))
    ensures LiveOps(DeleteInput(s, o, i)) == LiveOps(s)
    ensures LiveVars(DeleteInput(s, o, i)) == LiveVars(s)
  {
    DeleteInputLiveness(s, o, i);
  }

  lemma DeleteInputKeepsLinks(s: GraphState, o: OpId, i: nat)
    requires Linked(s) && o in s.ops && i < |s.ops[o].inputs| && s.ops[o].inputs[i] in s.vars
    requires o in s.vars[s.ops[o].inputs[i]].destOps
    ensures Linked(DeleteInput(s, o, i))
  {
    var r := DeleteInput(s, o, i);
    DeleteInputLiveness(s, o, i);
    forall p, w | LiveOp(r, p) && LiveVar(r, w)
      ensures multiset(r.ops[p].inputs)[w] == multiset(r.vars[w].destOps)[p]
    {
      assert LiveOp(s, p) && LiveVar(s, w);
      DeleteInputCounts(s, o, i, p, w);
    }
    forall p, w | LiveOp(r, p) && LiveVar(r, w)
      ensures multiset(r.ops[p].outputs)[w] == if r.vars[w].sourceOp == Some(p) then 1 else 0
    {
      assert LiveOp(s, p) && LiveVar(s, w);
      assert r.ops[p].outputs == s.ops[p].outputs && r.vars[w].sourceOp == s.vars[w].sourceOp;
    }
  }

  lemma DeleteInputKeepsClosure(s: GraphState, o: OpId, i: nat)
    requires Closed(s) && LiveOp(s, o) && i < |s.ops[o].inputs| && s.ops[o].inputs[i] in s.vars
    requires o in s.vars[s.ops[o].inputs[i]].destOps
    ensures Closed(DeleteInput(s, o, i))
  {
    var r := DeleteInput(s, o, i);
    var v := s.ops[o].inputs[i];
    DeleteInputLiveness(s, o, i);
    forall p, w | LiveOp(r, p) && w in r.ops[p].inputs ensures LiveVar(r, w) {
      if p == o {
        assert multiset(r.ops[o].inputs)[w] <= multiset(s.ops[o].inputs)[w];
      } else {
        assert r.ops[p] == s.ops[p];
      }
    }
    forall p, w | LiveOp(r, p) && w in r.ops[p].outputs ensures LiveVar(r, w) {
      assert r.ops[p].outputs == s.ops[p].outputs;
    }
    forall w | LiveVar(r, w) && r.vars[w].sourceOp.Some? ensures LiveOp(r, r.vars[w].sourceOp.value) {
      assert r.vars[w].sourceOp == s.vars[w].sourceOp;
    }
    forall w, p | LiveVar(r, w) && p in r.vars[w].destOps ensures LiveOp(r, p) {
      if w == v {
        assert multiset(r.vars[v].destOps)[p] <= multiset(s.vars[v].destOps)[p];
      } else {
        assert r.vars[w] == s.vars[w];
      }
    }
  }

  lemma DeleteInputKeepsWellFormed(s: GraphState, o: OpId, i: nat)
    requires WellFormed(s) && LiveOp(s, o) && i < |s.ops[o].inputs|
    ensures LiveVar(s, s.ops[o].inputs[i]) && o in s.vars[s.ops[o].inputs[i]].destOps
    ensures WellFormed(DeleteInput(s, o, i))
    ensures LiveOps(DeleteInput(s, o, i)) == LiveOps(s)
    ensures LiveVars(DeleteInput(s, o, i)) == LiveVars(s)
  {
    var v := s.ops[o].inputs[i];
    assert v in s.ops[o].inputs;
    assert LiveVar(s, v);
    assert multiset(s.ops[o].inputs)[v] > 0;
    DeleteInputKeepsNames(s, o, i);
    DeleteInputKeepsLinks(s, o, i);
    DeleteInputKeepsClosure(s, o, i);
  }

  /** The decimal digits of n, as Python's `f"{n}"` writes them. */
  function DecimalString(n: nat): (r: string)
    ensures |r| >= 1 && forall k | 0 <= k < |r| :: '0' <= r[k] <= '9'
  {
    var d := ['0' + (n % 10) as char];
    if n < 10 then d else DecimalString(n / 10) + d
  }

  /** The number a string of decimal digits spells. */
  function DigitsValue(r: string): nat
    requires forall k | 0 <= k < |r| :: '0' <= r[k] <= '9'
  {
    if r == [] then 0 else DigitsValue(r[..|r| - 1]) * 10 + (r[|r| - 1] - '0') as int
  }

  /** The digits spell n back, without a leading zero. */
  lemma {:induction false} DecimalStringValue(n: nat)
    ensures DigitsValue(DecimalString(n)) == n
    ensures n > 0 ==> DecimalString(n)[0] != '0'
  {
    var r := DecimalString(n);
    if n >= 10 {
      DecimalStringValue(n / 10);
      assert r[..|r| - 1] == DecimalString(n / 10);
    }
  }

  /** Distinct numbers get distinct names' suffixes. */
  lemma DecimalStringInjective(m: nat, n: nat)
    ensures DecimalString(m) == DecimalString(n) ==> m == n
  {
    DecimalStringValue(m);
    DecimalStringValue(n);
  }
}
