/** What `remove_constant_input` and the constant-input helpers of
    `GraphFormatter` do to a graph, as relations between states, with the
    step lemmas their loops use. */
module ConstantSpecs {
  import opened Wrappers
  import opened Seqs
  import opened Ir
  import opened Rewrites

  /** The Constant operations of the graph. */
  ghost function Constants(s: GraphState): set<OpId> {
    set o | o in LiveOps(s) && s.ops[o].opType == "Constant"
  }

  /** Some Constant operation does not have exactly one output: the
      `ValueError` of `remove_constant_input`. */
  ghost predicate BadConstant(s: GraphState) {
    exists o | o in Constants(s) :: |s.ops[o].outputs| != 1
  }

  /** Some Constant operation has no `value` attribute: the `KeyError` of
      `const_op.attributes["value"]`. */
  ghost predicate ValuelessConstant(s: GraphState) {
    exists o | o in Constants(s) :: "value" !in s.ops[o].attributes
  }

  /** A variable turned into a parameter holding a constant's value, with
      no producer left. */
  predicate Folded(x: Variable, value: Value) {
    x.isParameter && x.value == Some(value) && x.sourceOp == None
  }

  /** The graph after the Constant operations in `done` are folded: they are
      gone, every other operation is as it was, no variable left the graph,
      and the output of each folded constant is a parameter holding its
      value. */
  ghost predicate ConstRound(s: GraphState, t: GraphState, done: set<OpId>) {
    && (forall c | c in Constants(s) :: |s.ops[c].outputs| == 1)
    && done <= Constants(s)
    && OthersKept(s, t, done)
    && AllFolded(s, t, done)
    && DictsKept(s, t, done)
    && VarsUnlinked(s, t, done)
  }

  /** The operations in `done` are gone, with their input and output lists
      cleared, and every other one is as it was; no variable left the
      graph. */
  ghost predicate OthersKept(s: GraphState, t: GraphState, done: set<OpId>) {
    && LiveOps(t) == LiveOps(s) - done && LiveVars(t) == LiveVars(s)
    && t.ops.Keys == s.ops.Keys && t.vars.Keys == s.vars.Keys
    && (forall p | p in LiveOps(s) - done :: t.ops[p] == s.ops[p])
    && (forall p | p in s.ops && p !in LiveOps(s) :: t.ops[p] == s.ops[p])
    && (forall c | c in done && c in s.ops :: t.ops[c] == s.ops[c].(inputs := [], outputs := []))
  }

  /** The output of each constant in `done` is a graph variable holding its
      value as a parameter, with no producer, and with the folded constants
      dropped from its consumers. */
  ghost predicate AllFolded(s: GraphState, t: GraphState, done: set<OpId>) {
    forall c | c in done && c in s.ops && |s.ops[c].outputs| == 1 ::
      && "value" in s.ops[c].attributes && s.ops[c].outputs[0] in LiveVars(t) && s.ops[c].outputs[0] in s.vars
      && var w := s.ops[c].outputs[0];
         t.vars[w] == s.vars[w].(isParameter := true, value := Some(s.ops[c].attributes["value"]), sourceOp := None,
                                 destOps := DropAll(s.vars[w].destOps, done))
  }

  /** Only the folded constants leave the operation dictionary; the
      variable dictionary and the graph inputs and outputs are as they
      were. */
  ghost predicate DictsKept(s: GraphState, t: GraphState, done: set<OpId>) {
    && t.operations == WithoutValues(s.operations, done)
    && t.variables == s.variables && t.inputs == s.inputs && t.outputs == s.outputs
  }

  /** The outputs of the constants in `done`. */
  ghost function FoldedOutputs(s: GraphState, done: set<OpId>): set<VarId> {
    set c | c in done && c in s.ops && |s.ops[c].outputs| == 1 :: s.ops[c].outputs[0]
  }

  /** Every other graph variable only drops the folded constants from its
      consumers, and a variable outside the graph is untouched. */
  ghost predicate VarsUnlinked(s: GraphState, t: GraphState, done: set<OpId>)
    requires t.vars.Keys == s.vars.Keys
  {
    && (forall w | w in s.vars && w !in LiveVars(s) :: t.vars[w] == s.vars[w])
    && (forall w | w in LiveVars(s) && w !in FoldedOutputs(s, done) ::
          t.vars[w] == s.vars[w].(destOps := DropAll(s.vars[w].destOps, done)))
  }

  lemma ConstRoundStart(s: GraphState)
    requires WellFormed(s) && !BadConstant(s)
    ensures FoldLoop(s, s, Constants(s))
  {
    assert Constants(s) - Constants(s) == {};
    WithoutNoValues(s.operations);
    assert FoldedOutputs(s, {}) == {};
    forall w | w in LiveVars(s) ensures DropAll(s.vars[w].destOps, {}) == s.vars[w].destOps {
      DropAllNothing(s.vars[w].destOps);
    }
  }

  /** A constant about to be folded is as it was, and its output is a graph
      variable it produces. */
  lemma ConstVisit(s: GraphState, t: GraphState, done: set<OpId>, c: OpId)
    requires WellFormed(t) && ConstRound(s, t, done) && c in Constants(s) && c !in done
    ensures LiveOp(t, c) && t.ops[c] == s.ops[c] && |t.ops[c].outputs| == 1
    ensures LiveVar(t, t.ops[c].outputs[0]) && t.vars[t.ops[c].outputs[0]].sourceOp == Some(c)
  {
    assert c in LiveOps(t);
    var w := t.ops[c].outputs[0];
    assert w in t.ops[c].outputs;
    assert LiveVar(t, w);
    assert multiset(t.ops[c].outputs)[w] > 0;
  }

  /** Setting the output w of c to a parameter and then removing c. */
  function FoldState(t: GraphState, c: OpId, w: VarId, value: Value): GraphState
    requires w in t.vars && c in t.ops
  {
    RemoveOperationState(EditVariable(t, w, t.vars[w].(isParameter := true, value := Some(value))), c)
  }

  lemma FoldKeepsWellFormed(t: GraphState, c: OpId, w: VarId, value: Value)
    requires WellFormed(t) && LiveOp(t, c) && w in t.vars
    ensures var r := FoldState(t, c, w, value);
      && WellFormed(r) && LiveOps(r) == LiveOps(t) - {c} && LiveVars(r) == LiveVars(t)
  {
    var e := EditVariable(t, w, t.vars[w].(isParameter := true, value := Some(value)));
    EditVariableKeepsWellFormed(t, w, t.vars[w].(isParameter := true, value := Some(value)));
    assert LiveOp(e, c) by {
      assert c in LiveOps(e);
    }
    RemoveOperationKeepsWellFormed(e, c);
    RemoveOperationLiveSets(e, c);
  }

  /** Folding keeps every other operation and every variable already
      folded, and folds w. */
  lemma FoldEffect(t: GraphState, c: OpId, w: VarId, value: Value)
    requires w in t.vars && c in t.ops && t.vars[w].sourceOp == Some(c) && w in t.ops[c].outputs
    ensures var r := FoldState(t, c, w, value);
      && r.ops.Keys == t.ops.Keys && r.vars.Keys == t.vars.Keys
      && (forall p | p in t.ops && p != c :: r.ops[p] == t.ops[p])
      && r.ops[c] == t.ops[c].(inputs := [], outputs := [])
      && Folded(r.vars[w], value)
      && (forall u, x | u in t.vars && u != w && Folded(t.vars[u], x) :: Folded(r.vars[u], x))
  {
  }

  lemma ConstStep(s: GraphState, t: GraphState, done: set<OpId>, c: OpId)
    requires WellFormed(t) && ConstRound(s, t, done) && c in Constants(s) && c !in done && "value" in s.ops[c].attributes
    ensures c in t.ops && |t.ops[c].outputs| == 1 && t.ops[c].outputs[0] in t.vars
    ensures LiveOp(t, c)
    ensures ConstRound(s, FoldState(t, c, t.ops[c].outputs[0], t.ops[c].attributes["value"]), done + {c})
  {
    ConstVisit(s, t, done, c);
    var w := t.ops[c].outputs[0];
    var value := t.ops[c].attributes["value"];
    assert t.ops[c].outputs == [w];
    var r := FoldState(t, c, w, value);
    FoldKeepsWellFormed(t, c, w, value);
    FoldEffect(t, c, w, value);
    FoldVarsEffect(t, c, w, value);
    FoldDicts(s, t, done, c, w, value);
    ConstAdvance(s, t, r, done, c, w);
  }

  /** ConstRound after one more fold, from the effect of the fold. */
  lemma ConstAdvance(s: GraphState, t: GraphState, r: GraphState, done: set<OpId>, c: OpId, w: VarId)
    requires ConstRound(s, t, done) && c in Constants(s) && c !in done && "value" in s.ops[c].attributes
    requires t.ops[c] == s.ops[c] && s.ops[c].outputs == [w] && LiveVar(t, w) && t.vars[w].sourceOp == Some(c)
    requires LiveOps(r) == LiveOps(t) - {c} && LiveVars(r) == LiveVars(t)
    requires r.ops.Keys == t.ops.Keys && r.vars.Keys == t.vars.Keys
    requires forall p | p in t.ops && p != c :: r.ops[p] == t.ops[p]
    requires r.ops[c] == t.ops[c].(inputs := [], outputs := [])
    requires FoldUnlinks(t, r, c, w, s.ops[c].attributes["value"])
    requires DictsKept(s, r, done + {c})
    ensures ConstRound(s, r, done + {c})
  {
    FoldFrame(s, t, r, done, c);
    FoldVars(s, t, r, done, c, w, s.ops[c].attributes["value"]);
    FoldVarsFolded(s, t, r, done, c, w);
  }

  /** The dictionaries after one more fold. */
  lemma FoldDicts(s: GraphState, t: GraphState, done: set<OpId>, c: OpId, w: VarId, value: Value)
    requires NamesConsistent(t) && LiveOp(t, c) && w in t.vars && DictsKept(s, t, done)
    ensures DictsKept(s, FoldState(t, c, w, value), done + {c})
  {
    var name := t.ops[c].name;
    forall n | n in t.operations ensures t.operations[n] == c <==> n == name {
      assert t.ops[t.operations[n]].name == n;
    }
  }

  /** How folding c, whose only output is w, changes a graph variable u:
      u loses c among its consumers, and w becomes a parameter holding the
      value with no producer. */
  lemma FoldVarAt(t: GraphState, c: OpId, w: VarId, value: Value, u: VarId)
    requires WellFormed(t) && LiveOp(t, c) && t.ops[c].outputs == [w] && w in t.vars && LiveVar(t, u)
    ensures var x := if u == w then t.vars[u].(isParameter := true, value := Some(value), sourceOp := None) else t.vars[u];
      FoldState(t, c, w, value).vars[u]
      == x.(destOps := if c in t.vars[u].destOps then Without(t.vars[u].destOps, c) else t.vars[u].destOps)
  {
    assert multiset(t.ops[c].inputs)[u] == multiset(t.vars[u].destOps)[c];
  }

  /** A variable outside the graph is not linked to c. */
  lemma FoldVarOutside(t: GraphState, c: OpId, w: VarId, value: Value, u: VarId)
    requires WellFormed(t) && LiveOp(t, c) && t.ops[c].outputs == [w] && w in t.vars
    requires u in t.vars && !LiveVar(t, u)
    ensures FoldState(t, c, w, value).vars[u] == t.vars[u]
  {
    assert u !in t.ops[c].inputs;
    assert LiveVar(t, w);
  }

  /** Folding c, whose only output is w, over every variable. */
  lemma FoldVarsEffect(t: GraphState, c: OpId, w: VarId, value: Value)
    requires WellFormed(t) && LiveOp(t, c) && t.ops[c].outputs == [w] && w in t.vars
    ensures FoldUnlinks(t, FoldState(t, c, w, value), c, w, value)
  {
    var r := FoldState(t, c, w, value);
    forall u | LiveVar(t, u) ensures r.vars[u] == FoldedVar(t, c, w, value, u) {
      FoldVarAt(t, c, w, value, u);
    }
    forall u | u in t.vars && !LiveVar(t, u) ensures r.vars[u] == t.vars[u] {
      FoldVarOutside(t, c, w, value, u);
    }
  }

  /** The record of graph variable u once c, whose only output is w, is
      folded. */
  ghost function FoldedVar(t: GraphState, c: OpId, w: VarId, value: Value, u: VarId): Variable
    requires u in t.vars
  {
    var x := if u == w then t.vars[u].(isParameter := true, value := Some(value), sourceOp := None) else t.vars[u];
    x.(destOps := if c in t.vars[u].destOps then Without(t.vars[u].destOps, c) else t.vars[u].destOps)
  }

  ghost predicate FoldUnlinks(t: GraphState, r: GraphState, c: OpId, w: VarId, value: Value) {
    && r.vars.Keys == t.vars.Keys
    && (forall u | LiveVar(t, u) :: r.vars[u] == FoldedVar(t, c, w, value, u))
    && (forall u | u in t.vars && !LiveVar(t, u) :: r.vars[u] == t.vars[u])
  }

  /** The variables after one more fold. */
  lemma FoldVars(s: GraphState, t: GraphState, r: GraphState, done: set<OpId>, c: OpId, w: VarId, value: Value)
    requires FoldUnlinks(t, r, c, w, value)
    requires c in s.ops && c !in done && s.ops[c].outputs == [w]
    requires LiveVar(t, w) && t.vars[w].sourceOp == Some(c)
    requires t.vars.Keys == s.vars.Keys && LiveVars(t) == LiveVars(s) && LiveVars(r) == LiveVars(t)
    requires VarsUnlinked(s, t, done) && AllFolded(s, t, done)
    ensures VarsUnlinked(s, r, done + {c})
  {
    assert FoldedOutputs(s, done + {c}) == FoldedOutputs(s, done) + {w};
    forall u | u in s.vars && u !in LiveVars(s) ensures r.vars[u] == s.vars[u] {
      assert u !in LiveVars(t);
    }
    forall u | u in LiveVars(s) && u !in FoldedOutputs(s, done + {c})
      ensures r.vars[u] == s.vars[u].(destOps := DropAll(s.vars[u].destOps, done + {c}))
    {
      assert LiveVar(t, u);
      DropAllMore(s.vars[u].destOps, done, c);
    }
  }

  lemma FoldVarsFolded(s: GraphState, t: GraphState, r: GraphState, done: set<OpId>, c: OpId, w: VarId)
    requires c in s.ops && c !in done && s.ops[c].outputs == [w] && "value" in s.ops[c].attributes
    requires FoldUnlinks(t, r, c, w, s.ops[c].attributes["value"])
    requires LiveVar(t, w) && t.vars[w].sourceOp == Some(c)
    requires t.vars.Keys == s.vars.Keys && LiveVars(t) == LiveVars(s) && LiveVars(r) == LiveVars(t)
    requires VarsUnlinked(s, t, done) && AllFolded(s, t, done)
    ensures AllFolded(s, r, done + {c})
  {
    var value := s.ops[c].attributes["value"];
    assert w !in FoldedOutputs(s, done);
    forall d | d in done + {c} && d in s.ops && |s.ops[d].outputs| == 1
      ensures var u := s.ops[d].outputs[0];
        && "value" in s.ops[d].attributes && u in LiveVars(r) && u in s.vars
        && r.vars[u] == s.vars[u].(isParameter := true, value := Some(s.ops[d].attributes["value"]), sourceOp := None,
                                   destOps := DropAll(s.vars[u].destOps, done + {c}))
    {
      var u := s.ops[d].outputs[0];
      if d != c {
        assert t.vars[u].sourceOp == None;
        assert LiveVar(t, u);
      } else {
        assert u == w;
        assert w in LiveVars(s);
      }
      DropAllMore(s.vars[u].destOps, done, c);
    }
  }

  /** The operations after one more fold. */
  lemma FoldFrame(s: GraphState, t: GraphState, r: GraphState, done: set<OpId>, c: OpId)
    requires OthersKept(s, t, done) && c in LiveOps(s) && c !in done
    requires LiveOps(r) == LiveOps(t) - {c} && LiveVars(r) == LiveVars(t)
    requires r.ops.Keys == t.ops.Keys && r.vars.Keys == t.vars.Keys
    requires forall p | p in t.ops && p != c :: r.ops[p] == t.ops[p]
    requires r.ops[c] == t.ops[c].(inputs := [], outputs := [])
    ensures OthersKept(s, r, done + {c})
  {
    assert LiveOps(s) - (done + {c}) == (LiveOps(s) - done) - {c};
  }

  /** The state of the folding loop of `remove_constant_input` with the
      constants in rest still to visit. */
  ghost predicate FoldLoop(s: GraphState, t: GraphState, rest: set<OpId>) {
    rest <= Constants(s) && ConstRound(s, t, Constants(s) - rest)
  }

  lemma FoldLoopVisit(s: GraphState, t: GraphState, rest: set<OpId>, c: OpId)
    requires WellFormed(t) && FoldLoop(s, t, rest) && c in rest
    ensures c in Constants(s) && LiveOp(t, c) && t.ops[c] == s.ops[c] && |t.ops[c].outputs| == 1
    ensures LiveVar(t, t.ops[c].outputs[0]) && t.vars[t.ops[c].outputs[0]].sourceOp == Some(c)
    ensures "value" !in t.ops[c].attributes ==> ValuelessConstant(s)
  {
    ConstVisit(s, t, Constants(s) - rest, c);
  }

  /** Folding c moves it from the constants to visit to the folded ones. */
  lemma FoldLoopNext(s: GraphState, r: GraphState, rest: set<OpId>, c: OpId)
    requires rest <= Constants(s) && c in rest && ConstRound(s, r, (Constants(s) - rest) + {c})
    ensures FoldLoop(s, r, rest - {c})
  {
    assert Constants(s) - (rest - {c}) == (Constants(s) - rest) + {c};
  }

  lemma FoldLoopDone(s: GraphState, t: GraphState)
    requires FoldLoop(s, t, {})
    ensures ConstRound(s, t, Constants(s)) && !ValuelessConstant(s)
  {
    assert Constants(s) - {} == Constants(s);
    ConstantsFolded(s, t);
  }

  /** At the end of `remove_constant_input` no Constant operation is left,
      and the output of each one is a graph variable holding its value as a
      parameter. */
  lemma ConstantsFolded(s: GraphState, t: GraphState)
    requires ConstRound(s, t, Constants(s))
    ensures forall o | o in LiveOps(t) :: t.ops[o].opType != "Constant"
    ensures forall c | c in Constants(s) ::
      && |s.ops[c].outputs| == 1 && LiveVar(t, s.ops[c].outputs[0])
      && "value" in s.ops[c].attributes && Folded(t.vars[s.ops[c].outputs[0]], s.ops[c].attributes["value"])
  {
  }

  // ---------------------------------------------------------------------
  // __add_constant_input and __delete_constant_input
  // ---------------------------------------------------------------------

  /** The name `__add_constant_input` gives the new input of x:
      `f"{op_name}_{len(op.inputs) + 1}"`. */
  function ConstInputName(x: Operation): string {
    x.name + "_" + DecimalString(|x.inputs| + 1)
  }

  /** The new parameter variable h, consumed by p and appended to its
      inputs. */
  function ConstantAdded(t: GraphState, p: OpId, h: VarId, name: string, value: Value): GraphState
    requires p in t.ops
  {
    t.(vars := t.vars[h := Variable(name, Some(value), true, None, [p])],
       variables := t.variables[name := h],
       ops := t.ops[p := t.ops[p].(inputs := t.ops[p].inputs + [h])])
  }

  lemma ConstantAddedWellFormed(t: GraphState, p: OpId, h: VarId, name: string, value: Value)
    requires WellFormed(t) && LiveOp(t, p) && h !in t.vars && name !in t.variables
    ensures WellFormed(ConstantAdded(t, p, h, name, value))
  {
    var x := Variable(name, Some(value), true, None, [p]);
    assert multiset(x.destOps)[p] == 1;
    assert Repeat(h, 1) == [h];
    var c := CreateVariableState(t, h, x);
    assert c == ConstantAdded(t, p, h, name, value);
    CreateVariableKeepsWellFormed(t, h, x);
  }

  /** What `__add_constant_input` leaves: p has one more input, the new
      parameter variable registered under the given name and holding the
      value, consumed only by p. */
  lemma ConstantAddedInput(t: GraphState, p: OpId, h: VarId, name: string, value: Value)
    requires WellFormed(t) && LiveOp(t, p) && h !in t.vars && name !in t.variables
    ensures var r := ConstantAdded(t, p, h, name, value);
      && LiveVar(r, h) && r.vars[h].isParameter && r.vars[h].value == Some(value)
      && r.vars[h].sourceOp == None && r.vars[h].destOps == [p]
      && r.ops[p].inputs == t.ops[p].inputs + [h] && LiveOp(r, p)
      && (forall q | q in t.ops && q != p :: r.ops[q] == t.ops[q])
  {
  }

  /** Python's `seq[i]` for an int index: negative indices count from the
      end. */
  function PyIndex(i: int, n: nat): (k: nat)
    requires -(n as int) <= i < n
    ensures k < n && (i >= 0 ==> k == i) && (i < 0 ==> k == n + i)
  {
    if i < 0 then n + i else i
  }

  /** What `__delete_constant_input(op, input_idx)` checks before changing
      anything. */
  ghost function DeleteCheck(s: GraphState, x: Operation, idx: int): Outcome<GraphError> {
    if x.name !in s.operations || s.operations[x.name] !in s.ops then Fail(KeyError)
    else
      var p := s.operations[x.name];
      var n := |s.ops[p].inputs|;
      if idx >= n then Fail(ValueError)
      else if idx < -(n as int) then Fail(IndexError)
      else
        var v := s.ops[p].inputs[PyIndex(idx, n)];
        if v !in s.vars || s.vars[v].sourceOp.None? then Fail(ValueError)
        else if s.vars[v].sourceOp.value !in s.ops || s.ops[s.vars[v].sourceOp.value].opType != "Constant" then Fail(ValueError)
        else Pass
  }

  /** After the checks pass in a well-formed graph: the input is a graph
      variable produced by a live Constant operation. */
  lemma DeleteCheckPassed(s: GraphState, x: Operation, idx: int)
    requires WellFormed(s) && DeleteCheck(s, x, idx).Pass?
    ensures x.name in s.operations && LiveOp(s, s.operations[x.name])
    ensures var p := s.operations[x.name];
      var n := |s.ops[p].inputs|;
      && -(n as int) <= idx < n
      && var v := s.ops[p].inputs[PyIndex(idx, n)];
         && LiveVar(s, v) && s.vars[v].sourceOp.Some? && LiveOp(s, s.vars[v].sourceOp.value)
         && s.ops[s.vars[v].sourceOp.value].opType == "Constant"
  {
    var p := s.operations[x.name];
    assert LiveOp(s, p);
    var n := |s.ops[p].inputs|;
    var v := s.ops[p].inputs[PyIndex(idx, n)];
    assert v in s.ops[p].inputs;
  }

  /** The state `__delete_constant_input` leaves once its checks pass: the
      input slot is dropped, and when the variable has no consumer left its
      Constant producer and the variable itself are removed. */
  ghost function ConstantDeleted(s: GraphState, p: OpId, k: nat): GraphState
    requires WellFormed(s) && LiveOp(s, p) && k < |s.ops[p].inputs|
  {
    DeleteInputKeepsWellFormed(s, p, k);
    var v := s.ops[p].inputs[k];
    var t := DeleteInput(s, p, k);
    if t.vars[v].destOps == [] && t.vars[v].sourceOp.Some? && t.vars[v].sourceOp.value in t.ops then
      var c := t.vars[v].sourceOp.value;
      RemoveVariableState(RemoveOperationState(t, c), v)
    else t
  }

  /** Dropping one use of v: p loses exactly slot k, v loses one listing of
      p among its consumers, and nothing else changes. */
  lemma DeleteInputEffect(s: GraphState, p: OpId, k: nat)
    requires p in s.ops && k < |s.ops[p].inputs|
    requires s.ops[p].inputs[k] in s.vars && p in s.vars[s.ops[p].inputs[k]].destOps
    ensures var v := s.ops[p].inputs[k];
      var t := DeleteInput(s, p, k);
      && v in s.vars && t.ops[p].inputs == RemoveAt(s.ops[p].inputs, k)
      && multiset(t.vars[v].destOps) == multiset(s.vars[v].destOps) - multiset{p}
      && |t.vars[v].destOps| == |s.vars[v].destOps| - 1
      && (forall q | q in s.ops && q != p :: t.ops[q] == s.ops[q])
      && (forall w | w in s.vars && w != v :: t.vars[w] == s.vars[w])
  {
    var v := s.ops[p].inputs[k];
    var t := DeleteInput(s, p, k);
    assert |multiset(t.vars[v].destOps)| == |multiset(s.vars[v].destOps)| - 1;
  }

  /** The state `__add_constant_input` commits is `ConstantAdded`. */
  lemma ConstantAddCommitted(s: GraphState, u: GraphState, p: OpId, k: VarId, x: Variable)
    requires p in s.ops
    requires u == s.(vars := s.vars[k := x], variables := s.variables[x.name := k])
    requires x.value.Some? && x == Variable(x.name, x.value, true, None, [])
    ensures u.(vars := u.vars[k := x.(destOps := [p])], ops := u.ops[p := u.ops[p].(inputs := u.ops[p].inputs + [k])])
      == ConstantAdded(s, p, k, x.name, x.value.value)
  {
  }

  /** The producer of the dropped input is still an operation of the graph
      after the slot is dropped. */
  lemma ConstantProducerLive(s: GraphState, p: OpId, k: nat)
    requires WellFormed(s) && LiveOp(s, p) && k < |s.ops[p].inputs|
    ensures LiveVar(s, s.ops[p].inputs[k]) && p in s.vars[s.ops[p].inputs[k]].destOps
    ensures var v := s.ops[p].inputs[k];
      s.vars[v].sourceOp.Some? ==> LiveOp(DeleteInput(s, p, k), s.vars[v].sourceOp.value)
  {
    DeleteInputKeepsWellFormed(s, p, k);
    var v := s.ops[p].inputs[k];
    var t := DeleteInput(s, p, k);
    if s.vars[v].sourceOp.Some? {
      assert LiveOp(s, s.vars[v].sourceOp.value);
      assert s.vars[v].sourceOp.value in LiveOps(t);
    }
  }
}
