/** What the attribute-to-input passes of `GraphFormatter` do to each
    operation they touch, as relations between the graph before the pass and
    the graph it leaves, with the step lemmas their loops use. */
module FormatSpecs {
  import opened Wrappers
  import opened Seqs
  import opened Ir
  import opened Rewrites

  /** `graph.operations.values()`: in a graph whose dictionaries are
      consistent these are exactly the live operations. */
  lemma OperationsAreLive(s: GraphState)
    requires NamesConsistent(s)
    ensures s.operations.Values == LiveOps(s)
  {
    forall o | o in LiveOps(s) ensures o in s.operations.Values {
      assert s.operations[s.ops[o].name] == o;
    }
  }

  lemma VariablesAreLive(s: GraphState)
    requires NamesConsistent(s)
    ensures s.variables.Values == LiveVars(s)
  {
    forall v | v in LiveVars(s) ensures v in s.variables.Values {
      assert s.variables[s.vars[v].name] == v;
    }
  }

  lemma LiveIn(s: GraphState, t: GraphState, o: OpId)
    requires LiveOps(t) == LiveOps(s) && o in LiveOps(s)
    ensures LiveOp(t, o)
  {
    assert o in LiveOps(t);
  }

  /** t keeps every variable object of s as it is, and every variable of s
      that is in the graph stays in it. */
  ghost predicate Grows(s: GraphState, t: GraphState) {
    && (forall w | w in s.vars :: w in t.vars && t.vars[w] == s.vars[w])
    && LiveVars(s) <= LiveVars(t)
  }

  lemma GrowsTrans(a: GraphState, b: GraphState, c: GraphState)
    requires Grows(a, b) && Grows(b, c)
    ensures Grows(a, c)
  {
  }

  /** A new variable in t: allocated after s, in the graph, with no
      producer and the single consumer o. */
  ghost predicate FreshInput(s: GraphState, t: GraphState, h: VarId, o: OpId) {
    h !in s.vars && LiveVar(t, h) && t.vars[h].sourceOp == None && t.vars[h].destOps == [o]
  }

  lemma FreshInputKept(s: GraphState, t: GraphState, t': GraphState, h: VarId, o: OpId)
    requires FreshInput(s, t, h, o) && Grows(t, t')
    ensures FreshInput(s, t', h, o) && t'.vars[h] == t.vars[h]
  {
    assert h in LiveVars(t);
  }

  /** The graph after a new variable h is registered and appended to the
      inputs of o. */
  function AddInput(s: GraphState, h: VarId, x: Variable, o: OpId): GraphState
    requires o in s.ops
  {
    s.(vars := s.vars[h := x],
       variables := s.variables[x.name := h],
       ops := s.ops[o := s.ops[o].(inputs := s.ops[o].inputs + [h])])
  }

  /** `create_variable(value, is_parameter, dest_ops=[o])`: o gets the new
      variable as a last input and no other operation changes. */
  lemma CreateForOne(s: GraphState, h: VarId, x: Variable, o: OpId)
    requires o in s.ops && x.destOps == [o]
    ensures CreateVariableState(s, h, x) == AddInput(s, h, x, o)
  {
    assert multiset(x.destOps)[o] == 1;
    assert Repeat(h, 1) == [h];
    var c := CreateVariableState(s, h, x);
    assert c.ops == AddInput(s, h, x, o).ops;
  }

  /** A variable created for o, which a well-formed graph lets in. */
  lemma AddInputKeepsWellFormed(s: GraphState, h: VarId, x: Variable, o: OpId)
    requires WellFormed(s) && LiveOp(s, o) && CanCreate(s, h, x) && x.destOps == [o]
    ensures var c := AddInput(s, h, x, o);
      && WellFormed(c) && LiveOps(c) == LiveOps(s) && LiveVars(c) == LiveVars(s) + {h}
  {
    CreateForOne(s, h, x, o);
    CreateVariableKeepsWellFormed(s, h, x);
    CreateVariableLiveSets(s, h, x);
  }

  /** The same followed by an edit of o that keeps its links: the graph
      stays well-formed, the variable objects of s are kept, and the new
      variable is fresh. */
  lemma CreateForOperation(s: GraphState, h: VarId, x: Variable, o: OpId, y: Operation)
    requires WellFormed(s) && LiveOp(s, o) && CanCreate(s, h, x) && x.destOps == [o]
    requires SameLinks(s.ops[o].(inputs := s.ops[o].inputs + [h]), y)
    ensures var r := EditOperation(AddInput(s, h, x, o), o, y);
      && WellFormed(r) && LiveOps(r) == LiveOps(s) && Grows(s, r) && FreshInput(s, r, h, o)
      && r.vars[h] == x && r.ops.Keys == s.ops.Keys
      && (forall p | p in s.ops && p != o :: r.ops[p] == s.ops[p])
  {
    var c := AddInput(s, h, x, o);
    AddInputKeepsWellFormed(s, h, x, o);
    EditOperationKeepsWellFormed(c, o, y);
    var r := EditOperation(c, o, y);
    assert h in LiveVars(r);
  }

  // ---------------------------------------------------------------------
  // format_pad, format_resize and format_clip: each visits the operations
  // of the graph in turn and rewrites those it is interested in, moving
  // attributes to new inputs; every other operation is left as it is.
  // ---------------------------------------------------------------------

  datatype InputPass = PadPass | ResizePass | ClipPass

  /** A Pad operation that carries its pads as an attribute. */
  predicate PadWithPads(x: Operation) {
    x.opType == "Pad" && "pads" in x.attributes
  }

  /** An opset-10 Resize, with two inputs. */
  predicate ShortResize(x: Operation) {
    x.opType == "Resize" && |x.inputs| == 2
  }

  /** A Clip operation that carries a bound as an attribute. */
  predicate ClipWithBounds(x: Operation) {
    x.opType == "Clip" && ("min" in x.attributes || "max" in x.attributes)
  }

  /** The defaults of `format_clip`: `-2 << 30` and `+2 << 30`, that is
      -(2^31) and 2^31. */
  const ClipMinDefault: Value := IntVal(-2147483648)
  const ClipMaxDefault: Value := IntVal(2147483648)

  function ClipMin(x: Operation): Value {
    if "min" in x.attributes then x.attributes["min"] else ClipMinDefault
  }

  function ClipMax(x: Operation): Value {
    if "max" in x.attributes then x.attributes["max"] else ClipMaxDefault
  }

  /** The names `format_clip` gives the bound variables. */
  function MinName(x: Operation): string { x.name + "_min" }
  function MaxName(x: Operation): string { x.name + "_max" }

  predicate Touches(p: InputPass, x: Operation) {
    match p
    case PadPass => PadWithPads(x)
    case ResizePass => ShortResize(x)
    case ClipPass => ClipWithBounds(x)
  }

  /** The pads of o moved to a new parameter input, and every attribute of
      o cleared. */
  ghost predicate PadMoved(s: GraphState, t: GraphState, o: OpId)
    requires o in s.ops && o in t.ops && PadWithPads(s.ops[o])
  {
    var x := s.ops[o];
    var y := t.ops[o];
    && |y.inputs| == |x.inputs| + 1
    && y == x.(attributes := map[], inputs := x.inputs + [y.inputs[|x.inputs|]])
    && var h := y.inputs[|x.inputs|];
       && FreshInput(s, t, h, o)
       && t.vars[h].value == Some(x.attributes["pads"]) && t.vars[h].isParameter
  }

  /** An empty placeholder variable (no value, not a parameter) put in the
      second input slot of o, the old second input moved to the third. */
  ghost predicate ResizeMoved(s: GraphState, t: GraphState, o: OpId)
    requires o in s.ops && o in t.ops && ShortResize(s.ops[o])
  {
    var x := s.ops[o];
    var y := t.ops[o];
    && |y.inputs| == 3
    && y == x.(inputs := [x.inputs[0], y.inputs[1], x.inputs[1]])
    && FreshInput(s, t, y.inputs[1], o)
    && t.vars[y.inputs[1]].value == None && !t.vars[y.inputs[1]].isParameter
  }

  /** Two new parameter inputs appended to o, `<name>_min` and
      `<name>_max`, holding its bounds (or the defaults), and the bound
      attributes dropped. */
  ghost predicate ClipMoved(s: GraphState, t: GraphState, o: OpId)
    requires o in s.ops && o in t.ops
  {
    var x := s.ops[o];
    var y := t.ops[o];
    var n := |x.inputs|;
    && |y.inputs| == n + 2
    && y == x.(attributes := x.attributes - {"min", "max"}, inputs := x.inputs + [y.inputs[n], y.inputs[n + 1]])
    && FreshInput(s, t, y.inputs[n], o) && FreshInput(s, t, y.inputs[n + 1], o)
    && t.vars[y.inputs[n]] == Variable(MinName(x), Some(ClipMin(x)), true, None, [o])
    && t.vars[y.inputs[n + 1]] == Variable(MaxName(x), Some(ClipMax(x)), true, None, [o])
  }

  ghost predicate Moved(p: InputPass, s: GraphState, t: GraphState, o: OpId)
    requires o in s.ops && o in t.ops && Touches(p, s.ops[o])
  {
    match p
    case PadPass => PadMoved(s, t, o)
    case ResizePass => ResizeMoved(s, t, o)
    case ClipPass => ClipMoved(s, t, o)
  }

  /** The graph after the pass has visited the operations in `done`: it is
      well-formed, has the same operations, keeps every variable object, and
      the visited operations it is interested in are rewritten. */
  ghost predicate InputRound(p: InputPass, s: GraphState, t: GraphState, done: set<OpId>) {
    && WellFormed(t)
    && LiveOps(t) == LiveOps(s) && t.ops.Keys == s.ops.Keys
    && Grows(s, t)
    && Rewritten(p, s, t, done)
    && InputFrame(p, s, t, done)
  }

  /** The rest of the graph after the visits to `done`: the operation
      dictionary and the graph inputs and outputs are as they were,
      operations outside the graph are untouched, and every variable the
      pass added is a fresh one consumed by exactly one visited operation
      the pass is interested in. */
  ghost predicate InputFrame(p: InputPass, s: GraphState, t: GraphState, done: set<OpId>)
    requires t.ops.Keys == s.ops.Keys
  {
    && t.operations == s.operations && t.inputs == s.inputs && t.outputs == s.outputs
    && (forall q | q in s.ops && !LiveOp(s, q) :: t.ops[q] == s.ops[q])
    && (forall h | h in LiveVars(t) && h !in LiveVars(s) ::
          && h !in s.vars && h in t.vars && |t.vars[h].destOps| == 1
          && var o := t.vars[h].destOps[0]; o in done && o in s.ops && Touches(p, s.ops[o]))
  }

  /** One visit to o leaves the dictionaries it does not register new
      variables in as they were, and every variable it adds is fresh and
      consumed by o alone. */
  ghost predicate AddsInputsOf(t: GraphState, r: GraphState, o: OpId) {
    && r.operations == t.operations && r.inputs == t.inputs && r.outputs == t.outputs
    && forall h | h in LiveVars(r) && h !in LiveVars(t) :: h !in t.vars && h in r.vars && r.vars[h].destOps == [o]
  }

  /** Registering a variable under a fresh handle and a free name adds
      exactly it to the live variables. */
  lemma AddInputLiveVars(s: GraphState, h: VarId, x: Variable, o: OpId)
    requires o in s.ops && h !in s.vars && x.name !in s.variables
    ensures LiveVars(AddInput(s, h, x, o)) == LiveVars(s) + {h}
  {
    var c := AddInput(s, h, x, o);
    forall w | w in LiveVars(s) ensures w in LiveVars(c) {
      assert s.vars[w].name in s.variables;
    }
    assert LiveVar(c, h);
  }

  lemma AddInputAdds(t: GraphState, h: VarId, x: Variable, o: OpId, y: Operation)
    requires o in t.ops && h !in t.vars && x.name !in t.variables && x.destOps == [o]
    ensures AddsInputsOf(t, EditOperation(AddInput(t, h, x, o), o, y), o)
  {
    var c := AddInput(t, h, x, o);
    var r := EditOperation(c, o, y);
    AddInputLiveVars(t, h, x, o);
    assert forall w :: LiveVar(r, w) <==> LiveVar(c, w);
    assert LiveVars(r) == LiveVars(c);
  }

  lemma FrameAdvance(p: InputPass, s: GraphState, t: GraphState, r: GraphState, done: set<OpId>, o: OpId)
    requires t.ops.Keys == s.ops.Keys && r.ops.Keys == s.ops.Keys && o in s.ops && Touches(p, s.ops[o])
    requires InputFrame(p, s, t, done) && AddsInputsOf(t, r, o) && Grows(s, t) && Grows(t, r)
    requires forall q | q in s.ops && q != o :: r.ops[q] == t.ops[q]
    requires LiveOp(s, o)
    ensures InputFrame(p, s, r, done + {o})
  {
    forall h | h in LiveVars(r) && h !in LiveVars(s)
      ensures && h !in s.vars && h in r.vars && |r.vars[h].destOps| == 1
              && var q := r.vars[h].destOps[0]; q in done + {o} && q in s.ops && Touches(p, s.ops[q])
    {
      if h in LiveVars(t) {
        assert r.vars[h] == t.vars[h];
      }
    }
  }

  ghost predicate Rewritten(p: InputPass, s: GraphState, t: GraphState, done: set<OpId>)
    requires t.ops.Keys == s.ops.Keys
  {
    forall o | o in LiveOps(s) ::
      if o in done && Touches(p, s.ops[o]) then Moved(p, s, t, o) else t.ops[o] == s.ops[o]
  }

  /** The state of the loop of a pass with the operations `rest` still
      to visit. */
  ghost predicate InputLoop(p: InputPass, s: GraphState, t: GraphState, rest: set<OpId>) {
    rest <= LiveOps(s) && InputRound(p, s, t, LiveOps(s) - rest)
  }

  lemma InputLoopStart(p: InputPass, s: GraphState)
    requires WellFormed(s)
    ensures InputLoop(p, s, s, LiveOps(s))
  {
    RoundStart(p, s);
    assert LiveOps(s) - LiveOps(s) == {};
  }

  lemma InputLoopDone(p: InputPass, s: GraphState, t: GraphState)
    requires InputLoop(p, s, t, {})
    ensures InputRound(p, s, t, LiveOps(s))
  {
    assert LiveOps(s) - {} == LiveOps(s);
  }

  lemma RoundStart(p: InputPass, s: GraphState)
    requires WellFormed(s)
    ensures InputRound(p, s, s, {})
  {
    assert InputFrame(p, s, s, {});
  }

  lemma RoundSkip(p: InputPass, s: GraphState, t: GraphState, done: set<OpId>, o: OpId)
    requires InputRound(p, s, t, done) && o in LiveOps(s) && o !in done && !Touches(p, t.ops[o])
    ensures InputRound(p, s, t, done + {o})
  {
  }

  /** A rewrite is not undone by later steps, which keep the operation and
      every variable object. */
  lemma MovedKept(p: InputPass, s: GraphState, t: GraphState, r: GraphState, o: OpId)
    requires o in s.ops && o in t.ops && o in r.ops && Touches(p, s.ops[o]) && Moved(p, s, t, o)
    requires Grows(t, r) && r.ops[o] == t.ops[o]
    ensures Moved(p, s, r, o)
  {
    var x := s.ops[o];
    var n := |x.inputs|;
    match p
    case PadPass =>
      FreshInputKept(s, t, r, t.ops[o].inputs[n], o);
    case ResizePass =>
      FreshInputKept(s, t, r, t.ops[o].inputs[1], o);
    case ClipPass =>
      FreshInputKept(s, t, r, t.ops[o].inputs[n], o);
      FreshInputKept(s, t, r, t.ops[o].inputs[n + 1], o);
  }

  /** One visit: the operation o is rewritten if the pass is interested in
      it, and nothing else but new variables changes. */
  lemma RoundAdvance(p: InputPass, s: GraphState, t: GraphState, r: GraphState, done: set<OpId>, o: OpId)
    requires InputRound(p, s, t, done) && o in LiveOps(s) && o !in done && Touches(p, s.ops[o])
    requires WellFormed(r) && LiveOps(r) == LiveOps(s) && r.ops.Keys == s.ops.Keys && Grows(t, r)
    requires forall q | q in s.ops && q != o :: r.ops[q] == t.ops[q]
    requires Moved(p, s, r, o) && AddsInputsOf(t, r, o)
    ensures InputRound(p, s, r, done + {o})
  {
    GrowsTrans(s, t, r);
    RoundOthers(p, s, t, r, done, o);
    FrameAdvance(p, s, t, r, done, o);
  }

  lemma RoundOthers(p: InputPass, s: GraphState, t: GraphState, r: GraphState, done: set<OpId>, o: OpId)
    requires t.ops.Keys == s.ops.Keys && r.ops.Keys == s.ops.Keys && o in s.ops && Touches(p, s.ops[o])
    requires Rewritten(p, s, t, done) && Grows(t, r)
    requires forall q | q in s.ops && q != o :: r.ops[q] == t.ops[q]
    requires Moved(p, s, r, o)
    ensures Rewritten(p, s, r, done + {o})
  {
    forall q | q in LiveOps(s)
      ensures if q in done + {o} && Touches(p, s.ops[q]) then Moved(p, s, r, q) else r.ops[q] == s.ops[q]
    {
      if q != o && q in done && Touches(p, s.ops[q]) {
        MovedKept(p, s, t, r, q);
      }
    }
  }

  lemma PadStep(s: GraphState, t: GraphState, done: set<OpId>, o: OpId, h: VarId, x: Variable)
    requires InputRound(PadPass, s, t, done) && o in LiveOps(s) && o !in done && PadWithPads(t.ops[o])
    requires CanCreate(t, h, x) && x == Variable(x.name, Some(t.ops[o].attributes["pads"]), true, None, [o])
    ensures var c := CreateVariableState(t, h, x);
      InputRound(PadPass, s, EditOperation(c, o, c.ops[o].(attributes := map[])), done + {o})
  {
    RoundUnvisited(PadPass, s, t, done, o);
    CreateForOne(t, h, x, o);
    var c := AddInput(t, h, x, o);
    var y := c.ops[o].(attributes := map[]);
    CreateForOperation(t, h, x, o, y);
    AddInputAdds(t, h, x, o, y);
    var r := EditOperation(c, o, y);
    assert PadMoved(s, r, o);
    RoundAdvance(PadPass, s, t, r, done, o);
  }

  lemma ResizeStep(s: GraphState, t: GraphState, done: set<OpId>, o: OpId, h: VarId, x: Variable)
    requires InputRound(ResizePass, s, t, done) && o in LiveOps(s) && o !in done && ShortResize(t.ops[o])
    requires CanCreate(t, h, x) && x == Variable(x.name, None, false, None, [o])
    ensures var c := CreateVariableState(t, h, x);
      && |c.ops[o].inputs| == 3
      && InputRound(ResizePass, s, EditOperation(c, o, c.ops[o].(inputs := c.ops[o].inputs[1 := c.ops[o].inputs[2]][2 := c.ops[o].inputs[1]])), done + {o})
  {
    RoundUnvisited(ResizePass, s, t, done, o);
    ResizeVisited(s, t, o, h, x);
    CreateForOne(t, h, x, o);
    var c := CreateVariableState(t, h, x);
    var r := EditOperation(c, o, c.ops[o].(inputs := c.ops[o].inputs[1 := c.ops[o].inputs[2]][2 := c.ops[o].inputs[1]]));
    RoundAdvance(ResizePass, s, t, r, done, o);
  }

  /** What a visit of `format_resize` to o leaves, as `RoundAdvance` needs
      it. */
  lemma ResizeVisited(s: GraphState, t: GraphState, o: OpId, h: VarId, x: Variable)
    requires WellFormed(t) && LiveOp(t, o) && o in s.ops && t.ops[o] == s.ops[o] && ShortResize(t.ops[o])
    requires forall w | w in s.vars :: w in t.vars
    requires CanCreate(t, h, x) && x == Variable(x.name, None, false, None, [o])
    ensures var c := AddInput(t, h, x, o);
      var r := EditOperation(c, o, c.ops[o].(inputs := c.ops[o].inputs[1 := c.ops[o].inputs[2]][2 := c.ops[o].inputs[1]]));
      && |c.ops[o].inputs| == 3
      && WellFormed(r) && LiveOps(r) == LiveOps(t) && Grows(t, r) && r.ops.Keys == t.ops.Keys
      && (forall q | q in t.ops && q != o :: r.ops[q] == t.ops[q])
      && ResizeMoved(s, r, o) && AddsInputsOf(t, r, o)
  {
    var c := AddInput(t, h, x, o);
    var ins := c.ops[o].inputs;
    assert ins == [t.ops[o].inputs[0], t.ops[o].inputs[1], h];
    var y := c.ops[o].(inputs := ins[1 := ins[2]][2 := ins[1]]);
    assert y.inputs == [ins[0], h, ins[1]];
    assert multiset(y.inputs) == multiset(ins);
    CreateForOperation(t, h, x, o, y);
    AddInputAdds(t, h, x, o, y);
    var r := EditOperation(c, o, y);
    assert ResizeMoved(s, r, o);
  }

  /** An operation not yet visited is as it was. */
  lemma RoundUnvisited(p: InputPass, s: GraphState, t: GraphState, done: set<OpId>, o: OpId)
    requires InputRound(p, s, t, done) && o in LiveOps(s) && o !in done
    ensures LiveOp(t, o) && t.ops[o] == s.ops[o]
  {
    assert o in LiveOps(t);
  }

  /** `name + "_min"` and `name + "_max"` never coincide, and each
      determines the name. */
  lemma SuffixedNames(a: string, b: string)
    ensures a + "_min" != b + "_max"
    ensures a + "_min" == b + "_min" ==> a == b
    ensures a + "_max" == b + "_max" ==> a == b
  {
    if |a| == |b| {
      assert (a + "_min")[|a| + 2] == 'i' && (b + "_max")[|b| + 2] == 'a';
    }
    if a + "_min" == b + "_min" {
      assert a == (a + "_min")[..|a|];
    }
    if a + "_max" == b + "_max" {
      assert a == (a + "_max")[..|a|];
    }
  }

  /** The bound names of `format_clip` collide with a variable of s. */
  predicate Collides(s: GraphState, o: OpId)
    requires o in s.ops
  {
    MinName(s.ops[o]) in s.variables || MaxName(s.ops[o]) in s.variables
  }

  /** Some Clip operation that `format_clip` rewrites has a bound name that
      is already a variable of the graph. */
  ghost predicate ClipCollision(s: GraphState) {
    exists o | o in LiveOps(s) && ClipWithBounds(s.ops[o]) :: Collides(s, o)
  }

  /** For every operation still to visit, its bound names are taken in t
      exactly when they were taken in s. */
  ghost predicate NamesFree(s: GraphState, t: GraphState, todo: set<OpId>) {
    forall q | q in todo && q in s.ops ::
      && (MinName(s.ops[q]) in t.variables <==> MinName(s.ops[q]) in s.variables)
      && (MaxName(s.ops[q]) in t.variables <==> MaxName(s.ops[q]) in s.variables)
  }

  lemma NamesFreeStep(s: GraphState, t: GraphState, todo: set<OpId>, o: OpId, a: VarId, b: VarId)
    requires NamesConsistent(s) && todo <= LiveOps(s) && LiveOp(s, o) && o !in todo
    requires NamesFree(s, t, todo)
    ensures NamesFree(s, t.(variables := t.variables[MinName(s.ops[o]) := a][MaxName(s.ops[o]) := b]), todo)
  {
    forall q | q in todo
      ensures MinName(s.ops[q]) != MinName(s.ops[o]) && MinName(s.ops[q]) != MaxName(s.ops[o])
      ensures MaxName(s.ops[q]) != MinName(s.ops[o]) && MaxName(s.ops[q]) != MaxName(s.ops[o])
    {
      assert LiveOp(s, q) && q != o;
      SuffixedNames(s.ops[q].name, s.ops[o].name);
      SuffixedNames(s.ops[o].name, s.ops[q].name);
    }
  }

  /** The graph `format_clip` leaves for one operation: both bound
      variables registered, appended to its inputs, and the bound attributes
      dropped. */
  function ClipInstalled(t: GraphState, o: OpId, hmin: VarId, xmin: Variable, hmax: VarId, xmax: Variable): GraphState
    requires o in t.ops
  {
    var x := t.ops[o];
    t.(vars := t.vars[hmin := xmin][hmax := xmax],
       variables := t.variables[xmin.name := hmin][xmax.name := hmax],
       ops := t.ops[o := x.(attributes := x.attributes - {"min", "max"}, inputs := x.inputs + [hmin, hmax])])
  }

  /** `ClipInstalled` is two `create_variable` calls followed by an edit of
      o that keeps its links. */
  lemma ClipInstalledSteps(t: GraphState, o: OpId, hmin: VarId, xmin: Variable, hmax: VarId, xmax: Variable)
    requires o in t.ops
    ensures var x := t.ops[o];
      var c := AddInput(AddInput(t, hmin, xmin, o), hmax, xmax, o);
      && c.ops[o] == x.(inputs := x.inputs + [hmin, hmax])
      && ClipInstalled(t, o, hmin, xmin, hmax, xmax) == EditOperation(c, o, x.(attributes := x.attributes - {"min", "max"}, inputs := x.inputs + [hmin, hmax]))
  {
    var x := t.ops[o];
    assert x.inputs + [hmin] + [hmax] == x.inputs + [hmin, hmax];
  }

  /** Two variables created for o, one after the other. */
  lemma AddTwoKeepsWellFormed(t: GraphState, o: OpId, hmin: VarId, xmin: Variable, hmax: VarId, xmax: Variable)
    requires WellFormed(t) && LiveOp(t, o) && hmin != hmax && xmin.name != xmax.name
    requires CanCreate(t, hmin, xmin) && CanCreate(t, hmax, xmax) && xmin.destOps == [o] && xmax.destOps == [o]
    ensures var c := AddInput(AddInput(t, hmin, xmin, o), hmax, xmax, o);
      && WellFormed(c) && LiveOps(c) == LiveOps(t) && LiveVars(c) == LiveVars(t) + {hmin, hmax}
  {
    var c1 := AddInput(t, hmin, xmin, o);
    AddInputKeepsWellFormed(t, hmin, xmin, o);
    assert LiveOp(c1, o);
    assert CanCreate(c1, hmax, xmax);
    AddInputKeepsWellFormed(c1, hmax, xmax, o);
  }

  lemma ClipInstalledWellFormed(t: GraphState, o: OpId, hmin: VarId, xmin: Variable, hmax: VarId, xmax: Variable)
    requires WellFormed(t) && LiveOp(t, o) && hmin != hmax && xmin.name != xmax.name
    requires CanCreate(t, hmin, xmin) && CanCreate(t, hmax, xmax) && xmin.destOps == [o] && xmax.destOps == [o]
    ensures var r := ClipInstalled(t, o, hmin, xmin, hmax, xmax);
      && WellFormed(r) && LiveOps(r) == LiveOps(t) && LiveVars(r) == LiveVars(t) + {hmin, hmax}
  {
    AddTwoKeepsWellFormed(t, o, hmin, xmin, hmax, xmax);
    var c2 := AddInput(AddInput(t, hmin, xmin, o), hmax, xmax, o);
    ClipInstalledSteps(t, o, hmin, xmin, hmax, xmax);
    var x := t.ops[o];
    var y := x.(attributes := x.attributes - {"min", "max"}, inputs := x.inputs + [hmin, hmax]);
    EditOperationKeepsWellFormed(c2, o, y);
    var r := EditOperation(c2, o, y);
    assert WellFormed(r);
    assert LiveOps(r) == LiveOps(t);
    assert LiveVars(r) == LiveVars(t) + {hmin, hmax};
  }

  /** The two new variables are fresh, in the graph, and hold the bounds. */
  lemma ClipInstalledMoved(s: GraphState, t: GraphState, o: OpId,
                           hmin: VarId, xmin: Variable, hmax: VarId, xmax: Variable)
    requires o in s.ops && o in t.ops && t.ops[o] == s.ops[o]
    requires forall w | w in s.vars :: w in t.vars
    requires xmin == Variable(MinName(t.ops[o]), Some(ClipMin(t.ops[o])), true, None, [o])
    requires xmax == Variable(MaxName(t.ops[o]), Some(ClipMax(t.ops[o])), true, None, [o])
    requires hmin != hmax && hmin !in t.vars && hmax !in t.vars
    requires xmin.name !in t.variables && xmax.name !in t.variables
    ensures var r := ClipInstalled(t, o, hmin, xmin, hmax, xmax);
      && Grows(t, r) && ClipMoved(s, r, o)
      && r.ops.Keys == t.ops.Keys && (forall q | q in t.ops && q != o :: r.ops[q] == t.ops[q])
  {
    SuffixedNames(t.ops[o].name, t.ops[o].name);
    var r := ClipInstalled(t, o, hmin, xmin, hmax, xmax);
    assert r.variables[xmin.name] == hmin && r.variables[xmax.name] == hmax;
    assert LiveVar(r, hmin) && LiveVar(r, hmax);
    assert LiveVars(t) <= LiveVars(r) by {
      forall w | w in LiveVars(t) ensures w in LiveVars(r) {
        assert LiveVar(t, w) && w != hmin && w != hmax;
        assert t.vars[w].name != xmin.name && t.vars[w].name != xmax.name;
      }
    }
    var n := |s.ops[o].inputs|;
    assert r.ops[o].inputs[n] == hmin && r.ops[o].inputs[n + 1] == hmax;
  }

  /** What a visit of `format_clip` to o leaves, as `RoundAdvance` needs it. */
  lemma ClipVisited(s: GraphState, t: GraphState, o: OpId,
                    hmin: VarId, xmin: Variable, hmax: VarId, xmax: Variable)
    requires WellFormed(t) && LiveOp(t, o) && o in s.ops && t.ops[o] == s.ops[o]
    requires LiveOps(t) == LiveOps(s) && t.ops.Keys == s.ops.Keys
    requires forall w | w in s.vars :: w in t.vars
    requires xmin == Variable(MinName(t.ops[o]), Some(ClipMin(t.ops[o])), true, None, [o])
    requires xmax == Variable(MaxName(t.ops[o]), Some(ClipMax(t.ops[o])), true, None, [o])
    requires hmin != hmax && hmin !in t.vars && hmax !in t.vars
    requires xmin.name !in t.variables && xmax.name !in t.variables
    ensures var r := ClipInstalled(t, o, hmin, xmin, hmax, xmax);
      && WellFormed(r) && LiveOps(r) == LiveOps(s) && r.ops.Keys == s.ops.Keys && Grows(t, r)
      && (forall q | q in s.ops && q != o :: r.ops[q] == t.ops[q])
      && ClipMoved(s, r, o) && AddsInputsOf(t, r, o)
  {
    SuffixedNames(t.ops[o].name, t.ops[o].name);
    ClipInstalledWellFormed(t, o, hmin, xmin, hmax, xmax);
    ClipInstalledMoved(s, t, o, hmin, xmin, hmax, xmax);
    ClipInstalledAdds(t, o, hmin, xmin, hmax, xmax);
  }

  lemma ClipInstalledAdds(t: GraphState, o: OpId, hmin: VarId, xmin: Variable, hmax: VarId, xmax: Variable)
    requires o in t.ops && hmin != hmax && hmin !in t.vars && hmax !in t.vars && xmin.name != xmax.name
    requires xmin.name !in t.variables && xmax.name !in t.variables && xmin.destOps == [o] && xmax.destOps == [o]
    ensures AddsInputsOf(t, ClipInstalled(t, o, hmin, xmin, hmax, xmax), o)
  {
    var c1 := AddInput(t, hmin, xmin, o);
    var c2 := AddInput(c1, hmax, xmax, o);
    AddInputLiveVars(t, hmin, xmin, o);
    AddInputLiveVars(c1, hmax, xmax, o);
    ClipInstalledSteps(t, o, hmin, xmin, hmax, xmax);
    var r := ClipInstalled(t, o, hmin, xmin, hmax, xmax);
    assert forall w :: LiveVar(r, w) <==> LiveVar(c2, w);
    assert LiveVars(r) == LiveVars(c2);
  }

  lemma ClipStep(s: GraphState, t: GraphState, done: set<OpId>, o: OpId,
                 hmin: VarId, xmin: Variable, hmax: VarId, xmax: Variable)
    requires InputRound(ClipPass, s, t, done) && o in LiveOps(s) && o !in done && ClipWithBounds(t.ops[o])
    requires xmin == Variable(MinName(t.ops[o]), Some(ClipMin(t.ops[o])), true, None, [o])
    requires xmax == Variable(MaxName(t.ops[o]), Some(ClipMax(t.ops[o])), true, None, [o])
    requires hmin != hmax && hmin !in t.vars && hmax !in t.vars
    requires xmin.name !in t.variables && xmax.name !in t.variables
    ensures InputRound(ClipPass, s, ClipInstalled(t, o, hmin, xmin, hmax, xmax), done + {o})
  {
    RoundUnvisited(ClipPass, s, t, done, o);
    ClipVisited(s, t, o, hmin, xmin, hmax, xmax);
    RoundAdvance(ClipPass, s, t, ClipInstalled(t, o, hmin, xmin, hmax, xmax), done, o);
  }

  /** The state of the loop of `format_clip` with the operations `rest`
      still to visit: the visited ones are rewritten, none of the visited
      Clip operations had a bound name taken, and the bound names of the
      ones still to visit are taken exactly when they were at the start. */
  ghost predicate ClipLoop(s: GraphState, t: GraphState, rest: set<OpId>) {
    && NamesConsistent(s) && rest <= LiveOps(s)
    && InputRound(ClipPass, s, t, LiveOps(s) - rest)
    && NamesFree(s, t, rest)
    && (forall q | q in LiveOps(s) - rest && ClipWithBounds(s.ops[q]) :: !Collides(s, q))
  }

  lemma ClipLoopStart(s: GraphState)
    requires WellFormed(s)
    ensures ClipLoop(s, s, LiveOps(s))
  {
    RoundStart(ClipPass, s);
    assert LiveOps(s) - LiveOps(s) == {};
  }

  lemma ClipLoopDone(s: GraphState, t: GraphState)
    requires ClipLoop(s, t, {})
    ensures InputRound(ClipPass, s, t, LiveOps(s)) && !ClipCollision(s)
  {
    assert LiveOps(s) - {} == LiveOps(s);
  }

  /** The operation about to be visited is as it was, and its bound names
      are taken exactly when they were at the start. */
  lemma ClipLoopVisit(s: GraphState, t: GraphState, rest: set<OpId>, o: OpId)
    requires ClipLoop(s, t, rest) && o in rest
    ensures o in LiveOps(s) && LiveOp(t, o) && t.ops[o] == s.ops[o]
    ensures MinName(s.ops[o]) in t.variables <==> MinName(s.ops[o]) in s.variables
    ensures MaxName(s.ops[o]) in t.variables <==> MaxName(s.ops[o]) in s.variables
  {
    RoundUnvisited(ClipPass, s, t, LiveOps(s) - rest, o);
  }

  lemma ClipLoopSkip(s: GraphState, t: GraphState, rest: set<OpId>, o: OpId)
    requires ClipLoop(s, t, rest) && o in rest && !ClipWithBounds(t.ops[o])
    ensures ClipLoop(s, t, rest - {o})
  {
    RoundUnvisited(ClipPass, s, t, LiveOps(s) - rest, o);
    RoundSkip(ClipPass, s, t, LiveOps(s) - rest, o);
    assert LiveOps(s) - (rest - {o}) == (LiveOps(s) - rest) + {o};
  }

  /** A visit of a Clip operation whose bound names are both free. */
  lemma ClipLoopStep(s: GraphState, t: GraphState, rest: set<OpId>, o: OpId,
                     hmin: VarId, xmin: Variable, hmax: VarId, xmax: Variable)
    requires ClipLoop(s, t, rest) && o in rest && ClipWithBounds(t.ops[o])
    requires xmin == Variable(MinName(t.ops[o]), Some(ClipMin(t.ops[o])), true, None, [o])
    requires xmax == Variable(MaxName(t.ops[o]), Some(ClipMax(t.ops[o])), true, None, [o])
    requires hmin != hmax && hmin !in t.vars && hmax !in t.vars
    requires xmin.name !in t.variables && xmax.name !in t.variables
    ensures var r := ClipInstalled(t, o, hmin, xmin, hmax, xmax);
      WellFormed(r) && ClipLoop(s, r, rest - {o})
  {
    var done := LiveOps(s) - rest;
    ClipLoopVisit(s, t, rest, o);
    ClipStep(s, t, done, o, hmin, xmin, hmax, xmax);
    var r := ClipInstalled(t, o, hmin, xmin, hmax, xmax);
    ClipLoopNames(s, t, r, rest, o, hmin, hmax);
    ClipLoopClear(s, rest, o);
    DoneGrows(LiveOps(s), rest, o);
  }

  lemma DoneGrows(all: set<OpId>, rest: set<OpId>, o: OpId)
    requires rest <= all && o in rest
    ensures all - (rest - {o}) == (all - rest) + {o}
  {
  }

  /** The state a visit of `format_clip` commits is `ClipInstalled`. */
  lemma ClipCommitted(t: GraphState, u: GraphState, o: OpId, hmin: VarId, xmin: Variable, hmax: VarId, xmax: Variable)
    requires o in t.ops
    requires u == t.(vars := t.vars[hmin := xmin][hmax := xmax], variables := t.variables[xmin.name := hmin][xmax.name := hmax])
    ensures var x := t.ops[o];
      u.(ops := u.ops[o := x.(attributes := x.attributes - {"min", "max"}, inputs := x.inputs + [hmin, hmax])])
        == ClipInstalled(t, o, hmin, xmin, hmax, xmax)
  {
  }

  lemma ClipLoopNames(s: GraphState, t: GraphState, r: GraphState, rest: set<OpId>, o: OpId, hmin: VarId, hmax: VarId)
    requires NamesConsistent(s) && rest <= LiveOps(s) && o in rest && NamesFree(s, t, rest)
    requires r.variables == t.variables[MinName(s.ops[o]) := hmin][MaxName(s.ops[o]) := hmax]
    ensures NamesFree(s, r, rest - {o})
  {
    assert LiveOp(s, o);
    NamesFreeStep(s, t, rest - {o}, o, hmin, hmax);
  }

  lemma ClipLoopClear(s: GraphState, rest: set<OpId>, o: OpId)
    requires rest <= LiveOps(s) && o in rest
    requires forall q | q in LiveOps(s) - rest && ClipWithBounds(s.ops[q]) :: !Collides(s, q)
    requires MinName(s.ops[o]) !in s.variables && MaxName(s.ops[o]) !in s.variables
    ensures forall q | q in LiveOps(s) - (rest - {o}) && ClipWithBounds(s.ops[q]) :: !Collides(s, q)
  {
  }

  /** After `format_pad` no operation of the graph carries pads as an
      attribute. */
  lemma PadFormatted(s: GraphState, t: GraphState)
    requires InputRound(PadPass, s, t, LiveOps(s))
    ensures forall o | o in LiveOps(t) :: !PadWithPads(t.ops[o])
  {
  }

  /** After `format_resize` no Resize operation of the graph has two
      inputs. */
  lemma ResizeFormatted(s: GraphState, t: GraphState)
    requires InputRound(ResizePass, s, t, LiveOps(s))
    ensures forall o | o in LiveOps(t) :: !ShortResize(t.ops[o])
  {
  }

  /** After `format_clip` no Clip operation of the graph carries a bound as
      an attribute. */
  lemma ClipFormatted(s: GraphState, t: GraphState)
    requires InputRound(ClipPass, s, t, LiveOps(s))
    ensures forall o | o in LiveOps(t) :: !ClipWithBounds(t.ops[o])
  {
  }
}
