/** What `format_parameter` does to a graph: every parameter variable with
    more than one consumer is split into one fresh parameter per consumer
    slot, and the shared variable leaves the graph. */
module ParamSpecs {
  import opened Wrappers
  import opened Seqs
  import opened Ir
  import opened Rewrites

  /** A parameter variable of the graph with more than one consumer. */
  ghost predicate Shared(s: GraphState, v: VarId) {
    LiveVar(s, v) && s.vars[v].isParameter && |s.vars[v].destOps| > 1
  }

  /** Some shared parameter has no value: `var.value.clone()` raises an
      `AttributeError`. */
  ghost predicate ValuelessShared(s: GraphState) {
    exists v | v in LiveVars(s) :: Shared(s, v) && s.vars[v].value.None?
  }

  /** A variable created by the split: a parameter without producer and
      with exactly one consumer. */
  predicate Fresh(x: Variable) {
    x.isParameter && x.sourceOp == None && |x.destOps| == 1
  }

  /** u is a graph variable of r that did not exist in s0: a parameter
      copy of orig's value consumed by p alone. */
  ghost predicate CopyFor(s0: GraphState, r: GraphState, u: VarId, orig: Variable, p: OpId) {
    && u !in s0.vars && LiveVar(r, u)
    && r.vars[u].isParameter && r.vars[u].value == orig.value
    && r.vars[u].sourceOp == None && r.vars[u].destOps == [p]
  }

  /** The dictionaries once the variables in gone were removed and fresh
      ones created: the operation dictionary is as it was, the graph inputs
      and outputs lose the entries of gone, every other variable keeps its
      name, and every name that is new, or that a variable of gone had,
      now belongs to a variable created since. */
  ghost predicate DictsFrame(s: GraphState, t: GraphState, gone: set<VarId>) {
    && t.operations == s.operations
    && t.inputs == WithoutValues(s.inputs, gone) && t.outputs == WithoutValues(s.outputs, gone)
    && (forall n | n in s.variables && s.variables[n] !in gone :: n in t.variables && t.variables[n] == s.variables[n])
    && (forall n | n in t.variables && !(n in s.variables && s.variables[n] !in gone) :: t.variables[n] !in s.vars)
  }

  lemma DictsFrameStart(s: GraphState)
    ensures DictsFrame(s, s, {})
  {
    WithoutNoValues(s.inputs);
    WithoutNoValues(s.outputs);
  }

  /** Removing one more variable after the ones in gone. */
  lemma DictsFrameCompose(s: GraphState, t: GraphState, r: GraphState, gone: set<VarId>, v: VarId)
    requires DictsFrame(s, t, gone) && DictsFrame(t, r, {v}) && s.vars.Keys <= t.vars.Keys
    ensures DictsFrame(s, r, gone + {v})
  {
    WithoutValuesTwice(s.inputs, gone, {v});
    WithoutValuesTwice(s.outputs, gone, {v});
  }

  lemma CopyKept(s0: GraphState, t: GraphState, r: GraphState, u: VarId, orig: Variable, p: OpId)
    requires CopyFor(s0, t, u, orig, p) && u in LiveVars(r) && u in r.vars && r.vars[u] == t.vars[u]
    ensures CopyFor(s0, r, u, orig, p)
  {
  }

  // ---------------------------------------------------------------------
  // Splitting one shared variable v (the inner loop)
  // ---------------------------------------------------------------------

  /** Slot w of p, now w2: kept, or a copy of v's value made for p. */
  ghost predicate SlotSplit(s0: GraphState, t: GraphState, v: VarId, p: OpId, w: VarId, w2: VarId) {
    w2 == w || (w == v && v in s0.vars && CopyFor(s0, t, w2, s0.vars[v], p))
  }

  /** Variables while v is being split: old ones unchanged except v, and
      every new graph variable is a fresh parameter. */
  ghost predicate SplitArena(s0: GraphState, t: GraphState, v: VarId) {
    && LiveOps(t) == LiveOps(s0) && t.ops.Keys == s0.ops.Keys && s0.vars.Keys <= t.vars.Keys
    && (forall u | u in s0.vars :: u in LiveVars(t) <==> u in LiveVars(s0))
    && (forall u | u in s0.vars && u != v :: t.vars[u] == s0.vars[u])
    && (forall u | u in LiveVars(t) && u !in s0.vars :: Fresh(t.vars[u]))
  }

  /** Operations while v is being split: only input slots that held v
      change, each to a copy for that operation. */
  ghost predicate SplitSlots(s0: GraphState, t: GraphState, v: VarId) {
    forall p | p in s0.ops && p in t.ops ::
      && t.ops[p] == s0.ops[p].(inputs := t.ops[p].inputs)
      && (p !in LiveOps(s0) ==> t.ops[p] == s0.ops[p])
      && |t.ops[p].inputs| == |s0.ops[p].inputs|
      && (forall j | 0 <= j < |s0.ops[p].inputs| && j < |t.ops[p].inputs| ::
            SlotSplit(s0, t, v, p, s0.ops[p].inputs[j], t.ops[p].inputs[j]))
  }

  /** The state of the inner loop of `format_parameter` after the first i
      consumers ds[..i] of v got their copy. */
  ghost predicate SplitLoop(s0: GraphState, t: GraphState, v: VarId, ds: seq<OpId>, i: nat) {
    && v in s0.vars && ds == s0.vars[v].destOps && i <= |ds|
    && LiveVar(s0, v)
    && SplitArena(s0, t, v) && SplitSlots(s0, t, v)
    && v in t.vars && t.vars[v] == s0.vars[v].(destOps := t.vars[v].destOps)
    && multiset(t.vars[v].destOps) == multiset(ds[i..])
    && DictsFrame(s0, t, {})
  }

  lemma SplitLoopStart(s0: GraphState, v: VarId)
    requires LiveVar(s0, v)
    ensures SplitLoop(s0, s0, v, s0.vars[v].destOps, 0)
  {
    assert s0.vars[v].destOps[0..] == s0.vars[v].destOps;
    DictsFrameStart(s0);
  }

  /** The consumer visited next is an operation of the graph that still
      reads v. */
  lemma SplitPre(s0: GraphState, t: GraphState, v: VarId, ds: seq<OpId>, i: nat)
    requires WellFormed(t) && SplitLoop(s0, t, v, ds, i) && i < |ds|
    ensures LiveOp(t, ds[i]) && LiveVar(t, v) && v in t.ops[ds[i]].inputs
  {
    var o := ds[i];
    assert v in LiveVars(s0);
    assert LiveVar(t, v);
    assert ds[i..] == [o] + ds[i + 1..];
    assert multiset(t.vars[v].destOps)[o] > 0;
    assert o in t.vars[v].destOps;
    assert LiveOp(t, o);
    assert multiset(t.ops[o].inputs)[v] > 0;
  }

  /** `created = create_variable(value, is_parameter=True)` with handle h,
      then `op.inputs[op.inputs.index(var)] = created` and
      `created.dest_ops.append(op)`. */
  function SplitOne(t: GraphState, o: OpId, v: VarId, h: VarId, x: Variable): GraphState
    requires o in t.ops && v in t.ops[o].inputs && v in t.vars && h != v
    requires o in t.vars[v].destOps
  {
    MoveInput(t.(vars := t.vars[h := x], variables := t.variables[x.name := h]), o, v, h)
  }

  /** With no consumers listed, `create_variable` only registers x. */
  lemma CreateUnlinked(t: GraphState, h: VarId, x: Variable)
    requires x.destOps == []
    ensures CreateVariableState(t, h, x) == t.(vars := t.vars[h := x], variables := t.variables[x.name := h])
  {
    var c := CreateVariableState(t, h, x);
    assert c.ops == t.ops;
  }

  /** Slot k of o is the first that holds v; it held v from the start. */
  lemma SplitSlotOrigin(s0: GraphState, t: GraphState, v: VarId, o: OpId, k: nat)
    requires SplitSlots(s0, t, v) && v in s0.vars && o in s0.ops && o in t.ops
    requires k < |t.ops[o].inputs| && t.ops[o].inputs[k] == v
    ensures k < |s0.ops[o].inputs| && s0.ops[o].inputs[k] == v
  {
    assert SlotSplit(s0, t, v, o, s0.ops[o].inputs[k], t.ops[o].inputs[k]);
  }

  lemma SplitArenaStep(s0: GraphState, t: GraphState, r: GraphState, v: VarId, o: OpId, h: VarId, x: Variable)
    requires SplitArena(s0, t, v) && v in s0.vars && h !in t.vars
    requires o in t.ops && v in t.ops[o].inputs && v in t.vars && o in t.vars[v].destOps
    requires r == SplitOne(t, o, v, h, x) && x.isParameter && x.sourceOp == None && x.destOps == []
    requires LiveOps(r) == LiveOps(t) && LiveVars(r) == LiveVars(t) + {h}
    ensures SplitArena(s0, r, v)
  {
    forall u | u in s0.vars && u != v ensures r.vars[u] == s0.vars[u] {
      assert r.vars[u] == t.vars[u];
    }
    forall u | u in LiveVars(r) && u !in s0.vars ensures Fresh(r.vars[u]) {
      if u != h {
        assert u in LiveVars(t) && r.vars[u] == t.vars[u];
      }
    }
  }

  lemma SplitSlotsStep(s0: GraphState, t: GraphState, r: GraphState, v: VarId, o: OpId, h: VarId, x: Variable)
    requires SplitSlots(s0, t, v) && SplitArena(s0, t, v) && v in s0.vars && h !in t.vars
    requires o in t.ops && v in t.ops[o].inputs && v in t.vars && o in t.vars[v].destOps
    requires r == SplitOne(t, o, v, h, x) && x.isParameter && x.sourceOp == None && x.destOps == []
    requires x.value == s0.vars[v].value
    requires LiveVar(r, h) && LiveVars(t) <= LiveVars(r) && LiveOp(t, o)
    ensures SplitSlots(s0, r, v)
  {
    var k := IndexOf(t.ops[o].inputs, v);
    SplitSlotOrigin(s0, t, v, o, k);
    assert r.vars[h] == x.(destOps := [o]);
    assert CopyFor(s0, r, h, s0.vars[v], o);
    forall p | p in s0.ops && p in r.ops
      ensures r.ops[p] == s0.ops[p].(inputs := r.ops[p].inputs)
      ensures p !in LiveOps(s0) ==> r.ops[p] == s0.ops[p]
      ensures |r.ops[p].inputs| == |s0.ops[p].inputs|
      ensures forall j | 0 <= j < |s0.ops[p].inputs| && j < |r.ops[p].inputs| ::
                SlotSplit(s0, r, v, p, s0.ops[p].inputs[j], r.ops[p].inputs[j])
    {
      forall j | 0 <= j < |s0.ops[p].inputs| && j < |r.ops[p].inputs|
        ensures SlotSplit(s0, r, v, p, s0.ops[p].inputs[j], r.ops[p].inputs[j])
      {
        var w, w1 := s0.ops[p].inputs[j], t.ops[p].inputs[j];
        assert SlotSplit(s0, t, v, p, w, w1);
        if p == o && j == k {
        } else {
          assert r.ops[p].inputs[j] == w1;
          if w1 != w {
            assert w1 in t.vars && w1 != v && w1 != h;
            CopyKept(s0, t, r, w1, s0.vars[v], p);
          }
        }
      }
    }
  }

  /** One consumer more has its copy. */
  lemma SplitLoopStep(s0: GraphState, t: GraphState, r: GraphState, v: VarId, ds: seq<OpId>, i: nat, h: VarId, x: Variable)
    requires SplitLoop(s0, t, v, ds, i) && i < |ds| && h !in t.vars
    requires LiveOp(t, ds[i]) && v in t.ops[ds[i]].inputs && ds[i] in t.vars[v].destOps
    requires r == SplitOne(t, ds[i], v, h, x) && x.isParameter && x.sourceOp == None && x.destOps == []
    requires x.value == s0.vars[v].value && x.name !in t.variables
    requires LiveOps(r) == LiveOps(t) && LiveVars(r) == LiveVars(t) + {h}
    ensures SplitLoop(s0, r, v, ds, i + 1)
  {
    var o := ds[i];
    SplitDictsStep(s0, t, r, v, o, h, x);
    SplitArenaStep(s0, t, r, v, o, h, x);
    assert h in LiveVars(r);
    SplitSlotsStep(s0, t, r, v, o, h, x);
    SplitVarStep(s0, t, r, v, ds, i, h, x);
  }

  /** Creating the copy registers a new name for a new variable. */
  lemma SplitDictsStep(s0: GraphState, t: GraphState, r: GraphState, v: VarId, o: OpId, h: VarId, x: Variable)
    requires DictsFrame(s0, t, {}) && s0.vars.Keys <= t.vars.Keys && h !in t.vars && x.name !in t.variables
    requires o in t.ops && v in t.ops[o].inputs && v in t.vars && o in t.vars[v].destOps
    requires r == SplitOne(t, o, v, h, x)
    ensures DictsFrame(s0, r, {})
  {
  }

  /** v loses consumer ds[i] and nothing else. */
  lemma SplitVarStep(s0: GraphState, t: GraphState, r: GraphState, v: VarId, ds: seq<OpId>, i: nat, h: VarId, x: Variable)
    requires i < |ds| && v in s0.vars && v in t.vars && h != v
    requires t.vars[v] == s0.vars[v].(destOps := t.vars[v].destOps)
    requires multiset(t.vars[v].destOps) == multiset(ds[i..])
    requires ds[i] in t.ops && v in t.ops[ds[i]].inputs && ds[i] in t.vars[v].destOps
    requires r == SplitOne(t, ds[i], v, h, x)
    ensures v in r.vars && r.vars[v] == s0.vars[v].(destOps := r.vars[v].destOps)
    ensures multiset(r.vars[v].destOps) == multiset(ds[i + 1..])
  {
    assert ds[i..] == [ds[i]] + ds[i + 1..];
    assert r.vars[v].destOps == RemoveFirst(t.vars[v].destOps, ds[i]);
  }

  /** Once every consumer got its copy, v has no consumer and no
      operation of the graph reads it. */
  lemma SplitLoopDone(s0: GraphState, t: GraphState, v: VarId, ds: seq<OpId>)
    requires WellFormed(t) && SplitLoop(s0, t, v, ds, |ds|)
    ensures LiveVar(t, v) && t.vars[v].destOps == []
    ensures forall p | LiveOp(t, p) :: v !in t.ops[p].inputs
    ensures forall p | LiveOp(t, p) && t.vars[v].sourceOp != Some(p) :: v !in t.ops[p].outputs
    ensures forall p | p in t.ops && !LiveOp(t, p) :: t.vars[v].sourceOp != Some(p)
  {
    assert v in LiveVars(s0);
    assert LiveVar(t, v);
    assert ds[|ds|..] == [];
    forall p | LiveOp(t, p) ensures v !in t.ops[p].inputs {
      assert multiset(t.ops[p].inputs)[v] == 0;
    }
    forall p | LiveOp(t, p) && t.vars[v].sourceOp != Some(p) ensures v !in t.ops[p].outputs {
      assert multiset(t.ops[p].outputs)[v] == 0;
    }
  }

  // ---------------------------------------------------------------------
  // The effect of splitting v, relative to the state before
  // ---------------------------------------------------------------------

  /** Variables after v was split: v left the graph with no consumer
      left, every other variable is as it was, every new graph variable is
      fresh, and only v's entries left the dictionaries. */
  ghost predicate SplitArenaEffect(t: GraphState, r: GraphState, v: VarId) {
    && LiveOps(r) == LiveOps(t) && r.ops.Keys == t.ops.Keys && t.vars.Keys <= r.vars.Keys
    && (forall u | u in t.vars :: u in LiveVars(r) <==> u in LiveVars(t) && u != v)
    && (forall u | u in t.vars && u != v :: r.vars[u] == t.vars[u])
    && (v in t.vars ==> r.vars[v] == t.vars[v].(destOps := []))
    && (forall u | u in LiveVars(r) && u !in t.vars :: Fresh(r.vars[u]))
    && DictsFrame(t, r, {v})
  }

  /** Operations after v was split: every slot of a graph operation that
      read v reads its own copy, and v's producer no longer lists it. */
  ghost predicate SplitSlotsEffect(t: GraphState, r: GraphState, v: VarId) {
    forall p | p in t.ops && p in r.ops ::
      && r.ops[p].(inputs := t.ops[p].inputs, outputs := t.ops[p].outputs) == t.ops[p]
      && (p !in LiveOps(t) ==> r.ops[p] == t.ops[p])
      && |r.ops[p].inputs| == |t.ops[p].inputs|
      && (p in LiveOps(t) ==> r.ops[p].outputs == Without(t.ops[p].outputs, v))
      && (p in LiveOps(t) ==> forall j | 0 <= j < |t.ops[p].inputs| && j < |r.ops[p].inputs| ::
            if t.ops[p].inputs[j] == v then v in t.vars && CopyFor(t, r, r.ops[p].inputs[j], t.vars[v], p)
            else r.ops[p].inputs[j] == t.ops[p].inputs[j])
  }

  ghost predicate SplitEffect(t: GraphState, r: GraphState, v: VarId) {
    SplitArenaEffect(t, r, v) && SplitSlotsEffect(t, r, v)
  }

  lemma SplitFinishArena(s0: GraphState, t: GraphState, r: GraphState, v: VarId, ds: seq<OpId>)
    requires SplitLoop(s0, t, v, ds, |ds|) && LiveVar(t, v) && t.vars[v].destOps == [] && NamesConsistent(t)
    requires r == RemoveVariableState(t, v) && LiveVars(r) == LiveVars(t) - {v} && LiveOps(r) == LiveOps(t)
    ensures SplitArenaEffect(s0, r, v)
  {
    SplitFinishDicts(s0, t, r, v);
  }

  lemma SplitFinishDicts(s0: GraphState, t: GraphState, r: GraphState, v: VarId)
    requires DictsFrame(s0, t, {}) && s0.vars.Keys <= t.vars.Keys && LiveVar(t, v) && NamesConsistent(t)
    requires r == RemoveVariableState(t, v)
    ensures DictsFrame(s0, r, {v})
  {
    var name := t.vars[v].name;
    WithoutNoValues(s0.inputs);
    WithoutNoValues(s0.outputs);
    DropNameEntry(t, t.inputs, s0.inputs, {}, v);
    DropNameEntry(t, t.outputs, s0.outputs, {}, v);
    forall n | n in s0.variables && s0.variables[n] != v
      ensures n in r.variables && r.variables[n] == s0.variables[n]
    {
      assert n != name;
    }
  }

  lemma SplitFinishSlots(s0: GraphState, t: GraphState, r: GraphState, v: VarId, ds: seq<OpId>)
    requires SplitLoop(s0, t, v, ds, |ds|) && LiveVar(t, v) && t.vars[v].destOps == []
    requires forall p | LiveOp(t, p) :: v !in t.ops[p].inputs
    requires forall p | LiveOp(t, p) && t.vars[v].sourceOp != Some(p) :: v !in t.ops[p].outputs
    requires forall p | p in t.ops && !LiveOp(t, p) :: t.vars[v].sourceOp != Some(p)
    requires r == RemoveVariableState(t, v) && LiveVars(r) == LiveVars(t) - {v}
    ensures SplitSlotsEffect(s0, r, v)
  {
    forall p | p in s0.ops && p in r.ops
      ensures r.ops[p].(inputs := s0.ops[p].inputs, outputs := s0.ops[p].outputs) == s0.ops[p]
      ensures p !in LiveOps(s0) ==> r.ops[p] == s0.ops[p]
      ensures |r.ops[p].inputs| == |s0.ops[p].inputs|
      ensures p in LiveOps(s0) ==> r.ops[p].outputs == Without(s0.ops[p].outputs, v)
      ensures p in LiveOps(s0) ==> forall j | 0 <= j < |s0.ops[p].inputs| && j < |r.ops[p].inputs| ::
            if s0.ops[p].inputs[j] == v then v in s0.vars && CopyFor(s0, r, r.ops[p].inputs[j], s0.vars[v], p)
            else r.ops[p].inputs[j] == s0.ops[p].inputs[j]
    {
      assert r.ops[p].inputs == t.ops[p].inputs;
      if p in LiveOps(s0) {
        assert LiveOp(t, p);
        if t.vars[v].sourceOp != Some(p) {
          WithoutAbsent(t.ops[p].outputs, v);
        }
        forall j | 0 <= j < |s0.ops[p].inputs| && j < |r.ops[p].inputs|
          ensures if s0.ops[p].inputs[j] == v then v in s0.vars && CopyFor(s0, r, r.ops[p].inputs[j], s0.vars[v], p)
                  else r.ops[p].inputs[j] == s0.ops[p].inputs[j]
        {
          var w, w1 := s0.ops[p].inputs[j], t.ops[p].inputs[j];
          assert SlotSplit(s0, t, v, p, w, w1);
          assert w1 in t.ops[p].inputs;
          if w1 != w {
            assert w1 in t.vars && w1 != v;
            assert w1 in LiveVars(r);
            CopyKept(s0, t, r, w1, s0.vars[v], p);
          }
        }
      }
    }
  }

  // ---------------------------------------------------------------------
  // The outer loop over the graph's variables
  // ---------------------------------------------------------------------

  /** Slot w of p, now w2, after the variables in done were visited. */
  ghost predicate ParamSlot(s: GraphState, t: GraphState, done: set<VarId>, p: OpId, w: VarId, w2: VarId) {
    if w in done && Shared(s, w) then CopyFor(s, t, w2, s.vars[w], p) else w2 == w
  }

  /** The shared parameters among the variables in done. */
  ghost function SharedIn(s: GraphState, done: set<VarId>): set<VarId> {
    set u | u in done && Shared(s, u)
  }

  ghost predicate ParamArena(s: GraphState, t: GraphState, done: set<VarId>) {
    && LiveOps(t) == LiveOps(s) && t.ops.Keys == s.ops.Keys && s.vars.Keys <= t.vars.Keys
    && (forall u | u in s.vars :: u in LiveVars(t) <==> u in LiveVars(s) && !(u in done && Shared(s, u)))
    && (forall u | u in s.vars && !(u in done && Shared(s, u)) :: t.vars[u] == s.vars[u])
    && (forall u | u in done && Shared(s, u) :: t.vars[u] == s.vars[u].(destOps := []))
    && (forall u | u in LiveVars(t) && u !in s.vars :: Fresh(t.vars[u]))
    && DictsFrame(s, t, SharedIn(s, done))
  }

  ghost predicate ParamSlots(s: GraphState, t: GraphState, done: set<VarId>) {
    forall p | p in s.ops && p in t.ops ::
      && t.ops[p].(inputs := s.ops[p].inputs, outputs := s.ops[p].outputs) == s.ops[p]
      && (p !in LiveOps(s) ==> t.ops[p] == s.ops[p])
      && |t.ops[p].inputs| == |s.ops[p].inputs|
      && (p in LiveOps(s) ==> forall w :: (multiset(t.ops[p].outputs)[w] ==
            if w in done && Shared(s, w) then 0 else multiset(s.ops[p].outputs)[w]))
      && (p in LiveOps(s) ==> forall j | 0 <= j < |s.ops[p].inputs| && j < |t.ops[p].inputs| ::
            ParamSlot(s, t, done, p, s.ops[p].inputs[j], t.ops[p].inputs[j]))
  }

  /** The graph after `format_parameter` visited the variables in done:
      each shared parameter among them left the graph, every input slot
      that read one reads a fresh parameter copy of its value consumed by
      that operation alone, its producer no longer lists it, and nothing
      else changed. */
  ghost predicate ParamRound(s: GraphState, t: GraphState, done: set<VarId>) {
    ParamArena(s, t, done) && ParamSlots(s, t, done)
  }

  lemma ParamRoundStart(s: GraphState)
    ensures ParamRound(s, s, {})
  {
    assert SharedIn(s, {}) == {};
    DictsFrameStart(s);
  }

  lemma ParamArenaStep(s: GraphState, t: GraphState, r: GraphState, done: set<VarId>, v: VarId)
    requires ParamArena(s, t, done) && v !in done && Shared(s, v) && SplitArenaEffect(t, r, v)
    ensures ParamArena(s, r, done + {v})
  {
    assert SharedIn(s, done + {v}) == SharedIn(s, done) + {v};
    DictsFrameCompose(s, t, r, SharedIn(s, done), v);
    forall u | u in LiveVars(r) && u !in s.vars ensures Fresh(r.vars[u]) {
      if u in t.vars {
        assert u in LiveVars(t) && u != v;
      }
    }
  }

  lemma ParamSlotsStep(s: GraphState, t: GraphState, r: GraphState, done: set<VarId>, v: VarId)
    requires ParamArena(s, t, done) && ParamSlots(s, t, done) && v !in done && Shared(s, v)
    requires SplitArenaEffect(t, r, v) && SplitSlotsEffect(t, r, v)
    ensures ParamSlots(s, r, done + {v})
  {
    forall p | p in s.ops && p in r.ops && p in LiveOps(s)
      ensures forall w :: multiset(r.ops[p].outputs)[w] ==
                if w in done + {v} && Shared(s, w) then 0 else multiset(s.ops[p].outputs)[w]
      ensures forall j | 0 <= j < |s.ops[p].inputs| && j < |r.ops[p].inputs| ::
                ParamSlot(s, r, done + {v}, p, s.ops[p].inputs[j], r.ops[p].inputs[j])
    {
      assert p in LiveOps(t);
      forall j | 0 <= j < |s.ops[p].inputs| && j < |r.ops[p].inputs|
        ensures ParamSlot(s, r, done + {v}, p, s.ops[p].inputs[j], r.ops[p].inputs[j])
      {
        var w, w1, w2 := s.ops[p].inputs[j], t.ops[p].inputs[j], r.ops[p].inputs[j];
        assert ParamSlot(s, t, done, p, w, w1);
        if w in done && Shared(s, w) {
          assert w1 in t.vars && w1 != v;
          assert w2 == w1;
          assert w1 in LiveVars(r);
          CopyKept(s, t, r, w1, s.vars[w], p);
        }
      }
    }
  }

  /** Splitting one more shared variable extends the round. */
  lemma ParamRoundStep(s: GraphState, t: GraphState, r: GraphState, done: set<VarId>, v: VarId)
    requires ParamRound(s, t, done) && v !in done && Shared(s, v) && SplitEffect(t, r, v)
    ensures ParamRound(s, r, done + {v})
  {
    ParamArenaStep(s, t, r, done, v);
    ParamSlotsStep(s, t, r, done, v);
  }

  /** A variable that is not a shared parameter is left alone. */
  lemma ParamRoundSkip(s: GraphState, t: GraphState, done: set<VarId>, v: VarId)
    requires ParamRound(s, t, done) && !Shared(s, v)
    ensures ParamRound(s, t, done + {v})
  {
    assert SharedIn(s, done + {v}) == SharedIn(s, done);
    assert ParamArena(s, t, done + {v});
    forall p | p in s.ops && p in t.ops && p in LiveOps(s)
      ensures forall j | 0 <= j < |s.ops[p].inputs| && j < |t.ops[p].inputs| ::
                ParamSlot(s, t, done + {v}, p, s.ops[p].inputs[j], t.ops[p].inputs[j])
    {
      forall j | 0 <= j < |s.ops[p].inputs| && j < |t.ops[p].inputs|
        ensures ParamSlot(s, t, done + {v}, p, s.ops[p].inputs[j], t.ops[p].inputs[j])
      {
        assert ParamSlot(s, t, done, p, s.ops[p].inputs[j], t.ops[p].inputs[j]);
      }
    }
  }

  /** The state of the loop of `format_parameter` with the variables in
      rest still to visit. */
  ghost predicate ParamLoop(s: GraphState, t: GraphState, rest: set<VarId>) {
    && rest <= LiveVars(s)
    && ParamRound(s, t, LiveVars(s) - rest)
    && (forall u | u in LiveVars(s) - rest :: !(Shared(s, u) && s.vars[u].value.None?))
  }

  /** The variable about to be visited is as it was and still in the
      graph. */
  lemma ParamLoopVisit(s: GraphState, t: GraphState, rest: set<VarId>, v: VarId)
    requires ParamLoop(s, t, rest) && v in rest
    ensures LiveVar(s, v) && LiveVar(t, v) && t.vars[v] == s.vars[v]
  {
    assert v in LiveVars(s);
    assert v in LiveVars(t);
  }

  lemma ParamLoopSkip(s: GraphState, t: GraphState, rest: set<VarId>, v: VarId)
    requires ParamLoop(s, t, rest) && v in rest && v in t.vars && v in s.vars && t.vars[v] == s.vars[v]
    requires !(t.vars[v].isParameter && |t.vars[v].destOps| > 1)
    ensures ParamLoop(s, t, rest - {v})
  {
    ParamRoundSkip(s, t, LiveVars(s) - rest, v);
    assert LiveVars(s) - (rest - {v}) == (LiveVars(s) - rest) + {v};
  }

  lemma ParamLoopStep(s: GraphState, t: GraphState, r: GraphState, rest: set<VarId>, v: VarId)
    requires ParamLoop(s, t, rest) && v in rest && LiveVar(s, v) && v in t.vars && t.vars[v] == s.vars[v]
    requires t.vars[v].isParameter && |t.vars[v].destOps| > 1 && t.vars[v].value.Some?
    requires SplitEffect(t, r, v)
    ensures ParamLoop(s, r, rest - {v})
  {
    ParamRoundStep(s, t, r, LiveVars(s) - rest, v);
    assert LiveVars(s) - (rest - {v}) == (LiveVars(s) - rest) + {v};
  }

  lemma ParamLoopDone(s: GraphState, t: GraphState)
    requires ParamLoop(s, t, {})
    ensures ParamRound(s, t, LiveVars(s)) && !ValuelessShared(s)
  {
    assert LiveVars(s) - {} == LiveVars(s);
  }

  /** After every variable was visited no parameter of the graph has more
      than one consumer. */
  lemma ParamsUnshared(s: GraphState, t: GraphState)
    requires ParamRound(s, t, LiveVars(s))
    ensures forall u | LiveVar(t, u) && t.vars[u].isParameter :: |t.vars[u].destOps| <= 1
  {
    forall u | LiveVar(t, u) && t.vars[u].isParameter ensures |t.vars[u].destOps| <= 1 {
      assert u in LiveVars(t);
      if u in s.vars {
        assert u in LiveVars(s) && !Shared(s, u);
      }
    }
  }

  /** The variables read, after the variables in done were visited, by
      the input slots that held a shared parameter among them. */
  ghost function CopySlots(s: GraphState, t: GraphState, done: set<VarId>): set<VarId> {
    set p, j | p in LiveOps(s) && p in s.ops && p in t.ops && 0 <= j < |s.ops[p].inputs| && j < |t.ops[p].inputs|
                 && s.ops[p].inputs[j] in SharedIn(s, done) :: t.ops[p].inputs[j]
  }

  /** The graph variables after the round are exactly the old ones less
      the split parameters, and the copies in the slots that read them. */
  lemma {:induction false} ParamLiveVars(s: GraphState, t: GraphState, done: set<VarId>)
    requires WellFormed(s) && WellFormed(t) && ParamRound(s, t, done)
    ensures LiveVars(t) == (LiveVars(s) - SharedIn(s, done)) + CopySlots(s, t, done)
  {
    forall u | u in CopySlots(s, t, done) ensures u in LiveVars(t) {
      var p, j :| p in LiveOps(s) && p in s.ops && p in t.ops && 0 <= j < |s.ops[p].inputs| && j < |t.ops[p].inputs|
                 && s.ops[p].inputs[j] in SharedIn(s, done) && u == t.ops[p].inputs[j];
      assert ParamSlot(s, t, done, p, s.ops[p].inputs[j], t.ops[p].inputs[j]);
    }
    forall u | u in LiveVars(t) && u !in s.vars ensures u in CopySlots(s, t, done) {
      ParamCopyOrigin(s, t, done, u);
    }
  }

  /** A new graph variable is read by a slot that held a split
      parameter. */
  lemma ParamCopyOrigin(s: GraphState, t: GraphState, done: set<VarId>, u: VarId)
    requires WellFormed(s) && WellFormed(t) && ParamRound(s, t, done) && u in LiveVars(t) && u !in s.vars
    ensures u in CopySlots(s, t, done)
  {
    assert Fresh(t.vars[u]);
    var p := t.vars[u].destOps[0];
    SoleConsumer(t, u);
    ParamSlotOrigin(s, t, done, u, p);
  }

  /** The one consumer of a graph variable reads it. */
  lemma SoleConsumer(t: GraphState, u: VarId)
    requires WellFormed(t) && LiveVar(t, u) && |t.vars[u].destOps| == 1
    ensures LiveOp(t, t.vars[u].destOps[0]) && u in t.ops[t.vars[u].destOps[0]].inputs
  {
    var p := t.vars[u].destOps[0];
    assert p in t.vars[u].destOps;
    assert LiveOp(t, p);
    assert multiset(t.ops[p].inputs)[u] == multiset(t.vars[u].destOps)[p];
  }

  lemma ParamSlotOrigin(s: GraphState, t: GraphState, done: set<VarId>, u: VarId, p: OpId)
    requires Closed(s) && ParamRound(s, t, done) && u !in s.vars
    requires LiveOp(t, p) && u in t.ops[p].inputs
    ensures u in CopySlots(s, t, done)
  {
    var j :| 0 <= j < |t.ops[p].inputs| && t.ops[p].inputs[j] == u;
    assert p in LiveOps(t);
    assert p in LiveOps(s);
    var w := s.ops[p].inputs[j];
    assert ParamSlot(s, t, done, p, w, u);
    assert w in s.ops[p].inputs;
  }
}
