/** The computational-graph IR that the passes rewrite.

    Python object identity is modelled by handles: every Operation and
    Variable ever allocated lives in an arena (`ops`, `vars`) under an
    integer handle, and the graph proper is the four name-keyed
    dictionaries `operations`, `variables`, `inputs` and `outputs` that map
    names to handles.  An entity is live when the dictionary entry for its
    name points back at it.  Producer and consumer links are handles, so a
    detached object that is still referenced by a stale link stays
    observable, as it does in Python. */
module Ir {
  import opened Wrappers
  import opened Seqs

  type OpId = nat
  type VarId = nat

  /** Attribute values and the constant values parameter variables carry. */
  datatype Value =
    | IntVal(i: int)
    | IntsVal(xs: seq<int>)
    | RealVal(r: real)
    | TextVal(s: string)
    | TensorVal(data: seq<real>)

  datatype Operation = Operation(
    name: string,
    opType: string,
    attributes: map<string, Value>,
    inputs: seq<VarId>,
    outputs: seq<VarId>)

  datatype Variable = Variable(
    name: string,
    value: Option<Value>,
    isParameter: bool,
    sourceOp: Option<OpId>,
    destOps: seq<OpId>)

  /** A snapshot of a graph: the arena plus the name dictionaries. */
  datatype GraphState = GraphState(
    ops: map<OpId, Operation>,
    vars: map<VarId, Variable>,
    operations: map<string, OpId>,
    variables: map<string, VarId>,
    inputs: map<string, VarId>,
    outputs: map<string, VarId>)

  datatype GraphError = KeyError | ValueError | TypeError | IndexError | AttributeError

  /** The operation is registered in the graph under its own name. */
  predicate LiveOp(s: GraphState, o: OpId) {
    o in s.ops && s.ops[o].name in s.operations && s.operations[s.ops[o].name] == o
  }

  /** The variable is registered in the graph under its own name. */
  predicate LiveVar(s: GraphState, v: VarId) {
    v in s.vars && s.vars[v].name in s.variables && s.variables[s.vars[v].name] == v
  }

  /** The operations and variables of the graph. */
  ghost function LiveOps(s: GraphState): set<OpId> {
    set o | o in s.ops && LiveOp(s, o)
  }

  ghost function LiveVars(s: GraphState): set<VarId> {
    set v | v in s.vars && LiveVar(s, v)
  }

  /** Every dictionary entry names an allocated entity of that name, and the
      graph inputs and outputs are graph variables. */
  ghost predicate NamesConsistent(s: GraphState) {
    && (forall n | n in s.operations :: s.operations[n] in s.ops && s.ops[s.operations[n]].name == n)
    && (forall n | n in s.variables :: s.variables[n] in s.vars && s.vars[s.variables[n]].name == n)
    && (forall n | n in s.inputs :: n in s.variables && s.inputs[n] == s.variables[n])
    && (forall n | n in s.outputs :: n in s.variables && s.outputs[n] == s.variables[n])
  }

  /** Live entities only link to live entities. */
  ghost predicate Closed(s: GraphState) {
    && (forall o, v | LiveOp(s, o) && v in s.ops[o].inputs :: LiveVar(s, v))
    && (forall o, v | LiveOp(s, o) && v in s.ops[o].outputs :: LiveVar(s, v))
    && (forall v | LiveVar(s, v) && s.vars[v].sourceOp.Some? :: LiveOp(s, s.vars[v].sourceOp.value))
    && (forall v, o | LiveVar(s, v) && o in s.vars[v].destOps :: LiveOp(s, o))
  }

  /** Every edge is recorded at both ends: an operation lists a variable
      among its inputs exactly as often as the variable lists the operation
      among its consumers, and an operation lists a variable once among its
      outputs exactly when it is that variable's producer. */
  ghost predicate Linked(s: GraphState) {
    && (forall o, v | LiveOp(s, o) && LiveVar(s, v) ::
          multiset(s.ops[o].inputs)[v] == multiset(s.vars[v].destOps)[o])
    && (forall o, v | LiveOp(s, o) && LiveVar(s, v) ::
          multiset(s.ops[o].outputs)[v] == if s.vars[v].sourceOp == Some(o) then 1 else 0)
  }

  /** The invariant every pass keeps. */
  ghost predicate WellFormed(s: GraphState) {
    NamesConsistent(s) && Closed(s) && Linked(s)
  }

  /** The two edge counts, checked pair by pair, make a graph linked. */
  lemma LinkedByPairs(r: GraphState)
    requires forall o, w | LiveOp(r, o) && LiveVar(r, w) ::
      && multiset(r.ops[o].inputs)[w] == multiset(r.vars[w].destOps)[o]
      && multiset(r.ops[o].outputs)[w] == if r.vars[w].sourceOp == Some(o) then 1 else 0
    ensures Linked(r)
  {
  }

  /** The four closure conditions, each proved on its own, make a graph
      closed. */
  lemma ClosedByParts(r: GraphState)
    requires forall o, v | LiveOp(r, o) && v in r.ops[o].inputs :: LiveVar(r, v)
    requires forall o, v | LiveOp(r, o) && v in r.ops[o].outputs :: LiveVar(r, v)
    requires forall v | LiveVar(r, v) && r.vars[v].sourceOp.Some? :: LiveOp(r, r.vars[v].sourceOp.value)
    requires forall v, o | LiveVar(r, v) && o in r.vars[v].destOps :: LiveOp(r, o)
    ensures Closed(r)
  {
  }

  /** The consumers of a list of variables, concatenated in order. */
  function ConsumersOf(s: GraphState, vs: seq<VarId>): seq<OpId> {
    if vs == [] then []
    else (if vs[0] in s.vars then s.vars[vs[0]].destOps else []) + ConsumersOf(s, vs[1..])
  }

  /** The producers of a list of variables, in order, skipping variables
      without one. */
  function ProducersOf(s: GraphState, vs: seq<VarId>): seq<OpId> {
    if vs == [] then []
    else (if vs[0] in s.vars && s.vars[vs[0]].sourceOp.Some? then [s.vars[vs[0]].sourceOp.value] else [])
         + ProducersOf(s, vs[1..])
  }

  /** `graph.get_downstream_operations(op)`. */
  function Downstream(s: GraphState, o: OpId): seq<OpId>
    requires o in s.ops
  {
    ConsumersOf(s, s.ops[o].outputs)
  }

  /** `graph.get_upstream_operations(op)`. */
  function Upstream(s: GraphState, o: OpId): seq<OpId>
    requires o in s.ops
  {
    ProducersOf(s, s.ops[o].inputs)
  }

  /** The parameter inputs of an operation; `op.parameters` is derived from
      its inputs. */
  function Parameters(s: GraphState, o: OpId): seq<VarId>
    requires o in s.ops
  {
    ParameterVars(s, s.ops[o].inputs)
  }

  function ParameterVars(s: GraphState, vs: seq<VarId>): seq<VarId> {
    if vs == [] then []
    else (if vs[0] in s.vars && s.vars[vs[0]].isParameter then [vs[0]] else []) + ParameterVars(s, vs[1..])
  }

  lemma {:induction false} ConsumersOfMembership(s: GraphState, vs: seq<VarId>, d: OpId)
    ensures d in ConsumersOf(s, vs) <==> exists v :: v in vs && v in s.vars && d in s.vars[v].destOps
  {
    if vs != [] {
      ConsumersOfMembership(s, vs[1..], d);
      assert forall v :: v in vs <==> v == vs[0] || v in vs[1..];
    }
  }

  lemma {:induction false} ProducersOfMembership(s: GraphState, vs: seq<VarId>, u: OpId)
    ensures u in ProducersOf(s, vs) <==> exists v :: v in vs && v in s.vars && s.vars[v].sourceOp == Some(u)
  {
    if vs != [] {
      ProducersOfMembership(s, vs[1..], u);
      assert forall v :: v in vs <==> v == vs[0] || v in vs[1..];
    }
  }

  lemma {:induction false} NeighboursOfSameArena(s: GraphState, t: GraphState, vs: seq<VarId>)
    requires s.vars == t.vars
    ensures ConsumersOf(s, vs) == ConsumersOf(t, vs) && ProducersOf(s, vs) == ProducersOf(t, vs)
  {
    if vs != [] {
      NeighboursOfSameArena(s, t, vs[1..]);
    }
  }

  /** Neighbourhoods depend on the arena only, not on the name
      dictionaries. */
  lemma SameArenaSameNeighbours(s: GraphState, t: GraphState, o: OpId)
    requires s.ops == t.ops && s.vars == t.vars && o in s.ops
    ensures Downstream(s, o) == Downstream(t, o) && Upstream(s, o) == Upstream(t, o)
  {
    NeighboursOfSameArena(s, t, s.ops[o].outputs);
    NeighboursOfSameArena(s, t, s.ops[o].inputs);
  }

  /** In a well-formed graph d is downstream of o exactly when o is
      upstream of d. */
  lemma DownstreamUpstreamDual(s: GraphState, o: OpId, d: OpId)
    requires WellFormed(s) && LiveOp(s, o) && LiveOp(s, d)
    ensures d in Downstream(s, o) <==> o in Upstream(s, d)
  {
    ConsumersOfMembership(s, s.ops[o].outputs, d);
    ProducersOfMembership(s, s.ops[d].inputs, o);
    if d in Downstream(s, o) {
      var v :| v in s.ops[o].outputs && v in s.vars && d in s.vars[v].destOps;
      assert LiveVar(s, v);
      assert multiset(s.ops[o].outputs)[v] > 0;
      assert multiset(s.ops[d].inputs)[v] > 0;
    }
    if o in Upstream(s, d) {
      var v :| v in s.ops[d].inputs && v in s.vars && s.vars[v].sourceOp == Some(o);
      assert LiveVar(s, v);
      assert multiset(s.ops[d].inputs)[v] > 0;
      assert multiset(s.vars[v].destOps)[d] > 0;
      assert multiset(s.ops[o].outputs)[v] == 1;
    }
  }

  /** In a well-formed graph the neighbours of a live operation are live. */
  lemma NeighboursAreLive(s: GraphState, o: OpId)
    requires WellFormed(s) && LiveOp(s, o)
    ensures forall d :: d in Downstream(s, o) ==> LiveOp(s, d)
    ensures forall u :: u in Upstream(s, o) ==> LiveOp(s, u)
  {
    forall d | d in Downstream(s, o) ensures LiveOp(s, d) {
      ConsumersOfMembership(s, s.ops[o].outputs, d);
    }
    forall u | u in Upstream(s, o) ensures LiveOp(s, u) {
      ProducersOfMembership(s, s.ops[o].inputs, u);
    }
  }

  // ---------------------------------------------------------------------
  // The graph primitives the passes call.  The module holding them
  // (mppq/ir/base/graph.py) is not part of this model: what follows is the
  // contract the passes rely on, stated as the unlinking and linking the
  // passes' own comments and names describe.
  // ---------------------------------------------------------------------

  /** A variable with its links to operation o dropped. */
  function Unlinked(x: Variable, o: OpId, asConsumer: bool, asProducer: bool): Variable {
    x.(destOps := if asConsumer then Without(x.destOps, o) else x.destOps,
       sourceOp := if asProducer then None else x.sourceOp)
  }

  /** Every variable with its links to operation op, at handle o, dropped. */
  function UnlinkedVars(vars: map<VarId, Variable>, o: OpId, op: Operation): map<VarId, Variable> {
    map v | v in vars :: Unlinked(vars[v], o, v in op.inputs, v in op.outputs)
  }

  /** `remove_operation(op)`: the operation leaves `operations`, its input
      variables drop it from their consumers, its output variables lose
      their producer, and its own input and output lists are cleared. */
  function RemoveOperationState(s: GraphState, o: OpId): (r: GraphState)
    requires o in s.ops
    ensures r.vars.Keys == s.vars.Keys && r.ops.Keys == s.ops.Keys
  {
    var op := s.ops[o];
    s.(ops := s.ops[o := op.(inputs := [], outputs := [])],
       vars := UnlinkedVars(s.vars, o, op),
       operations := s.operations - {op.name})
  }

  /** An operation with its links to variable v dropped. */
  function Detached(x: Operation, v: VarId, asInput: bool, asOutput: bool): Operation {
    x.(inputs := if asInput then Without(x.inputs, v) else x.inputs,
       outputs := if asOutput then Without(x.outputs, v) else x.outputs)
  }

  /** `remove_variable(var)`: the variable leaves `variables`, `inputs` and
      `outputs`; its producer and consumers drop it from their lists. */
  /** Every operation with its links to variable x, at handle v, dropped. */
  function DetachedOps(ops: map<OpId, Operation>, v: VarId, x: Variable): map<OpId, Operation> {
    map o | o in ops :: Detached(ops[o], v, o in x.destOps, x.sourceOp == Some(o))
  }

  function RemoveVariableState(s: GraphState, v: VarId): (r: GraphState)
    requires v in s.vars
    ensures r.vars == s.vars && r.ops.Keys == s.ops.Keys
  {
    var x := s.vars[v];
    s.(ops := DetachedOps(s.ops, v, x),
       variables := s.variables - {x.name},
       inputs := s.inputs - {x.name},
       outputs := s.outputs - {x.name})
  }

  /** `remove_variable` drops the entries of the variable's name, which in
      a consistent graph are the entries holding the variable. */
  lemma DropNameEntry(t: GraphState, m: map<string, VarId>, m0: map<string, VarId>, e: set<VarId>, v: VarId)
    requires NamesConsistent(t) && LiveVar(t, v) && m == WithoutValues(m0, e)
    requires forall n | n in m :: n in t.variables && m[n] == t.variables[n]
    ensures m - {t.vars[v].name} == WithoutValues(m0, e + {v})
  {
    var name := t.vars[v].name;
    forall n | n in m ensures m[n] == v <==> n == name {
      assert t.vars[t.variables[n]].name == n;
    }
  }

  /** `create_variable(...)` with a fresh handle h: the variable is
      registered, and each consumer it is created with gets it appended to
      its inputs (once per listing). */
  function CreateVariableState(s: GraphState, h: VarId, x: Variable): (r: GraphState)
    ensures r.ops.Keys == s.ops.Keys
  {
    s.(vars := s.vars[h := x],
       variables := s.variables[x.name := h],
       ops := map o | o in s.ops ::
                if o in x.destOps then s.ops[o].(inputs := s.ops[o].inputs + Repeat(h, multiset(x.destOps)[o]))
                else s.ops[o])
  }

  /** `mark_variable_as_graph_output(var)`. */
  function MarkOutputState(s: GraphState, v: VarId): GraphState
    requires v in s.vars
  {
    s.(outputs := s.outputs[s.vars[v].name := v])
  }

  lemma RemoveOperationLiveness(s: GraphState, o: OpId)
    requires WellFormed(s) && LiveOp(s, o)
    ensures forall p :: LiveOp(RemoveOperationState(s, o), p) <==> LiveOp(s, p) && p != o
    ensures forall v :: LiveVar(RemoveOperationState(s, o), v) <==> LiveVar(s, v)
  {
  }

  lemma RemoveOperationLiveSets(s: GraphState, o: OpId)
    requires WellFormed(s) && LiveOp(s, o)
    ensures LiveOps(RemoveOperationState(s, o)) == LiveOps(s) - {o}
    ensures LiveVars(RemoveOperationState(s, o)) == LiveVars(s)
  {
    RemoveOperationLiveness(s, o);
  }

  lemma RemoveOperationLinkedAt(s: GraphState, o: OpId, p: OpId, v: VarId)
    requires WellFormed(s) && LiveOp(s, o) && LiveOp(s, p) && p != o && LiveVar(s, v)
    ensures var r := RemoveOperationState(s, o);
      && multiset(r.ops[p].inputs)[v] == multiset(r.vars[v].destOps)[p]
      && multiset(r.ops[p].outputs)[v] == if r.vars[v].sourceOp == Some(p) then 1 else 0
  {
    var r := RemoveOperationState(s, o);
    var op := s.ops[o];
    assert r.ops[p] == s.ops[p];
    assert r.vars[v] == Unlinked(s.vars[v], o, v in op.inputs, v in op.outputs);
    if v in op.outputs {
      assert multiset(op.outputs)[v] > 0;
      assert s.vars[v].sourceOp == Some(o);
    }
  }

  lemma RemoveOperationKeepsNames(s: GraphState, o: OpId)
    requires WellFormed(s) && LiveOp(s, o)
    ensures NamesConsistent(RemoveOperationState(s, o))
  {
  }

  lemma RemoveOperationKeepsLinks(s: GraphState, o: OpId)
    requires WellFormed(s) && LiveOp(s, o)
    ensures Linked(RemoveOperationState(s, o))
  {
    var r := RemoveOperationState(s, o);
    RemoveOperationLiveness(s, o);
    forall p, v | LiveOp(r, p) && LiveVar(r, v)
      ensures multiset(r.ops[p].inputs)[v] == multiset(r.vars[v].destOps)[p]
      ensures multiset(r.ops[p].outputs)[v] == if r.vars[v].sourceOp == Some(p) then 1 else 0
    {
      RemoveOperationLinkedAt(s, o, p, v);
    }
  }

  lemma RemoveOperationKeepsClosure(s: GraphState, o: OpId)
    requires WellFormed(s) && LiveOp(s, o)
    ensures Closed(RemoveOperationState(s, o))
  {
    var r := RemoveOperationState(s, o);
    RemoveOperationLiveness(s, o);
    forall v, p | LiveVar(r, v) && p in r.vars[v].destOps ensures LiveOp(r, p) {
      RemoveOperationClosedConsumer(s, o, v, p);
    }
    forall v | LiveVar(r, v) && r.vars[v].sourceOp.Some? ensures LiveOp(r, r.vars[v].sourceOp.value) {
      RemoveOperationClosedProducer(s, o, v);
    }
    forall p, v | LiveOp(r, p) && v in r.ops[p].inputs ensures LiveVar(r, v) {
      assert r.ops[p] == s.ops[p];
    }
    forall p, v | LiveOp(r, p) && v in r.ops[p].outputs ensures LiveVar(r, v) {
      assert r.ops[p] == s.ops[p];
    }
  }

  lemma RemoveOperationClosedConsumer(s: GraphState, o: OpId, v: VarId, p: OpId)
    requires WellFormed(s) && LiveOp(s, o) && LiveVar(s, v)
    requires p in RemoveOperationState(s, o).vars[v].destOps
    ensures LiveOp(RemoveOperationState(s, o), p)
  {
    var op := s.ops[o];
    assert p in s.vars[v].destOps;
    assert multiset(op.inputs)[v] == multiset(s.vars[v].destOps)[o];
    assert p != o;
    RemoveOperationLiveness(s, o);
  }

  lemma RemoveOperationClosedProducer(s: GraphState, o: OpId, v: VarId)
    requires WellFormed(s) && LiveOp(s, o) && LiveVar(s, v)
    requires RemoveOperationState(s, o).vars[v].sourceOp.Some?
    ensures LiveOp(RemoveOperationState(s, o), RemoveOperationState(s, o).vars[v].sourceOp.value)
  {
    var op := s.ops[o];
    assert v !in op.outputs;
    assert multiset(op.outputs)[v] == 0;
    assert s.vars[v].sourceOp != Some(o);
    RemoveOperationLiveness(s, o);
  }

  lemma RemoveOperationKeepsWellFormed(s: GraphState, o: OpId)
    requires WellFormed(s) && LiveOp(s, o)
    ensures WellFormed(RemoveOperationState(s, o))
  {
    RemoveOperationKeepsNames(s, o);
    RemoveOperationKeepsLinks(s, o);
    RemoveOperationKeepsClosure(s, o);
  }

  lemma RemoveVariableLiveness(s: GraphState, v: VarId)
    requires WellFormed(s) && LiveVar(s, v)
    ensures forall o :: LiveOp(RemoveVariableState(s, v), o) <==> LiveOp(s, o)
    ensures forall w :: LiveVar(RemoveVariableState(s, v), w) <==> LiveVar(s, w) && w != v
  {
  }

  lemma RemoveVariableLiveSets(s: GraphState, v: VarId)
    requires WellFormed(s) && LiveVar(s, v)
    ensures LiveOps(RemoveVariableState(s, v)) == LiveOps(s)
    ensures LiveVars(RemoveVariableState(s, v)) == LiveVars(s) - {v}
  {
    RemoveVariableLiveness(s, v);
  }

  lemma RemoveVariableLinkedAt(s: GraphState, v: VarId, o: OpId, w: VarId)
    requires WellFormed(s) && LiveVar(s, v) && LiveOp(s, o) && LiveVar(s, w) && w != v
    ensures var r := RemoveVariableState(s, v);
      && multiset(r.ops[o].inputs)[w] == multiset(r.vars[w].destOps)[o]
      && multiset(r.ops[o].outputs)[w] == if r.vars[w].sourceOp == Some(o) then 1 else 0
  {
    var r := RemoveVariableState(s, v);
    var x := s.vars[v];
    assert r.ops[o] == Detached(s.ops[o], v, o in x.destOps, x.sourceOp == Some(o));
  }

  lemma RemoveVariableDropsIt(s: GraphState, v: VarId, o: OpId)
    requires WellFormed(s) && LiveVar(s, v) && LiveOp(s, o)
    ensures var r := RemoveVariableState(s, v);
      v !in r.ops[o].inputs && v !in r.ops[o].outputs
  {
    var r := RemoveVariableState(s, v);
    var x := s.vars[v];
    assert r.ops[o] == Detached(s.ops[o], v, o in x.destOps, x.sourceOp == Some(o));
    if o !in x.destOps {
      assert multiset(s.ops[o].inputs)[v] == 0;
    }
    if x.sourceOp != Some(o) {
      assert multiset(s.ops[o].outputs)[v] == 0;
    }
  }

  lemma RemoveVariableKeepsNames(s: GraphState, v: VarId)
    requires WellFormed(s) && LiveVar(s, v)
    ensures NamesConsistent(RemoveVariableState(s, v))
  {
  }

  lemma RemoveVariableKeepsLinks(s: GraphState, v: VarId)
    requires WellFormed(s) && LiveVar(s, v)
    ensures Linked(RemoveVariableState(s, v))
  {
    var r := RemoveVariableState(s, v);
    RemoveVariableLiveness(s, v);
    forall o, w | LiveOp(r, o) && LiveVar(r, w)
      ensures multiset(r.ops[o].inputs)[w] == multiset(r.vars[w].destOps)[o]
      ensures multiset(r.ops[o].outputs)[w] == if r.vars[w].sourceOp == Some(o) then 1 else 0
    {
      RemoveVariableLinkedAt(s, v, o, w);
    }
  }

  lemma RemoveVariableClosedAt(s: GraphState, v: VarId, o: OpId, w: VarId)
    requires WellFormed(s) && LiveVar(s, v) && LiveOp(s, o)
    requires var r := RemoveVariableState(s, v); w in r.ops[o].inputs || w in r.ops[o].outputs
    ensures LiveVar(RemoveVariableState(s, v), w)
  {
    var r := RemoveVariableState(s, v);
    var x := s.vars[v];
    RemoveVariableDropsIt(s, v, o);
    assert r.ops[o] == Detached(s.ops[o], v, o in x.destOps, x.sourceOp == Some(o));
    assert w in s.ops[o].inputs || w in s.ops[o].outputs;
    assert w != v;
    assert LiveVar(s, w);
    assert s.vars[w].name != x.name;
  }

  lemma RemoveVariableKeepsClosure(s: GraphState, v: VarId)
    requires WellFormed(s) && LiveVar(s, v)
    ensures Closed(RemoveVariableState(s, v))
  {
    var r := RemoveVariableState(s, v);
    RemoveVariableLiveness(s, v);
    forall o, w | LiveOp(r, o) && w in r.ops[o].inputs ensures LiveVar(r, w) {
      RemoveVariableClosedAt(s, v, o, w);
    }
    forall o, w | LiveOp(r, o) && w in r.ops[o].outputs ensures LiveVar(r, w) {
      RemoveVariableClosedAt(s, v, o, w);
    }
  }

  lemma RemoveVariableKeepsWellFormed(s: GraphState, v: VarId)
    requires WellFormed(s) && LiveVar(s, v)
    ensures WellFormed(RemoveVariableState(s, v))
  {
    RemoveVariableKeepsNames(s, v);
    RemoveVariableKeepsLinks(s, v);
    RemoveVariableKeepsClosure(s, v);
  }

  /** What `create_variable` needs of its arguments: a handle and a name not
      yet in use, no producer, and live consumers. */
  ghost predicate CanCreate(s: GraphState, h: VarId, x: Variable) {
    h !in s.vars && x.name !in s.variables && x.sourceOp == None &&
    forall d :: d in x.destOps ==> LiveOp(s, d)
  }

  lemma CreateVariableLiveness(s: GraphState, h: VarId, x: Variable)
    requires WellFormed(s) && CanCreate(s, h, x)
    ensures forall o :: LiveOp(CreateVariableState(s, h, x), o) <==> LiveOp(s, o)
    ensures forall w :: LiveVar(CreateVariableState(s, h, x), w) <==> LiveVar(s, w) || w == h
  {
  }

  lemma CreateVariableLiveSets(s: GraphState, h: VarId, x: Variable)
    requires WellFormed(s) && CanCreate(s, h, x)
    ensures LiveOps(CreateVariableState(s, h, x)) == LiveOps(s)
    ensures LiveVars(CreateVariableState(s, h, x)) == LiveVars(s) + {h}
  {
    CreateVariableLiveness(s, h, x);
  }

  lemma CreateVariableLinkedAt(s: GraphState, h: VarId, x: Variable, r: GraphState, o: OpId, w: VarId)
    requires WellFormed(s) && CanCreate(s, h, x) && r == CreateVariableState(s, h, x)
    requires LiveOp(r, o) && LiveVar(r, w)
    ensures o in r.ops && w in r.vars
    ensures multiset(r.ops[o].inputs)[w] == multiset(r.vars[w].destOps)[o]
    ensures multiset(r.ops[o].outputs)[w] == if r.vars[w].sourceOp == Some(o) then 1 else 0
  {
    CreateVariableLiveness(s, h, x);
    assert LiveOp(s, o) && (LiveVar(s, w) || w == h);
    assert Closed(s);
    assert (h in s.ops[o].inputs ==> LiveVar(s, h)) && (h in s.ops[o].outputs ==> LiveVar(s, h));
    assert multiset(s.ops[o].inputs)[h] == 0 && multiset(s.ops[o].outputs)[h] == 0;
    if o in x.destOps {
      assert r.ops[o].inputs == s.ops[o].inputs + Repeat(h, multiset(x.destOps)[o]);
    } else {
      assert r.ops[o] == s.ops[o];
      assert multiset(x.destOps)[o] == 0;
    }
  }

  lemma CreateVariableClosedAt(s: GraphState, h: VarId, x: Variable, o: OpId, w: VarId)
    requires WellFormed(s) && CanCreate(s, h, x) && LiveOp(s, o)
    requires var r := CreateVariableState(s, h, x); w in r.ops[o].inputs || w in r.ops[o].outputs
    ensures LiveVar(s, w) || w == h
  {
    var r := CreateVariableState(s, h, x);
    if o in x.destOps {
      assert r.ops[o].inputs == s.ops[o].inputs + Repeat(h, multiset(x.destOps)[o]);
    } else {
      assert r.ops[o] == s.ops[o];
    }
    assert r.ops[o].outputs == s.ops[o].outputs;
  }

  lemma CreateVariableKeepsNames(s: GraphState, h: VarId, x: Variable)
    requires WellFormed(s) && CanCreate(s, h, x)
    ensures NamesConsistent(CreateVariableState(s, h, x))
  {
    var r := CreateVariableState(s, h, x);
    forall n | n in r.operations ensures r.operations[n] in r.ops && r.ops[r.operations[n]].name == n {
      assert s.operations[n] in s.ops;
    }
  }

  lemma CreateVariableKeepsLinks(s: GraphState, h: VarId, x: Variable)
    requires WellFormed(s) && CanCreate(s, h, x)
    ensures Linked(CreateVariableState(s, h, x))
  {
    var r := CreateVariableState(s, h, x);
    forall o, w | LiveOp(r, o) && LiveVar(r, w)
      ensures multiset(r.ops[o].inputs)[w] == multiset(r.vars[w].destOps)[o]
      ensures multiset(r.ops[o].outputs)[w] == if r.vars[w].sourceOp == Some(o) then 1 else 0
    {
      CreateVariableLinkedAt(s, h, x, r, o, w);
    }
    LinkedByPairs(r);
  }

  lemma CreateVariableKeepsClosure(s: GraphState, h: VarId, x: Variable)
    requires WellFormed(s) && CanCreate(s, h, x)
    ensures Closed(CreateVariableState(s, h, x))
  {
    var r := CreateVariableState(s, h, x);
    CreateVariableLiveness(s, h, x);
    forall o, w | LiveOp(r, o) && (w in r.ops[o].inputs || w in r.ops[o].outputs) ensures LiveVar(r, w) {
      CreateVariableClosedAt(s, h, x, o, w);
    }
  }

  lemma CreateVariableKeepsWellFormed(s: GraphState, h: VarId, x: Variable)
    requires WellFormed(s) && CanCreate(s, h, x)
    ensures WellFormed(CreateVariableState(s, h, x))
  {
    CreateVariableKeepsNames(s, h, x);
    CreateVariableKeepsLinks(s, h, x);
    CreateVariableKeepsClosure(s, h, x);
  }

  lemma MarkOutputKeepsWellFormed(s: GraphState, v: VarId)
    requires WellFormed(s) && LiveVar(s, v)
    ensures WellFormed(MarkOutputState(s, v))
  {
    var r := MarkOutputState(s, v);
    assert forall o :: LiveOp(r, o) == LiveOp(s, o);
    assert forall w :: LiveVar(r, w) == LiveVar(s, w);
  }

  /** A name not in `taken`, standing in for the generated names
      (`PPQ_Variable_<n>`) of `create_variable`: only freshness is kept. */
  method FreshName(taken: set<string>) returns (n: string)
    ensures n !in taken
  {
    var rest := taken;
    var longest: nat := 0;
    while rest != {}
      invariant rest <= taken
      invariant forall k :: k in taken && k !in rest ==> |k| <= longest
      decreases rest
    {
      var k :| k in rest;
      if |k| > longest {
        longest := |k|;
      }
      rest := rest - {k};
    }
    n := seq(longest + 1, _ => 'v');
  }

  /** A graph: the name dictionaries of `BaseGraph` over an arena of every
      operation and variable object allocated so far. */
  /** Allocating an operation object that no dictionary names changes
      neither which entities are live nor any invariant. */
  lemma AllocOperationKeepsWellFormed(s: GraphState, h: OpId, x: Operation)
    requires WellFormed(s) && h !in s.ops
    ensures WellFormed(GraphState(s.ops[h := x], s.vars, s.operations, s.variables, s.inputs, s.outputs))
  {
    var r := GraphState(s.ops[h := x], s.vars, s.operations, s.variables, s.inputs, s.outputs);
    assert forall o :: LiveOp(r, o) <==> LiveOp(s, o);
    assert forall v :: LiveVar(r, v) <==> LiveVar(s, v);
    forall o, v | LiveOp(r, o) && LiveVar(r, v)
      ensures multiset(r.ops[o].inputs)[v] == multiset(r.vars[v].destOps)[o]
      ensures multiset(r.ops[o].outputs)[v] == if r.vars[v].sourceOp == Some(o) then 1 else 0
    {
      assert r.ops[o] == s.ops[o];
    }
    LinkedByPairs(r);
  }

  /** Allocating a variable object that no dictionary names, likewise. */
  lemma AllocVariableKeepsWellFormed(s: GraphState, h: VarId, x: Variable)
    requires WellFormed(s) && h !in s.vars
    ensures WellFormed(GraphState(s.ops, s.vars[h := x], s.operations, s.variables, s.inputs, s.outputs))
  {
    var r := GraphState(s.ops, s.vars[h := x], s.operations, s.variables, s.inputs, s.outputs);
    assert forall o :: LiveOp(r, o) <==> LiveOp(s, o);
    assert forall v :: LiveVar(r, v) <==> LiveVar(s, v);
    forall o, v | LiveOp(r, o) && LiveVar(r, v)
      ensures multiset(r.ops[o].inputs)[v] == multiset(r.vars[v].destOps)[o]
      ensures multiset(r.ops[o].outputs)[v] == if r.vars[v].sourceOp == Some(o) then 1 else 0
    {
      assert r.vars[v] == s.vars[v];
    }
    LinkedByPairs(r);
  }

  class Graph {
    var ops: map<OpId, Operation>
    var vars: map<VarId, Variable>
    var operations: map<string, OpId>
    var variables: map<string, VarId>
    var inputs: map<string, VarId>
    var outputs: map<string, VarId>
    var nextOp: nat
    var nextVar: nat

    function View(): GraphState
      reads this
    {
      GraphState(ops, vars, operations, variables, inputs, outputs)
    }

    /** Well-formed, and the allocation counters are past every handle. */
    ghost predicate Valid()
      reads this
    {
      && WellFormed(View())
      && (forall h | h in ops :: h < nextOp)
      && (forall h | h in vars :: h < nextVar)
    }

    constructor ()
      ensures Valid()
      ensures View() == GraphState(map[], map[], map[], map[], map[], map[])
    {
      ops, vars := map[], map[];
      operations, variables, inputs, outputs := map[], map[], map[], map[];
      nextOp, nextVar := 0, 0;
    }

    /** Installs a state computed by a pass; handles stay below the counters. */
    method Commit(t: GraphState)
      requires forall h | h in t.ops :: h < nextOp
      requires forall h | h in t.vars :: h < nextVar
      modifies this
      ensures View() == t && nextOp == old(nextOp) && nextVar == old(nextVar)
      ensures WellFormed(t) ==> Valid()
    {
      ops, vars, operations, variables, inputs, outputs :=
        t.ops, t.vars, t.operations, t.variables, t.inputs, t.outputs;
    }

    /** Allocating an `Operation` object; it is not in the graph yet. */
    method NewOperation(x: Operation) returns (h: OpId)
      requires Valid()
      modifies this
      ensures Valid() && h !in old(ops)
      ensures View() == old(View()).(ops := old(ops)[h := x])
      ensures nextVar == old(nextVar)
    {
      h := nextOp;
      ghost var s := View();
      AllocOperationKeepsWellFormed(s, h, x);
      ops := ops[h := x];
      nextOp := nextOp + 1;
      assert View() == s.(ops := s.ops[h := x]);
    }

    /** Allocating a `Variable` object; it is not in the graph yet. */
    method NewVariable(x: Variable) returns (h: VarId)
      requires Valid()
      modifies this
      ensures Valid() && h !in old(vars)
      ensures View() == old(View()).(vars := old(vars)[h := x])
      ensures vars == old(vars)[h := x]
      ensures nextOp == old(nextOp)
    {
      h := nextVar;
      ghost var s := View();
      AllocVariableKeepsWellFormed(s, h, x);
      vars := vars[h := x];
      nextVar := nextVar + 1;
      assert View() == s.(vars := s.vars[h := x]);
    }

    /** `append_variable(var)`: a KeyError when the name is taken, otherwise
        the variable is registered as it is, without linking it. */
    method AppendVariable(v: VarId) returns (outcome: Outcome<GraphError>)
      requires v in vars
      modifies this
      ensures outcome.Fail? <==> old(vars[v].name in variables)
      ensures outcome.Fail? ==> View() == old(View())
      ensures outcome.Pass? ==> View() == old(View()).(variables := old(variables)[old(vars)[v].name := v])
      ensures vars == old(vars) && ops == old(ops)
      ensures nextOp == old(nextOp) && nextVar == old(nextVar)
    {
      if vars[v].name in variables {
        return Fail(KeyError);
      }
      variables := variables[vars[v].name := v];
      return Pass;
    }

    /** `create_variable(is_parameter, value, dest_ops)`: a fresh variable
        under a fresh name, appended to the inputs of each consumer. */
    method CreateVariable(value: Option<Value>, isParameter: bool, destOps: seq<OpId>) returns (h: VarId)
      requires Valid()
      requires forall d :: d in destOps ==> LiveOp(View(), d)
      modifies this
      ensures Valid() && h !in old(vars)
      ensures h in vars && vars[h].name !in old(variables)
      ensures View() == CreateVariableState(old(View()), h, Variable(vars[h].name, value, isParameter, None, destOps))
      ensures LiveOps(View()) == old(LiveOps(View())) && LiveVars(View()) == old(LiveVars(View())) + {h}
      ensures nextOp == old(nextOp)
    {
      ghost var s := View();
      var name := FreshName(variables.Keys);
      h := nextVar;
      var x := Variable(name, value, isParameter, None, destOps);
      CreateVariableKeepsWellFormed(s, h, x);
      CreateVariableLiveSets(s, h, x);
      var r := CreateVariableState(View(), h, x);
      ops, vars, variables := r.ops, r.vars, r.variables;
      nextVar := nextVar + 1;
      assert View() == r;
    }

    /** `remove_operation(op)` without coherence. */
    method RemoveOperation(o: OpId)
      requires Valid() && LiveOp(View(), o)
      modifies this
      ensures Valid()
      ensures View() == RemoveOperationState(old(View()), o)
      ensures LiveOps(View()) == old(LiveOps(View())) - {o} && LiveVars(View()) == old(LiveVars(View()))
      ensures nextOp == old(nextOp) && nextVar == old(nextVar)
    {
      ghost var s := View();
      RemoveOperationKeepsWellFormed(s, o);
      RemoveOperationLiveSets(s, o);
      var op := ops[o];
      vars := UnlinkedVars(vars, o, op);
      ops := ops[o := op.(inputs := [], outputs := [])];
      operations := operations - {op.name};
      assert View() == RemoveOperationState(s, o);
    }

    /** `remove_variable(var)`. */
    method RemoveVariable(v: VarId)
      requires Valid() && LiveVar(View(), v)
      modifies this
      ensures Valid()
      ensures View() == RemoveVariableState(old(View()), v)
      ensures LiveOps(View()) == old(LiveOps(View())) && LiveVars(View()) == old(LiveVars(View())) - {v}
      ensures nextOp == old(nextOp) && nextVar == old(nextVar)
    {
      ghost var s := View();
      RemoveVariableKeepsWellFormed(s, v);
      RemoveVariableLiveSets(s, v);
      var x := vars[v];
      ops := DetachedOps(ops, v, x);
      variables := variables - {x.name};
      inputs := inputs - {x.name};
      outputs := outputs - {x.name};
      assert View() == RemoveVariableState(s, v);
    }

    /** `mark_variable_as_graph_output(var)`: a KeyError for a variable
        whose name the graph does not know. */
    method MarkVariableAsGraphOutput(v: VarId) returns (outcome: Outcome<GraphError>)
      requires v in vars
      modifies this
      ensures outcome.Fail? <==> old(vars[v].name !in variables)
      ensures outcome.Fail? ==> View() == old(View())
      ensures outcome.Pass? ==> View() == MarkOutputState(old(View()), v)
      ensures old(Valid() && LiveVar(View(), v)) ==> Valid()
      ensures nextOp == old(nextOp) && nextVar == old(nextVar)
    {
      if vars[v].name !in variables {
        return Fail(KeyError);
      }
      ghost var s := View();
      if Valid() && LiveVar(s, v) {
        MarkOutputKeepsWellFormed(s, v);
      }
      outputs := outputs[vars[v].name := v];
      return Pass;
    }
  }
}
