# mppq core, modelled in Dafny

This project models four parts of the mppq quantization toolkit and proves
properties of them.

- **Graph IR passes** (`mppq/ir/morph.py`).
  - `GraphReplacer`: `replace_op` and `replace_var`.
  - `GraphFormatter`: `truncate_on_var`, `delete_isolated`,
    `format_parameter`, `format_clip`, `format_pad`, `format_resize` and
    `remove_constant_input`, plus the private helpers
    `__delete_constant_input` and `__add_constant_input`.
- **Block builder** of the training algorithms
  (`mppq/quantization/algorithm/training.py`).
  - The lazily sorted `PriorityQueue`.
  - `TrainableBlock`.
  - `BlockBuilder`, which gives every operation a depth over a topological
    order and grows blocks from a start operation.
- **`process_attribute`** (`mppq/utils/attribute.py`). It rewrites the ONNX
  `auto_pad` attribute of Conv and ConvTranspose into explicit `pads`.
- **The rounding policies** (`mppq/utils/round.py`). These are the tensor
  version `PPQTensorRoundImpl.forward` and the scalar
  `ppq_numerical_round`, over exact rationals.

## How the graph is modelled

A graph is an arena.
- `ops: map<OpId, Operation>` and `vars: map<VarId, Variable>` hold every
  object allocated so far.
- `OpId` and `VarId` are integer handles that stand for Python object
  identity.
- The name dictionaries of `BaseGraph` (`operations`, `variables`, `inputs`
  and `outputs`) map names to handles.
- An object is *live* when its name maps to its handle.
- `Ir.WellFormed` states what a consistent graph looks like.
  - Names are consistent.
  - Every link of a live object points to a live object.
  - An operation lists a variable among its inputs exactly as often as the
    variable lists the operation among its consumers.
  - A variable's producer lists it exactly once among its outputs.
- `Ir.Graph` is the class that the passes mutate.
- Each pass is proved to keep the graph well-formed, and its result is
  stated against the old state.

The primitives of `BaseGraph` live in `mppq/ir/base/graph.py`, which is
not part of this model:
- `remove_operation`, `remove_variable`, `create_variable`,
  `append_variable`, `mark_variable_as_graph_output`;
- `get_downstream_operations` and `get_upstream_operations`.

Each is given a stated contract (for example `Ir.RemoveOperationState`),
written from how `morph.py` uses it. The model proves that each keeps a
well-formed graph well-formed.

Behaviour that is modelled as the code runs it:
- `delete_isolated` removes a blacklisted operation's outputs with
  `for var in op.outputs: graph.remove_variable(var)`. That walks a list
  that each removal shrinks, so only the outputs at even positions are
  removed. The others lose their producer when the operation goes, and the
  second phase removes them as orphans.
- `format_parameter` splits a shared parameter one consumer slot at a time.
- `replace_op` and `replace_var` accept any object as the replacement. They
  clear the replacement's own lists before copying the old object's, so a
  replacement already in the graph keeps stale links, and replacing an
  object by itself empties its lists. Both cases are modelled and shown to
  leave the graph inconsistent.

## Model

| member | source | states |
|---|---|---|
| Rounding.HalfEvenIsNearestEven | mppq/utils/round.py:62-63 | ROUND_HALF_EVEN gives an integer within 1/2 of v, and at a tie that integer is even |
| Rounding.HalfEvenUnique | mppq/utils/round.py:20-24 | any integer within 1/2 of v, and even at a tie, is the ROUND_HALF_EVEN result, which both versions share |
| Rounding.HalfUpIsFloorOfHalfAbove | mppq/utils/round.py:64-70 | scalar ROUND_HALF_UP is floor(v + 1/2) on both sides of zero (ties towards +infinity), as the tensor rule computes |
| Rounding.HalfDownIsCeilOfHalfBelow | mppq/utils/round.py:71-77 | scalar ROUND_HALF_DOWN is ceil(v - 1/2) on both sides of zero (ties towards -infinity), as the tensor rule computes |
| Rounding.HalfUpDownTies | mppq/utils/round.py:64-77 | at a tie scalar ROUND_HALF_UP gives the integer above v and ROUND_HALF_DOWN the integer below |
| Rounding.DelegatingPolicies | mppq/utils/round.py:78-81 | scalar ROUND_HALF_TOWARDS_ZERO equals ROUND_HALF_DOWN, and ROUND_HALF_FAR_FORM_ZERO equals ROUND_HALF_UP |
| Rounding.RoundUpIsCeiling | mppq/utils/round.py:87-88 | ROUND_UP gives the least integer at or above v, in both versions |
| Rounding.NearIntTiesAwayFromZero | mppq/utils/round.py:82-86 | ROUND_TO_NEAR_INT is within 1/2 of v, and a tie goes away from zero |
| Rounding.TensorTowardsZeroTies | mppq/utils/round.py:27-28 | tensor ROUND_HALF_TOWARDS_ZERO is within 1/2 of v, and a tie goes towards zero |
| Rounding.TensorFarFromZeroIsNearInt | mppq/utils/round.py:29-30 | tensor ROUND_HALF_FAR_FORM_ZERO equals scalar ROUND_TO_NEAR_INT for every v |
| Rounding.ErrorCases | mppq/utils/round.py:89-90 | the scalar version raises ValueError only for an unknown policy; the tensor version raises it also for ROUND_TO_NEAR_INT (round.py:35-36) |
| Rounding.ScalarAndTensorDisagreeAtNegativeTie | mppq/utils/round.py:78-81 | at -2.5 the two delegating scalar policies give -3 and -2, the tensor ones -2 and -3 |
| Rounding.DelegationDiffersExactlyAtNegativeTies | mppq/utils/round.py:78-81 | the delegation as written differs from the intended one exactly at negative ties |
| Rounding.IntendedAgreesWithTensor | mppq/utils/round.py:27-30 | with the intended delegation, the scalar and tensor versions agree on both tie-directed policies |
| Rounding.IntendedTiesFollowNames | mppq/utils/round.py:78-81 | with the intended delegation, a tie goes towards zero and away from zero, as the two policy names say |
| ConvAttribute.FloorDiv | mppq/utils/attribute.py:50 | Python's `//`: the floor of a / b, for either sign of b |
| ConvAttribute.Pads | mppq/utils/attribute.py:63-68 | 2n pads, begins first; begin plus end is the needed padding; SAME_UPPER puts the odd extra at the end and SAME_LOWER at the beginning |
| ConvAttribute.PadsUnique | mppq/utils/attribute.py:63-68 | those three properties determine the pads list |
| ConvAttribute.BuildPads | mppq/utils/attribute.py:64-68 | the appending loop and the concatenation assemble exactly `Pads` |
| ConvAttribute.ProcessAttribute | mppq/utils/attribute.py:5-71 | the dictionary is updated in place to the processed attributes, or left unchanged with the error raised (TypeError for a ConvTranspose `output_shape`, ValueError for an unknown `auto_pad`) |
| ConvAttribute.NotSetLeavesAttributes | mppq/utils/attribute.py:9-27 | a missing or NOTSET `auto_pad` leaves the dictionary unchanged |
| ConvAttribute.ExplicitPadsWin | mppq/utils/attribute.py:27-29 | an explicit `pads` wins over any `auto_pad`, even an unrecognised one: nothing changes, nothing is raised |
| ConvAttribute.ValidAndUnrecognised | mppq/utils/attribute.py:30-61 | VALID sets four zero pads and drops `auto_pad`; an unrecognised value raises ValueError |
| ConvAttribute.SamePadsSplit | mppq/utils/attribute.py:33-71 | SAME_UPPER/SAME_LOWER drop `auto_pad`, keep every other entry and write a pads list with the split of `Pads` |
| ConvAttribute.CeilDivision | mppq/utils/attribute.py:49-52 | `(a + s - 1) // s` is ceil(a / s) for a positive stride |
| ConvAttribute.SamePaddingGivesSameOutputSize | mppq/utils/attribute.py:34-59 | with the computed padding a Conv produces ceil(in / stride) outputs per axis and a ConvTranspose in * stride |
| ConvAttribute.DefaultsGiveKernelMinusOne | mppq/utils/attribute.py:10-12 | with default strides and dilations a 2-D Conv needs k - 1 padding per axis |
| Seqs.IndexOf | mppq/ir/morph.py:512 | `list.index`: the first position holding x |
| Seqs.RemoveAt | mppq/ir/morph.py:539 | `list.pop(i)`: one element fewer, the others in order |
| Seqs.ReplaceFirstOfEach | mppq/ir/morph.py:52-54 | replacing the first remaining x once per visit of each list replaces every x when each list holds x as often as it is visited |
| Ir.DownstreamUpstreamDual | mppq/quantization/algorithm/training.py:318-331 | in a well-formed graph d is downstream of o exactly when o is upstream of d |
| Ir.NeighboursAreLive | mppq/quantization/algorithm/training.py:340-348 | the downstream and upstream operations of a live operation are live |
| Ir.RemoveOperationKeepsWellFormed | mppq/ir/morph.py:449 | `remove_operation` keeps a well-formed graph well-formed |
| Ir.RemoveOperationLiveSets | mppq/ir/morph.py:449 | `remove_operation` takes exactly that operation out of the live operations and keeps the live variables |
| Ir.RemoveVariableKeepsWellFormed | mppq/ir/morph.py:470 | `remove_variable` keeps a well-formed graph well-formed |
| Ir.RemoveVariableLiveness | mppq/ir/morph.py:470 | `remove_variable` takes exactly that variable out of the live variables |
| Ir.CreateVariableKeepsWellFormed | mppq/ir/morph.py:286-290 | `create_variable` with a fresh handle and name and live consumers keeps a well-formed graph well-formed |
| Ir.MarkOutputKeepsWellFormed | mppq/ir/morph.py:452 | `mark_variable_as_graph_output` keeps a well-formed graph well-formed |
| Ir.Graph.RemoveOperation | mppq/ir/morph.py:449 | the graph becomes `RemoveOperationState` of the old one, with one live operation fewer |
| Ir.Graph.RemoveVariable | mppq/ir/morph.py:470 | the graph becomes `RemoveVariableState` of the old one, with one live variable fewer |
| Ir.Graph.CreateVariable | mppq/ir/morph.py:301-303 | a fresh variable under a fresh name, appended to each consumer's inputs; one more live variable |
| Ir.Graph.AppendVariable | mppq/ir/morph.py:331-332 | a KeyError, with nothing changed, when the name is taken; otherwise only the name is registered |
| Ir.Graph.MarkVariableAsGraphOutput | mppq/ir/morph.py:452 | a KeyError for an unknown name; otherwise the variable is a graph output |
| Morph.GraphReplacer.ReplaceOp | mppq/ir/morph.py:44-64 | a KeyError, with nothing changed, for an unknown name; otherwise the new state is `ReplaceOpState` for any replacement; well-formed for a fresh, same-named replacement, and not well-formed for a replacement already in the graph with inputs or outputs |
| Morph.ReplaceOpCommitted | mppq/ir/morph.py:50-64 | the arena and name dictionaries `replace_op` builds are `ReplaceOpState` over the same handles, well-formed or broken as for ReplaceOp |
| Morph.ReplaceLiveOpBreaks | mppq/ir/morph.py:50-59 | a replacement already in the graph, the operation itself included, loses its own lists while its variables still name it, so the graph is no longer linked |
| Morph.ReplaceOpKeepsWellFormed | mppq/ir/morph.py:44-64 | with a fresh, same-named replacement, `replace_op` keeps the graph well-formed |
| Morph.ReplaceOpRelinks | mppq/ir/morph.py:50-62 | after `replace_op`, every operation's producers and consumers are as before, with the old operation renamed to the new one, and the replacement has the operation's parameters |
| Morph.ReplaceOpArguments | mppq/ir/morph.py:52-54 | in a well-formed graph each input variable lists the operation once per listing, so every `index` lookup succeeds |
| Morph.RedirectConsumers | mppq/ir/morph.py:52-54 | each input variable's consumer list has the old operation replaced by the new one |
| Morph.RedirectProducers | mppq/ir/morph.py:58-59 | each output variable is produced by the new operation |
| Morph.SwapOperation | mppq/ir/morph.py:50-59 | the replacement takes over the operation's input and output lists, every input's consumer slot holding the operation, and the producer of every output; replacing the operation by itself leaves it with empty lists |
| Morph.GraphReplacer.ReplaceVar | mppq/ir/morph.py:66-87 | a KeyError, with nothing changed, for an unknown name; otherwise the new state is `ReplaceVarState` for any replacement; well-formed for a fresh, same-named replacement, and not well-formed for a replacement already in the graph with consumers, or with a producer when it is not the variable itself |
| Morph.ReplaceVarCommitted | mppq/ir/morph.py:72-87 | the arena and name dictionaries `replace_var` builds are `ReplaceVarState` over the same handles, well-formed or broken as for ReplaceVar |
| Morph.ReplaceLiveVarBreaks | mppq/ir/morph.py:72-81 | a replacement already in the graph loses its consumers and producer while they still list it, and the variable itself as replacement loses its consumers, so the graph is no longer linked |
| Morph.ReplaceVarKeepsWellFormed | mppq/ir/morph.py:66-87 | with a fresh, same-named replacement, `replace_var` keeps the graph well-formed |
| Morph.ReplaceVarRelinks | mppq/ir/morph.py:72-81 | every input and output slot that held the variable holds the replacement, and no operation's producers or consumers change |
| Morph.ReplaceVarArguments | mppq/ir/morph.py:72-81 | in a well-formed graph the index lookups of `replace_var` all succeed |
| Morph.RedirectInputs | mppq/ir/morph.py:74-76 | each consumer has the old variable replaced by the new one in its inputs |
| Morph.SwapVariable | mppq/ir/morph.py:72-81 | the replacement takes over the consumers and the producer, and each of their slots holding the old variable; replacing the variable by itself leaves it with no consumers |
| Rewrites.EditOperationKeepsWellFormed | mppq/ir/morph.py:291 | an in-place edit of an operation's attributes keeps the graph well-formed and the live sets |
| Rewrites.MoveInputKeepsWellFormed | mppq/ir/morph.py:512-513 | moving an operation's first use of a variable to another variable keeps the graph well-formed and the live sets |
| Rewrites.DeleteInputKeepsWellFormed | mppq/ir/morph.py:538-539 | dropping an input slot and one consumer listing keeps the graph well-formed and the live sets |
| Formatter.DeadEndOps | mppq/ir/morph.py:460-466 | the blacklist of phase 1 is exactly the live operations with no consumer and no output that is a graph output |
| Formatter.OrphanVars | mppq/ir/morph.py:476-495 | the blacklist of phase 2 is exactly the live variables the four tests pick |
| Formatter.OrphanInWellFormed | mppq/ir/morph.py:480-495 | in a well-formed graph a variable is blacklisted exactly when it has no producer and no consumer |
| Formatter.DeadEndsEmpty | mppq/ir/morph.py:472 | the phase 1 loop stops exactly when no live operation is a dead end |
| Formatter.OrphansEmpty | mppq/ir/morph.py:499 | the phase 2 loop stops exactly when no live variable is an orphan |
| Formatter.AnchorProducerKept | mppq/ir/morph.py:463-466 | the producer of a graph output is never blacklisted |
| Formatter.EvenOutputsProduced | mppq/ir/morph.py:469-470 | the outputs the removal loop reaches are produced by the operation |
| Formatter.StripDone | mppq/ir/morph.py:469-470 | after the loop over `op.outputs` the operation keeps exactly its outputs at odd positions |
| Formatter.RemoveVariableAnchors | mppq/ir/morph.py:470 | `remove_variable` takes exactly that variable out of the produced graph outputs |
| Formatter.GraphFormatter.RemoveOutputVariables | mppq/ir/morph.py:469-470 | the outputs at even positions are removed: they leave the name dictionaries and the input lists of their consumers, the operation keeps its odd-position outputs, and nothing else changes |
| Formatter.GraphFormatter.PruneOperationsRound | mppq/ir/morph.py:460-472 | a round reports "stop" exactly when the graph had no dead end, and then changes nothing; otherwise the live operations are exactly the old ones less the dead ends, the live variables exactly the old ones less the dead ends' even-position outputs, the other operations keep their outputs and every path from a kept operation to a graph output survives |
| Formatter.GraphFormatter.PruneOperations | mppq/ir/morph.py:458-472 | phase 1 ends with no dead end, keeps every path of live operations that feeds a graph output, and changes nothing on a graph without dead ends |
| Formatter.GraphFormatter.PruneVariablesRound | mppq/ir/morph.py:475-499 | a round reports "stop" exactly when there was no orphan; otherwise the live variables are exactly the old ones less the orphans, which leave the name dictionaries, and the operations are untouched |
| Formatter.GraphFormatter.PruneVariables | mppq/ir/morph.py:474-499 | phase 2 ends with no orphan; the name dictionaries lose exactly the variables that left the graph, the paths feeding graph outputs survive, and a graph without orphans is unchanged |
| Formatter.GraphFormatter.DeleteIsolated | mppq/ir/morph.py:456-499 | afterwards there is no dead end and no orphan; every path of live operations that feeds a graph output survives; a second run changes nothing |
| Formatter.CollectDownstream | mppq/ir/morph.py:439-446 | the worklist marks exactly the operations reachable downward from the variable's consumers |
| Formatter.WorklistDone | mppq/ir/morph.py:441-446 | an exhausted worklist has marked a set closed under downstream, so it holds every reachable operation |
| Formatter.GraphFormatter.RemoveOperationsOf | mppq/ir/morph.py:448-449 | every marked operation is removed and nothing else is |
| Formatter.MarkOutputAnchors | mppq/ir/morph.py:451-452 | marking keeps the live sets and the graph outputs, and adds the variable when it has a producer |
| Formatter.TruncateDone | mppq/ir/morph.py:448-454 | no operation reachable from the variable survives; graph outputs produced outside the cut survive; the variable is an output when asked and still produced |
| Formatter.GraphFormatter.TruncateOnVar | mppq/ir/morph.py:420-454 | a KeyError, with nothing changed, exactly for an unknown name; otherwise the downstream cut, the optional marking and `delete_isolated`, and every path feeding a graph output that avoids the cut survives |
| Formatter.GraphFormatter.FormatPad | mppq/ir/morph.py:274-291 | every Pad carrying `pads` gets them as a new parameter input and loses its attributes; the new graph variables are exactly those inputs, each consumed by its Pad alone; other operations and the dictionaries of operations, inputs and outputs are unchanged |
| FormatSpecs.PadFormatted | mppq/ir/morph.py:284-291 | afterwards no operation is a Pad carrying `pads` |
| Formatter.GraphFormatter.FormatResize | mppq/ir/morph.py:293-304 | every two-input Resize gets an empty placeholder as its second input, its old second input in the third slot; each new graph variable is such a placeholder, consumed by its Resize alone, and nothing else changes |
| FormatSpecs.ResizeFormatted | mppq/ir/morph.py:297-304 | afterwards no Resize has two inputs |
| FormatSpecs.ResizeStep | mppq/ir/morph.py:301-304 | appending the placeholder and swapping slots 1 and 2 keeps the graph well-formed |
| Formatter.GraphFormatter.FormatClip | mppq/ir/morph.py:306-338 | a KeyError exactly when a bound name `<name>_min` or `<name>_max` is taken; otherwise every Clip with a bound attribute gets both bounds (defaults -(2^31) and 2^31) as parameter inputs and loses them as attributes; each new graph variable is such a bound, consumed by its Clip alone, and the dictionaries of operations, inputs and outputs are unchanged |
| FormatSpecs.ClipFormatted | mppq/ir/morph.py:321-338 | afterwards no Clip carries `min` or `max` as an attribute |
| Formatter.GraphFormatter.CollectConstants | mppq/ir/morph.py:404-410 | a ValueError exactly when some Constant does not have one output; otherwise the set of Constants |
| Formatter.GraphFormatter.FoldConstants | mppq/ir/morph.py:412-418 | a KeyError exactly when some Constant has no `value`; otherwise each Constant leaves the operation dictionary with its lists cleared, its output holds its value as a parameter with no producer, every variable drops the Constants from its consumers and nothing else changes |
| Formatter.GraphFormatter.RemoveConstantInput | mppq/ir/morph.py:397-418 | the ValueError with nothing changed, or the KeyError, or every Constant folded into a parameter, with the exact new records of the operations, the variables and the dictionaries |
| ConstantSpecs.ConstantsFolded | mppq/ir/morph.py:412-418 | afterwards no Constant is left, and each one's output is live and holds its value as a parameter |
| Formatter.GraphFormatter.AddConstantInput | mppq/ir/morph.py:545-556 | a KeyError for an unknown operation or a taken name `<op>_<n+1>`; otherwise a new parameter input appended to the registered operation |
| ConstantSpecs.ConstantAddedInput | mppq/ir/morph.py:551-556 | the new input is a live parameter holding the value, without producer, consumed only by the operation, whose inputs grow by it alone |
| ConstantSpecs.ConstantAddedWellFormed | mppq/ir/morph.py:551-556 | adding the constant input keeps the graph well-formed |
| Rewrites.DecimalStringValue | mppq/ir/morph.py:552 | the digits of `f"{n}"` spell n back, without a leading zero |
| Rewrites.DecimalStringInjective | mppq/ir/morph.py:552 | distinct slot counts give distinct name suffixes |
| ConstantSpecs.PyIndex | mppq/ir/morph.py:530 | a Python index into a list of length n, negative indices counting from the end |
| Formatter.GraphFormatter.CheckDeleteConstant | mppq/ir/morph.py:518-537 | the checks of `__delete_constant_input`: KeyError, ValueError for an index past the end or a non-Constant input, IndexError for an index below -n; nothing changes |
| ConstantSpecs.DeleteCheckPassed | mppq/ir/morph.py:530-537 | once the checks pass, the input is a live variable produced by a live Constant |
| ConstantSpecs.DeleteInputEffect | mppq/ir/morph.py:538-539 | the operation loses exactly that slot and the variable exactly one consumer listing; nothing else changes |
| Formatter.GraphFormatter.DeleteConstantInput | mppq/ir/morph.py:517-543 | the check's error with nothing changed, or the slot dropped and a Constant left without consumers removed with its output |
| ParamSpecs.ParamsUnshared | mppq/ir/morph.py:507-515 | after `format_parameter` no parameter has more than one consumer |
| Formatter.GraphFormatter.SplitParameter | mppq/ir/morph.py:507-515 | a shared parameter is replaced by one fresh copy per consumer slot, and removed with its entries in the name dictionaries and the graph inputs and outputs; every other variable keeps its record and its name |
| Formatter.GraphFormatter.FormatParameter | mppq/ir/morph.py:501-515 | an AttributeError exactly when a shared parameter has no value; otherwise every shared parameter is split and none is left shared, and the graph variables are exactly the old ones less the split parameters and the copies in the slots that read them |
| ParamSpecs.ParamLiveVars | mppq/ir/morph.py:507-515 | the graph variables after splitting are exactly the old ones less the split parameters, and the copies the consumer slots read |
| Queue.PriorityQueue.constructor | mppq/quantization/algorithm/training.py:190-196 | an empty queue, sorted, nothing pushed or popped |
| Queue.PriorityQueue.Push | mppq/quantization/algorithm/training.py:208-213 | an operation pushed before is ignored; otherwise its entry is appended and the list marked unsorted |
| Queue.PriorityQueue.Empty | mppq/quantization/algorithm/training.py:215-216 | true exactly when no entry is left to pop |
| Queue.PriorityQueue.Pop | mppq/quantization/algorithm/training.py:198-206 | sorts when needed; an IndexError exactly when all was popped; otherwise the next entry, which under orderly pushes is no shallower than the last and never repeats |
| Queue.SortByDepth | mppq/quantization/algorithm/training.py:200 | the sort is a permutation |
| Queue.SortIsSorted | mppq/quantization/algorithm/training.py:200 | the sort orders by depth |
| Queue.SortIsStable | mppq/quantization/algorithm/training.py:200 | the sort keeps the order of entries of equal depth |
| Queue.SortedUnchanged | mppq/quantization/algorithm/training.py:199-201 | sorting a sorted list changes nothing |
| Queue.SortKeepsPrefix | mppq/quantization/algorithm/training.py:200-205 | re-sorting keeps in place a sorted popped prefix that is no deeper than the rest |
| Queue.SortDistinct | mppq/quantization/algorithm/training.py:209-212 | the sort keeps the operations distinct |
| Queue.OrderlyPop | mppq/quantization/algorithm/training.py:202-206 | popping from a sorted list keeps the popped entries a sorted prefix |
| Training.MaxOf | mppq/quantization/algorithm/training.py:379 | `max`: an element of the list no smaller than any other |
| Training.DepthsOf | mppq/quantization/algorithm/training.py:373-378 | the depths of the upstream operations, in order |
| Training.BlockBuilder.UpstreamDepth | mppq/quantization/algorithm/training.py:368-379 | the depth rule's value, or the AssertionError exactly when an upstream operation has no depth yet |
| Training.BlockBuilder.InitializeDepth | mppq/quantization/algorithm/training.py:364-379 | the AssertionError exactly when the order is not topological; otherwise every operation of the order gets a depth by the rule |
| Training.DepthAboveUpstream | mppq/quantization/algorithm/training.py:374-379 | an operation is strictly deeper than each of its upstream operations |
| Training.DepthOfSource | mppq/quantization/algorithm/training.py:368-370 | an operation without upstream operations has depth 0 |
| Training.DepthStep | mppq/quantization/algorithm/training.py:366-379 | giving the next operation its rule depth keeps the depth map consistent |
| Training.NewBlockBuilder | mppq/quantization/algorithm/training.py:248-253 | the AssertionError exactly when the order is not topological; otherwise a builder with a depth for each operation of the order |
| Training.BlockBuilder.constructor | mppq/quantization/algorithm/training.py:248-252 | the builder's graph, order and search, with no depths yet |
| Training.CoherentEpIsSoleSuccessor | mppq/quantization/algorithm/training.py:337-351 | the coherent end point is exactly the sole consumer whose sole producer is op and which has one non-parameter input |
| Training.CoherentEpDepth | mppq/quantization/algorithm/training.py:337-351 | a coherent end point is one level deeper |
| Training.BlockBuilder.PushDownstream | mppq/quantization/algorithm/training.py:330-331 | the downstream operations are pushed, keeping the pushes orderly; a KeyError exactly when one has no depth |
| Training.BlockBuilder.StartSearch | mppq/quantization/algorithm/training.py:314-319 | the search starts with op popped and its downstream operations pushed; a KeyError exactly when one of them has no depth |
| Training.BlockBuilder.VisitNext | mppq/quantization/algorithm/training.py:321-331 | a round either returns a blocking end point, or pushes more, or consumes an entry; a KeyError exactly when the operation popped is not the end point and one of its downstream operations has no depth |
| Training.Drained | mppq/quantization/algorithm/training.py:321-329 | when the queue is drained the last operation popped is the deepest reached |
| Training.RestShrinks | mppq/quantization/algorithm/training.py:321-331 | the search ends: each round pushes a new live operation or consumes an entry |
| Training.BlockBuilder.FindMultiInputEp | mppq/quantization/algorithm/training.py:312-335 | a KeyError only for a missing depth, of op or below an operation reached; a found end point is deeper than op, multi-input, has all upstream operations reached, and is the deepest reached; no end point means the queue was drained, so every downstream operation of an operation reached was reached too and has a depth |
| Training.BlockBuilder.StepTaken | mppq/quantization/algorithm/training.py:355-358 | the end point found by either search is a step of the chain |
| Training.BlockBuilder.Build | mppq/quantization/algorithm/training.py:268-362 | the block from op to the last end point e of a chain of steps, no deeper than depth(op) + limit and deeper than op when it moved; it stops at e only because the search from e found nothing or an end point deeper than the limit allows; a KeyError only for a missing depth of op, of the end point found or below an operation the search reached |
| Training.InOrderSorted | mppq/quantization/algorithm/training.py:264-266 | sorting by the index in the order keeps the matched operations found in it, each once, by increasing index |
| Training.BlockBuilder.CreateBlockMembers | mppq/quantization/algorithm/training.py:255-266 | `[sp]` when sp is ep; otherwise exactly the matched operations, each once, in the order's sequence; a ValueError exactly when a match is not in the order |

## Left out

- Graph primitives: `mppq/ir/base/graph.py` is not part of this model. Its
  primitives have the stated contracts listed above, so a difference
  between them and the real graph code would not show here.
- remove_identity (morph.py:558-566): it only calls
  `remove_operation(op, keep_coherence=True)`. The relinking rules of
  `keep_coherence` live in `graph.py`, which is not part of this model.
- `SearchableGraph.opset_matching` (search.py) is a parameter `search` of
  the builder. Its result is taken as given.
- Preconditions: the passes require a well-formed graph, and the builder
  requires an order of live operations. The source never checks either.
- Training.BlockBuilder.Build: this contract is weaker than the source's
  promise in one way. For the multi-input branch the step only states what
  the least-depth-first search guarantees. The block definition of the
  docstring (training.py:272-284) is not proved.
- Training.BlockBuilder.Build: the final `return` after the loop
  (training.py:362) cannot be reached, because the loop only ends by
  returning.
- Entries: `pop` returns a tuple `(depth, op)`, modelled as `Queue.Entry`.
- The tensor code of the training algorithms (losses, optimisers, the rest
  of training.py) is floating point and is not modelled.
- ppq_round_to_power_of_2 (round.py:102-118) works on float logarithms,
  and the backward pass of `PPQTensorRoundImpl` exists only for autograd;
  neither is modelled.
- Rounding: the functions work on exact rationals, not binary floats. The
  float error of `v ± 0.5` is not modelled, in the tensor rules and in the
  scalar ROUND_TO_NEAR_INT (round.py:83-86) alike: v = 0.49999999999999994
  gives 1 in Python and 0 here. The Decimal-based scalar policies
  (round.py:62-77) convert the float exactly, so they are exact on a float
  whose rounded value has fewer than 28 digits.
- Rounding.ErrorCases: does not model the range of `quantize`. It runs in
  decimal's default context of 28 significant digits, so for a value whose
  rounded magnitude is at least 10^28 it raises decimal's
  InvalidOperation. The model rounds every rational, and NumericalRound
  returns a result there too.
- Rounding: NaN and the infinities are not modelled. For them Python
  raises: `floor`, `ceil` and `int` raise ValueError or OverflowError, and
  `quantize` of an infinity raises decimal's InvalidOperation. Every
  rational here is rounded.
- Rounding: the `assert isinstance(value, float)` of `ppq_numerical_round`
  (round.py:59-61) is not modelled. An int argument raises AssertionError
  in Python, while the model rounds every rational.
- The `isinstance` TypeError of truncate_on_var (morph.py:432-434) is a
  Dafny type.
- Value conversions are not modelled: `convert_any_to_tensor`,
  `torch.tensor` and `.clone()` keep their argument's value.
- Generated names: the name `create_variable` generates is only known to
  be fresh (`Ir.FreshName`).
- format_slice, format_gather, format_cast, format_int64_constant and the
  operation fusions of morph.py are outside the modelled core.
- Formatter.GraphFormatter.FormatClip: on a KeyError the contract does not
  state the graph the source leaves behind. That graph is rewritten up to
  the failing Clip.
- Formatter.GraphFormatter.FoldConstants: on a KeyError the contract only
  states that the graph is still well-formed, not which Constants were
  already folded.
- Formatter.GraphFormatter.FormatParameter: on an AttributeError the
  contract only states that the graph is still well-formed, not which
  parameters were already split.
- Iteration order: dictionary iteration order in the passes is modelled as
  an arbitrary order. Every result stated here is independent of it.
- Formatter.GraphFormatter.TruncateOnVar: requires that a variable whose
  name is registered is the registered object. The source assumes the
  same.
- Formatter.GraphFormatter.SplitParameter: requires that the shared
  parameter has a value. The caller, FormatParameter, raises the
  AttributeError before calling it.
- ConvAttribute.ProcessAttribute: a ConvTranspose with `output_shape` is
  modelled as the TypeError that `output_shape % 2` raises on a list
  (attribute.py:17). The branch computing a pad from it (attribute.py:18-25)
  is not modelled. A text `output_shape` holding a `%` directive, on an
  empty input shape, is the one case where Python would not raise.
- ConvAttribute.ProcessAttribute: the TypeError, IndexError and
  ZeroDivisionError that malformed `strides`, `dilations`, `kernel_shape` or
  `output_padding` lists raise are one error, `AttrError.OperandError`. The
  model does not say which of the three Python raises.

## Findings

| source | as written | input that shows it | evidently intended | confidence | as-written member | corrected member |
|---|---|---|---|---|---|---|
| mppq/utils/round.py:78-79 | scalar ROUND_HALF_TOWARDS_ZERO delegates to ROUND_HALF_DOWN. For v <= 0 that is decimal's ROUND_HALF_UP, so a negative tie goes away from zero | v = -2.5 gives -3 | -2, a tie towards zero, as the tensor version (round.py:27-28) gives | medium, not executed | Rounding.ScalarAndTensorDisagreeAtNegativeTie | Rounding.IntendedTiesFollowNames |
| mppq/utils/round.py:80-81 | scalar ROUND_HALF_FAR_FORM_ZERO delegates to ROUND_HALF_UP. For v <= 0 that is decimal's ROUND_HALF_DOWN, so a negative tie goes towards zero | v = -2.5 gives -2 | -3, a tie away from zero, as the tensor version (round.py:29-30) gives | medium, not executed | Rounding.DelegationDiffersExactlyAtNegativeTies | Rounding.IntendedAgreesWithTensor |
