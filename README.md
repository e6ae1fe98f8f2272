# MetaNN elementary layers and elementwise evaluation units, in Dafny

This project models the reverse-mode bookkeeping of two elementary layers of
MetaNN, a composable neural-network library, and two of the evaluation units
beneath them:

- **SigmoidLayer** and **InterpolateLayer** are long-lived objects. Every
  `FeedForward` (with feedback enabled) pushes forward-time values and shapes
  onto LIFO stacks. Every `FeedBackward` checks that something is buffered,
  pops the most recent entries, validates shapes through shape checkers and
  builds the gradient expressions. `NeutralInvariant` checks that every stack
  is empty.
- The **shape checker** pairs each backward-time shape with the shape pushed by
  the matching forward call (`Push`, `CheckAndPop`, `AssertEmpty`).
- The **SigmoidGrad** and **Negative** evaluation units allocate an output
  handle, write every element from the same index of the inputs, and mark the
  handle evaluated. `SigmoidGrad` also has a builder that rejects mismatched
  shapes and a registration step that records the unit with the evaluation
  plan.

Modelling choices:

- Expressions are lazy: `Expressions.Expr` is a tree of pending operator nodes
  over materialised tensors, and `ShapeOf` reports a node's shape without
  evaluating it, as the library's operators do.
- Element values are integers, so `out[i] == g[i] * y[i] * (1 - y[i])` and
  `out[i] == -in[i]` are exact. The sigmoid itself is an uninterpreted,
  shape-preserving node.
- Each layer is a class whose fields are the source's stacks (`seq` fields for
  the `std::stack` buffers, `ShapeChecker` objects for the checkers). Each
  layer also has a pure specification: a state datatype with `Forward` and
  `Backward` functions. Each method's contract ties the new state and the
  result to those functions. The lemmas about those functions carry the
  properties: lock-step stacks, LIFO pairing, errors, round trips, k forward
  calls undone by k backward calls (for both layers, over sequences of
  inputs and of operand triples).
- `ExprValues.Value` gives the element values of the nodes whose evaluation
  units are modelled (leaves, the sigmoid with its element function as a
  parameter, `SigmoidGrad` and `Negative`). It links what the layers and
  unary minus build with what the evaluation units compute.
- Every exception of the source becomes a `Failure`/`Fail` value. The state
  after a violation is the state the source leaves when it throws at that
  point.
- The compile-time `IsFeedbackOutput` policy is a constructor flag.
- Evaluation handles are objects with a state (Unallocated, Allocated,
  Evaluated), a shape and an `array<int>` buffer. The plan's registry is a map
  keyed by the output handle's object identity, which stands in for the data
  pointer the source uses.

## Model

| member | source | states |
|---|---|---|
| Shapes.ShapePromote | MetaNN/layers/elementary/interpolate_layer.h:36 | when a promoted shape exists, each of the three operand shapes can be duplicated to it |
| Shapes.ShapePromoteIsLeast | MetaNN/layers/elementary/interpolate_layer.h:36-39 | under the stand-in promotion rule, promotion succeeds whenever the operands have any common target shape, and the promoted shape duplicates to every such target |
| ShapeCheckers.CheckPop | MetaNN/layers/elementary/interpolate_layer.h:79 | check-and-pop succeeds iff the stack is non-empty and its top equals the given shape; it then removes exactly that top; it fails with "empty" or "mismatch" otherwise |
| ShapeCheckers.CheckPopUndoesPush | MetaNN/layers/elementary/interpolate_layer.h:56-98 | a shape pushed and then checked against the same shape is accepted and restores the stack; any other shape is a mismatch |
| ShapeCheckers.ShapeChecker.Push | MetaNN/layers/elementary/interpolate_layer.h:56 | appends the shape on top of the checker's stack |
| ShapeCheckers.ShapeChecker.CheckAndPop | MetaNN/layers/elementary/interpolate_layer.h:79 | passes iff the stack is non-empty and its top is the given shape, then pops it; on failure the stack is unchanged |
| ShapeCheckers.ShapeChecker.AssertEmpty | MetaNN/layers/elementary/interpolate_layer.h:119 | passes iff nothing is left on the checker's stack |
| SigmoidLayers.FeedForwardCal | MetaNN/layers/elementary/sigmoid_layer.h:32-35 | the forward transform is a pending sigmoid node over the input, with the input's shape |
| SigmoidLayers.DisabledKeepsState | MetaNN/layers/elementary/sigmoid_layer.h:42-80 | with feedback disabled, FeedForward leaves the stacks as they are and FeedBackward returns the empty bundle and leaves them too |
| SigmoidLayers.ForwardConsistent | MetaNN/layers/elementary/sigmoid_layer.h:48-53 | FeedForward keeps the three stacks in lock-step, each buffered value a sigmoid output with its input's and its own shape beside it |
| SigmoidLayers.BackwardFromConsistent | MetaNN/layers/elementary/sigmoid_layer.h:60-75 | from consistent stacks, FeedBackward fails iff nothing is buffered (no matching forward) or the gradient's shape is not the buffered output shape, and then changes nothing; otherwise it returns SigmoidGrad(g, most recent buffered output), whose shape is the paired input shape, pops all three stacks and keeps them consistent |
| SigmoidLayers.BackwardAfterForward | MetaNN/layers/elementary/sigmoid_layer.h:42-75 | a backward call right after a forward call, with a gradient of that input's shape, returns SigmoidGrad over the forward OUTPUT and restores the stacks exactly |
| SigmoidLayers.BackwardAfterForwardPrefix | MetaNN/layers/elementary/sigmoid_layer.h:48-73 | after forward calls with the first m inputs, a backward call with a gradient of the m-th input's shape pairs with the m-th input and leaves the stacks of the first m-1 calls |
| SigmoidLayers.ForwardsThenBackwards | MetaNN/layers/elementary/sigmoid_layer.h:48-73 | k forward calls followed by k backward calls whose gradients have the forward shapes in reverse order all succeed, the j-th backward call pairs with forward call k-1-j, and the stacks are restored |
| SigmoidLayers.ForwardsThenBackwardsNeutral | LayerTest/elementary/test_tanh_layer.cpp:91-130 | from a fresh layer, such a sequence with per-call shapes leaves the layer neutral (the call sequence of the layer test, on the sigmoid layer) |
| SigmoidLayers.SigmoidLayer.constructor | MetaNN/layers/elementary/sigmoid_layer.h:38-40 | a new layer has empty stacks and the given feedback flag |
| SigmoidLayers.SigmoidLayer.FeedForward | MetaNN/layers/elementary/sigmoid_layer.h:42-55 | returns the sigmoid of the input; with feedback it pushes exactly one entry on each stack, buffering the OUTPUT (not the input), the input's shape and the output's shape; without feedback nothing changes; consistent stacks stay consistent |
| SigmoidLayers.BackwardConsistent | MetaNN/layers/elementary/sigmoid_layer.h:57-80 | every FeedBackward, failing or not, keeps the three stacks consistent |
| SigmoidLayers.SigmoidLayer.FeedBackward | MetaNN/layers/elementary/sigmoid_layer.h:57-80 | result and new stacks are those of the specification `Backward`, step by step in the source's order; consistent stacks stay consistent |
| SigmoidLayers.SigmoidLayer.NeutralInvariant | MetaNN/layers/elementary/sigmoid_layer.h:82-93 | passes iff feedback is disabled or the buffer and both shape checkers are empty; reports buffered data before checker contents |
| InterpolateLayers.FeedForwardCal | MetaNN/layers/elementary/interpolate_layer.h:32-40 | fails iff the three shapes have no promotion; otherwise returns the interpolation of the three operands, each duplicated to the promoted shape, which is the result's shape |
| InterpolateLayers.FeedForwardCalDuplicates | MetaNN/layers/elementary/interpolate_layer.h:36-39 | every operand can be duplicated to the shape of the forward result |
| InterpolateLayers.FeedForwardCalLeast | MetaNN/layers/elementary/interpolate_layer.h:36 | under the stand-in promotion rule, the forward transform succeeds whenever the operands share a target shape, and its result's shape duplicates to every such target |
| InterpolateLayers.DisabledKeepsState | MetaNN/layers/elementary/interpolate_layer.h:46-108 | with feedback disabled, FeedForward leaves the stacks as they are and FeedBackward returns the empty bundle and touches no state |
| InterpolateLayers.ForwardConsistent | MetaNN/layers/elementary/interpolate_layer.h:54-64 | FeedForward keeps the three operand stacks and four checkers in lock-step, with each operand's shape beside it |
| InterpolateLayers.BackwardRejects | MetaNN/layers/elementary/interpolate_layer.h:74-79 | from consistent stacks, a backward call with an empty operand stack fails as having no matching forward call, and one whose gradient shape is not the buffered output shape fails as a mismatch; neither changes the stacks |
| InterpolateLayers.BackwardAccepts | MetaNN/layers/elementary/interpolate_layer.h:79-103 | otherwise it uses the top triple of the three stacks together, returns collapse(g * dup(lambda)), collapse(g * dup(1 - lambda)) and collapse(g * (dup(v1) - dup(v2))), each duplicated over g's shape and collapsed to its operand's shape (the shape pushed for it), and pops all seven stacks |
| InterpolateLayers.BackwardConsistent | MetaNN/layers/elementary/interpolate_layer.h:69-109 | every FeedBackward, failing or not, keeps the seven stacks consistent |
| InterpolateLayers.BackwardAfterPush | MetaNN/layers/elementary/interpolate_layer.h:54-103 | from any stacks, a backward call right after the buffering of one forward call, with a gradient of the pushed result shape, passes all four checkers, returns the three gradients of the pushed operands and pops exactly what was pushed |
| InterpolateLayers.BackwardAfterForward | MetaNN/layers/elementary/interpolate_layer.h:46-103 | from any stacks, a backward call right after a successful forward call, with a gradient of the result's shape, returns the three gradients of that call's operands, each of its operand's shape, and restores the stacks exactly |
| InterpolateLayers.InterpolateLayer.constructor | MetaNN/layers/elementary/interpolate_layer.h:42-44 | a new layer has all seven stacks empty, four distinct checkers and the given feedback flag |
| InterpolateLayers.InterpolateLayer.FeedForward | MetaNN/layers/elementary/interpolate_layer.h:46-67 | returns the forward transform; with feedback and success it pushes exactly one entry on each operand stack and each of the four checkers; otherwise nothing changes; consistent stacks stay consistent |
| InterpolateLayers.InterpolateLayer.FeedBackward | MetaNN/layers/elementary/interpolate_layer.h:69-109 | result and new stacks are those of the specification `Backward`, step by step in the source's order; consistent stacks stay consistent |
| InterpolateLayers.InterpolateLayer.CheckGradients | MetaNN/layers/elementary/interpolate_layer.h:96-103 | checks the three gradient shapes against the three operand checkers in order, stopping at the first mismatch with the earlier checkers already popped, and otherwise returns the bundle |
| InterpolateSequences.GradsFor | MetaNN/layers/elementary/interpolate_layer.h:88-94 | the bundle for one gradient has each of its three gradients in the shape of its own operand |
| InterpolateSequences.ForwardsThenBackwards | MetaNN/layers/elementary/interpolate_layer.h:46-109 | from any stacks, k successful forward calls followed by k backward calls whose gradients have the result shapes in reverse order all succeed, the j-th backward call returns the gradients of the operands of forward call k-1-j, and the stacks are restored |
| InterpolateSequences.ForwardsThenBackwardsNeutral | MetaNN/layers/elementary/interpolate_layer.h:111-124 | from a fresh layer, such a sequence succeeds and leaves the layer neutral |
| InterpolateLayers.InterpolateLayer.NeutralInvariant | MetaNN/layers/elementary/interpolate_layer.h:111-124 | passes iff feedback is disabled or every operand stack and all four checkers are empty |
| Evaluation.Handle.Allocate | MetaNN/operators/sigmoid_grad.h:30 | an unallocated handle gets fresh storage of exactly Count(shape) elements and becomes Allocated |
| Evaluation.Handle.SetEval | MetaNN/operators/sigmoid_grad.h:52 | an allocated handle becomes Evaluated with its shape and storage unchanged |
| Evaluation.EvalPlan.Register | MetaNN/operators/sigmoid_grad.h:83 | records the unit and dependency list under the output handle unless that output already has a producer, which is kept |
| SigmoidGradOp.Build | MetaNN/operators/sigmoid_grad.h:94-107 | fails with a shape mismatch iff the two operand shapes differ; otherwise returns a pending node holding both operands, with their shape, and computes nothing |
| SigmoidGradOp.SigmoidGradValuesAt | MetaNN/operators/sigmoid_grad.h:48-51 | element i of the gradient is g[i] * y[i] * (1 - y[i]) with y the forward output, and the length is the operands' length |
| SigmoidGradOp.EvalUnit.Eval | MetaNN/operators/sigmoid_grad.h:24-53 | from two evaluated operands of equal shape, allocates the output with the gradient's shape and as many elements as the input, fills it with SigmoidGradValues, marks it evaluated, and leaves both operand buffers unchanged |
| SigmoidGradOp.EvalRegister | MetaNN/operators/sigmoid_grad.h:63-84 | registers one new unit over the three handles, keyed by the output handle, with dependencies exactly [grad, input] in that order |
| NegativeOp.NegativeValuesAt | MetaNN/operators/elementwise/negative.h:48-51 | element i of the negation is -in[i], and the length is the input's length |
| NegativeOp.NegativeInvolution | MetaNN/operators/elementwise/negative.h:48-51 | negating twice gives back the input |
| NegativeOp.Negate | MetaNN/operators/elementwise/negative.h:67-74 | unary minus builds a pending Negative node over its operand, with the operand's shape, and computes nothing |
| ExprValues.NegateValue | MetaNN/operators/elementwise/negative.h:67-74 | unary minus builds a node that has a value iff its operand has one, and then element i is the negation of the operand's element i |
| ExprValues.NegateTwiceValue | MetaNN/operators/elementwise/negative.h:48-51 | a node negated twice has its operand's value |
| ExprValues.SigmoidBackwardValue | MetaNN/layers/elementary/sigmoid_layer.h:42-80 | the gradient a sigmoid layer returns right after a forward call evaluates, element by element, to g[i] * sigma(x[i]) * (1 - sigma(x[i])), over the forward output rather than the input |
| ExprValues.GradOverOutputValue | MetaNN/operators/sigmoid_grad.h:48-51 | SigmoidGrad(g, Sigmoid(x)) has the evaluation unit's values over g and sigma(x), element by element |
| ExprValues.SequenceGradValues | LayerTest/elementary/test_tanh_layer.cpp:79-132 | k forward calls on a fresh sigmoid layer and then k backward calls in reverse shape order succeed, and the j-th returned gradient has the value of the sigmoid gradient over gs[j] and the output of forward call k-1-j |
| ExprValues.MaterialisedGradValue | MetaNN/operators/sigmoid_grad.h:24-53 | a SigmoidGrad node over two buffers of equal length has the values the evaluation unit writes |
| NegativeOp.EvalUnit.Eval | MetaNN/operators/elementwise/negative.h:29-53 | from an evaluated input, allocates the output with exactly the input's shape, fills it with NegativeValues of the input, marks it evaluated after the loop, and leaves the input buffer unchanged |
| Scenarios.InferenceOnlySigmoid | LayerTest/elementary/test_tanh_layer.cpp:14-43 | a layer without feedback returns the sigmoid forward, the empty bundle backward, and is neutral before and after |
| Scenarios.SigmoidRoundTrip | LayerTest/elementary/test_tanh_layer.cpp:45-77 | one forward and one matching backward call on a feedback layer give SigmoidGrad(g, sigmoid output) of the input's shape and leave the layer neutral; a further backward call fails for want of a forward call |
| Scenarios.SigmoidForwards | LayerTest/elementary/test_tanh_layer.cpp:91-110 | k forward calls on a feedback layer return the sigmoid of each input and leave the stacks of the specification's k forward steps |
| Scenarios.SigmoidBackwards | LayerTest/elementary/test_tanh_layer.cpp:112-128 | after k forward calls from consistent stacks, k backward calls with gradients of the forward shapes in reverse order return exactly the LIFO pairs and restore the stacks |
| Scenarios.SigmoidSequence | LayerTest/elementary/test_tanh_layer.cpp:79-132 | on a fresh layer object, k forward calls then k backward calls in reverse shape order all succeed, pair LIFO and leave the layer neutral |
| Scenarios.InterpolateRoundTrip | MetaNN/layers/elementary/interpolate_layer.h:46-124 | on the layer object, one forward and one matching backward call give gradients of the three operands' own shapes and leave the layer neutral |
| Scenarios.RegisterAndEvaluate | MetaNN/operators/sigmoid_grad.h:63-84 | registering the same output twice keeps one entry with two dependencies; evaluating its unit fills the output with the sigmoid gradient values |

## Left out

- Floating point: `exp`, `tanh` and the tolerance checks of the tests are not modelled. Elements are unbounded integers, and the sigmoid is a node without a value.
- The tanh layer: its source is not part of this model. The scenarios replay the call sequences of its test on the sigmoid layer.
- The compile-time policy machinery (`PolicySelect`, `PlainPolicy`, `IsPolicyContainer`, `static_assert`, `enable_if_t`/`IsValidOper`) is replaced by the `isFeedbackOutput` constructor flag and plain parameters. `IsUpdate`, a constant `false` in both layers, is not modelled.
- Named-bundle containers (`PickItemFromCont`, `LayerInputCont`, `LayerOutputCont`, `FillGradMap`) are replaced by plain parameters and the small `Grads` datatypes.
- `ShapePromote`, `Duplicate`, `Collapse`, `Interpolate`, the `*` and `-` operators and `1 - x`: their sources are not part of this model. They are nodes with a shape only. The rule "an operand duplicates to a shape that ends with its own shape" stands in for the promotion rule. Any shape checks those builders make are not modelled, nor are their element values.
- `ShapeChecker`: its source is not part of this model. It is modelled from its use. A failed `CheckAndPop` leaves the stack unchanged.
- The evaluation plan's execution is not part of this model: dependency ordering, running each unit once, the cycle check, `TrivalEvalGroup` and per-device plans. The same holds for `TailCalculator`, which registers the negation unit. The operands' own registration (`data1.EvalRegister()`) is not modelled; `SigmoidGradOp.EvalRegister` takes the operand handles already registered.
- Device tags, `LowerAccess`, raw pointers and the CPU-only `static_assert`: buffers are Dafny arrays.
- `m_name`, which is diagnostic only.
- `size_t` element counts: `Count` is unbounded, so overflow of the element count is not modelled.
- SigmoidGradOp.EvalRegister: returns the new unit so that callers can name it; the source returns nothing.
- InterpolateLayers.Consistent: does not record that each pushed output shape is the promotion of the pushed operand shapes; the backward pass does not need it.
- InterpolateLayers.FeedForwardCal: the promotion rule is a stand-in (the longest operand shape, which the others must end with), so when it fails and which shape it picks are properties of that rule, not of the library's `ShapePromote`; the same holds for Shapes.ShapePromoteIsLeast and InterpolateLayers.FeedForwardCalLeast. Broadcasting along axes of size 1 is not modelled: `[3]`, `[3]` and `[1]` have no promotion here.
- ExprValues.Value: `Duplicate`, `Collapse`, `Interpolate`, `*`, `-` and `1 - x` nodes have no value, since their evaluation units are not part of this model; the sigmoid's element function is a parameter, not `1 / (1 + exp(-x))`.
- SigmoidLayers.SigmoidLayer.Valid and InterpolateLayers.InterpolateLayer.Valid: they do not include stack consistency. FeedForward and FeedBackward instead promise that consistent stacks stay consistent, so the source's defensive failure branches remain reachable from arbitrary stacks.
- Thread safety: the layers are single-caller objects.
