/** Call sequences over the layer objects and the evaluation units, as the
    library's layer tests drive them: what a caller can conclude from the
    method contracts alone. */
module Scenarios {
  import opened Results
  import opened Shapes
  import opened Expressions
  import opened Evaluation
  import SL = SigmoidLayers
  import IL = InterpolateLayers
  import SigmoidGradOp
  import Stacks

  /** A layer built without feedback: forward returns the sigmoid, backward
      returns the empty bundle, and the layer is neutral before and after. */
  method InferenceOnlySigmoid(x: Expr, g: Expr) returns (y: Expr, r: Result<SL.Grads>, before: Outcome, after: Outcome)
    ensures y == Sigmoid(x)
    ensures r == Success(SL.NoGrads)
    ensures before.Pass? && after.Pass?
  {
    var layer := new SL.SigmoidLayer(false);
    before := layer.NeutralInvariant();
    y := layer.FeedForward(x);
    r := layer.FeedBackward(g);
    after := layer.NeutralInvariant();
  }

  /** One forward call and one backward call with a gradient of the input's
      shape: the gradient is SigmoidGrad over the forward OUTPUT, it has the
      input's shape, and the layer is neutral again. A second backward call
      has no forward call left to pair with. */
  method SigmoidRoundTrip(x: Expr, g: Expr) returns (r: Result<SL.Grads>, after: Outcome, again: Result<SL.Grads>)
    requires ShapeOf(g) == ShapeOf(x)
    ensures r == Success(SL.InputGrad(SigmoidGrad(g, Sigmoid(x))))
    ensures ShapeOf(r.value.input) == ShapeOf(x)
    ensures after.Pass?
    ensures again == Failure(NoMatchingForward)
  {
    var layer := new SL.SigmoidLayer(true);
    var y := layer.FeedForward(x);
    SL.BackwardAfterForward(SL.Initial, x, g);
    r := layer.FeedBackward(g);
    after := layer.NeutralInvariant();
    again := layer.FeedBackward(g);
  }

  /** k forward calls in order on a layer with feedback enabled. */
  method SigmoidForwards(layer: SL.SigmoidLayer, xs: seq<Expr>) returns (ys: seq<Expr>)
    requires layer.Valid() && layer.isFeedbackOutput
    modifies layer, layer.inputShape, layer.outputShape
    ensures layer.Valid()
    ensures |ys| == |xs| && forall i :: 0 <= i < |xs| ==> ys[i] == Sigmoid(xs[i])
    ensures layer.State() == SL.ForwardAll(old(layer.State()), xs)
  {
    ghost var st := layer.State();
    ys := [];
    for i := 0 to |xs|
      invariant layer.Valid()
      invariant layer.State() == SL.ForwardAll(st, xs[..i])
      invariant |ys| == i && forall k :: 0 <= k < i ==> ys[k] == Sigmoid(xs[k])
    {
      assert xs[..i + 1][..i] == xs[..i];
      var y := layer.FeedForward(xs[i]);
      ys := ys + [y];
    }
    assert xs[..|xs|] == xs;
  }

  /** After k forward calls from consistent stacks, k backward calls with
      gradients of the forward shapes in reverse order: every call succeeds,
      the j-th pairs with forward call k-1-j, and the stacks are restored. */
  method SigmoidBackwards(layer: SL.SigmoidLayer, ghost st: SL.SigmoidState, xs: seq<Expr>, gs: seq<Expr>)
    returns (grads: seq<SL.Grads>)
    requires layer.Valid() && layer.isFeedbackOutput
    requires SL.Consistent(st) && layer.State() == SL.ForwardAll(st, xs)
    requires |gs| == |xs|
    requires forall j :: 0 <= j < |gs| ==> ShapeOf(gs[j]) == ShapeOf(xs[|xs| - 1 - j])
    modifies layer, layer.inputShape, layer.outputShape
    ensures layer.Valid()
    ensures grads == SL.LifoPairs(xs, gs)
    ensures layer.State() == st
  {
    grads := [];
    ghost var pairs := SL.LifoPairs(xs, gs);
    assert xs[..|xs|] == xs;
    for j := 0 to |xs|
      invariant layer.Valid()
      invariant layer.State() == SL.ForwardAll(st, xs[..|xs| - j])
      invariant grads == pairs[..j]
    {
      SL.LifoStep(st, xs, gs, j);
      var r := layer.FeedBackward(gs[j]);
      grads := grads + [r.value];
      Stacks.PrefixExtend(pairs, j);
    }
    assert pairs[..|xs|] == pairs;
  }

  /** k forward calls with shapes chosen per call, then k backward calls with
      gradients of those shapes in reverse order: every backward call
      succeeds, pairs LIFO, and the layer ends neutral. */
  method SigmoidSequence(xs: seq<Expr>, gs: seq<Expr>) returns (ys: seq<Expr>, grads: seq<SL.Grads>, after: Outcome)
    requires |gs| == |xs|
    requires forall j :: 0 <= j < |gs| ==> ShapeOf(gs[j]) == ShapeOf(xs[|xs| - 1 - j])
    ensures |ys| == |xs| && forall i :: 0 <= i < |xs| ==> ys[i] == Sigmoid(xs[i])
    ensures grads == SL.LifoPairs(xs, gs)
    ensures after.Pass?
  {
    var layer := new SL.SigmoidLayer(true);
    ys := SigmoidForwards(layer, xs);
    grads := SigmoidBackwards(layer, SL.Initial, xs, gs);
    after := layer.NeutralInvariant();
  }

  /** One interpolation forward call and its backward call: the gradients of
      the three operands come back collapsed to the operands' own shapes and
      the layer is neutral again. */
  method InterpolateRoundTrip(v1: Expr, v2: Expr, lambda: Expr, g: Expr)
    returns (y: Result<Expr>, r: Result<IL.Grads>, after: Outcome)
    requires IL.FeedForwardCal(v1, v2, lambda).Success?
    requires ShapeOf(g) == ShapeOf(IL.FeedForwardCal(v1, v2, lambda).value)
    ensures y.Success?
    ensures r.Success? && r.value.Grads?
    ensures ShapeOf(r.value.weight1) == ShapeOf(v1)
    ensures ShapeOf(r.value.weight2) == ShapeOf(v2)
    ensures ShapeOf(r.value.lambda) == ShapeOf(lambda)
    ensures after.Pass?
  {
    var layer := new IL.InterpolateLayer(true);
    y := layer.FeedForward(v1, v2, lambda);
    IL.BackwardAfterForward(IL.Initial, v1, v2, lambda, g);
    r := layer.FeedBackward(g);
    after := layer.NeutralInvariant();
  }

  /** Registering the sigmoid gradient of the same output twice keeps the
      first unit; evaluating that unit fills the output with
      g[i] * y[i] * (1 - y[i]). */
  method RegisterAndEvaluate(shape: Shape, g: seq<int>, y: seq<int>) returns (plan: EvalPlan, out: Handle)
    requires |g| == Count(shape) && |y| == Count(shape)
    ensures out in plan.registry && |plan.registry| == 1
    ensures |plan.registry[out].deps| == 2
    ensures out.state == Evaluated && out.shape == shape
    ensures out.mem[..] == SigmoidGradOp.SigmoidGradValues(g, y)
  {
    plan := new EvalPlan();
    var gradHandle := new Handle.Materialized(shape, g);
    var inputHandle := new Handle.Materialized(shape, y);
    out := new Handle();
    var first := SigmoidGradOp.EvalRegister(plan, gradHandle, inputHandle, out);
    var second := SigmoidGradOp.EvalRegister(plan, gradHandle, inputHandle, out);
    assert plan.registry == map[out := Registration(first, [gradHandle, inputHandle])];
    first.Eval();
  }
}
