/** The elementwise value of a pending expression, for the nodes whose
    evaluation units this model covers. It links what a layer's
    FeedBackward builds with what the evaluation units compute: the node
    the sigmoid layer returns evaluates to g * y * (1 - y) over the buffered
    forward output y, and the node unary minus builds evaluates to -x. */
module ExprValues {
  import opened Results
  import opened Shapes
  import opened Expressions
  import SigmoidGradOp
  import NegativeOp
  import SL = SigmoidLayers

  /** The sigmoid, elementwise; `sigma` stands for the element function the
      library computes in floating point. */
  function Apply(sigma: int -> int, v: seq<int>): (r: seq<int>)
    ensures |r| == |v|
  {
    seq(|v|, i requires 0 <= i < |v| => sigma(v[i]))
  }

  /** The value of a node whose operands all have values, or None. The
      values of Duplicate, Collapse, Interpolate and the arithmetic nodes
      are not part of this model, nor is a SigmoidGrad over operands of
      different lengths, which its evaluation unit never sees. */
  function Value(e: Expr, sigma: int -> int): Option<seq<int>>
  {
    match e
    case Leaf(t) => Some(t.values)
    case Sigmoid(x) =>
      (match Value(x, sigma)
       case None => None
       case Some(v) => Some(Apply(sigma, v)))
    case SigmoidGrad(g, y) =>
      (match (Value(g, sigma), Value(y, sigma))
       case (Some(gv), Some(yv)) =>
         if |gv| == |yv| then Some(SigmoidGradOp.SigmoidGradValues(gv, yv)) else None
       case _ => None)
    case Negative(x) =>
      (match Value(x, sigma)
       case None => None
       case Some(v) => Some(NegativeOp.NegativeValues(v)))
    case _ => None
  }

  /** Unary minus builds a node whose value is the negation of its
      operand's value, element by element. */
  lemma NegateValue(x: Expr, sigma: int -> int)
    ensures Value(NegativeOp.Negate(x), sigma).Some? <==> Value(x, sigma).Some?
    ensures Value(x, sigma).Some? ==>
      var v := Value(x, sigma).value;
      var r := Value(NegativeOp.Negate(x), sigma).value;
      |r| == |v| && forall i :: 0 <= i < |v| ==> r[i] == -v[i]
  {
  }

  /** Negating a node twice gives a node with the original value. */
  lemma {:induction false} NegateTwiceValue(x: Expr, sigma: int -> int)
    ensures Value(NegativeOp.Negate(NegativeOp.Negate(x)), sigma) == Value(x, sigma)
  {
    if Value(x, sigma).Some? {
      NegativeOp.NegativeInvolution(Value(x, sigma).value);
    }
  }

  /** The gradient the sigmoid layer returns right after a forward call
      evaluates, element by element, to g * y * (1 - y) with y = sigma(x):
      the gradient is taken over the buffered forward output, not the
      input. */
  lemma {:induction false} SigmoidBackwardValue(st: SL.SigmoidState, x: Expr, g: Expr, sigma: int -> int)
    requires SL.Consistent(st)
    requires ShapeOf(g) == ShapeOf(x)
    requires Value(g, sigma).Some? && Value(x, sigma).Some?
    requires |Value(g, sigma).value| == |Value(x, sigma).value|
    ensures var (r, _) := SL.Backward(true, SL.Forward(true, st, x).0, g);
      && r.Success? && r.value.InputGrad?
      && Value(r.value.input, sigma).Some?
      && var gv, xv, out := Value(g, sigma).value, Value(x, sigma).value, Value(r.value.input, sigma).value;
         |out| == |gv| &&
         forall i :: 0 <= i < |gv| ==> out[i] == gv[i] * sigma(xv[i]) * (1 - sigma(xv[i]))
  {
    SL.BackwardAfterForward(st, x, g);
    GradOverOutputValue(g, x, sigma);
  }

  /** The value of SigmoidGrad(g, Sigmoid(x)): the evaluation unit's
      values over g and sigma(x), element by element. */
  lemma GradOverOutputValue(g: Expr, x: Expr, sigma: int -> int)
    requires Value(g, sigma).Some? && Value(x, sigma).Some?
    requires |Value(g, sigma).value| == |Value(x, sigma).value|
    ensures Value(SigmoidGrad(g, Sigmoid(x)), sigma)
         == Some(SigmoidGradOp.SigmoidGradValues(Value(g, sigma).value, Apply(sigma, Value(x, sigma).value)))
    ensures var gv, xv, out := Value(g, sigma).value, Value(x, sigma).value, Value(SigmoidGrad(g, Sigmoid(x)), sigma).value;
      |out| == |gv| &&
      forall i :: 0 <= i < |gv| ==> out[i] == gv[i] * sigma(xv[i]) * (1 - sigma(xv[i]))
  {
  }

  /** Every operand and gradient of a call sequence has a value, and the
      j-th gradient has as many elements as the input of forward call
      k-1-j. */
  predicate SequenceValued(xs: seq<Expr>, gs: seq<Expr>, sigma: int -> int)
  {
    |gs| == |xs| &&
    forall j :: 0 <= j < |gs| ==>
      Value(gs[j], sigma).Some? && Value(xs[|xs| - 1 - j], sigma).Some? &&
      |Value(gs[j], sigma).value| == |Value(xs[|xs| - 1 - j], sigma).value|
  }

  /** The value the j-th backward call's gradient must have: the sigmoid
      gradient over gs[j] and the sigmoid of the input of forward call
      k-1-j. */
  function ExpectedGrad(xs: seq<Expr>, gs: seq<Expr>, sigma: int -> int, j: nat): seq<int>
    requires SequenceValued(xs, gs, sigma) && j < |gs|
  {
    SigmoidGradOp.SigmoidGradValues(Value(gs[j], sigma).value, Apply(sigma, Value(xs[|xs| - 1 - j], sigma).value))
  }

  /** Each LIFO pair evaluates to the expected sigmoid gradient. */
  lemma LifoPairsValues(xs: seq<Expr>, gs: seq<Expr>, sigma: int -> int)
    requires SequenceValued(xs, gs, sigma)
    ensures forall j :: 0 <= j < |gs| ==>
      SL.LifoPairs(xs, gs)[j].InputGrad? && Value(SL.LifoPairs(xs, gs)[j].input, sigma) == Some(ExpectedGrad(xs, gs, sigma, j))
  {
    forall j | 0 <= j < |gs|
      ensures SL.LifoPairs(xs, gs)[j].InputGrad? && Value(SL.LifoPairs(xs, gs)[j].input, sigma) == Some(ExpectedGrad(xs, gs, sigma, j))
    {
      GradOverOutputValue(gs[j], xs[|xs| - 1 - j], sigma);
    }
  }

  /** k forward calls on a fresh layer and then k backward calls with
      gradients of the forward shapes in reverse order: every call
      succeeds, and the j-th backward call returns a gradient whose value is
      the sigmoid gradient over gs[j] and the forward output of call k-1-j;
      element i of it is gs[j][i] * y * (1 - y) with y = sigma(x[i]). */
  lemma SequenceGradValues(xs: seq<Expr>, gs: seq<Expr>, sigma: int -> int)
    requires |gs| == |xs|
    requires forall j :: 0 <= j < |gs| ==> ShapeOf(gs[j]) == ShapeOf(xs[|xs| - 1 - j])
    requires SequenceValued(xs, gs, sigma)
    ensures var (r, _) := SL.BackwardAll(SL.ForwardAll(SL.Initial, xs), gs);
      && r.Success? && |r.value| == |xs|
      && forall j :: 0 <= j < |gs| ==>
           r.value[j].InputGrad? && Value(r.value[j].input, sigma) == Some(ExpectedGrad(xs, gs, sigma, j))
  {
    SL.ForwardsThenBackwards(SL.Initial, xs, gs);
    LifoPairsValues(xs, gs, sigma);
  }

  /** A SigmoidGrad node over two materialised buffers of equal length has
      the value the evaluation unit writes into its output. */
  lemma MaterialisedGradValue(shape: Shape, g: seq<int>, y: seq<int>, sigma: int -> int)
    requires |g| == |y|
    ensures Value(SigmoidGrad(Leaf(Tensor(shape, g)), Leaf(Tensor(shape, y))), sigma)
         == Some(SigmoidGradOp.SigmoidGradValues(g, y))
  {
  }
}
