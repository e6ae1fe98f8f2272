/** The interpolation layer's reverse-mode bookkeeping. FeedForward promotes
    the shapes of weight1, weight2 and lambda to a common shape S, duplicates
    all three to S and returns the pending interpolation; with feedback
    enabled it buffers the three operands on three stacks and pushes their
    shapes and the output shape on four shape checkers. FeedBackward pops the
    three operands of the most recent unmatched forward call, builds the
    three gradients over the incoming gradient's shape, collapses each to its
    operand's shape and checks every shape against the one pushed at forward
    time. */
module InterpolateLayers {
  import opened Results
  import opened Shapes
  import opened Stacks
  import opened Expressions
  import opened ShapeCheckers

  datatype InterpolateState = InterpolateState(
    input1s: seq<Expr>, input2s: seq<Expr>, lambdas: seq<Expr>,
    weight1Shapes: seq<Shape>, weight2Shapes: seq<Shape>, lambdaShapes: seq<Shape>,
    outputShapes: seq<Shape>)

  /** The gradient bundle FeedBackward returns. */
  datatype Grads = NoGrads | Grads(weight1: Expr, weight2: Expr, lambda: Expr)

  const Initial := InterpolateState([], [], [], [], [], [], [])

  predicate Neutral(st: InterpolateState)
  {
    st.input1s == [] && st.input2s == [] && st.lambdas == [] &&
    st.weight1Shapes == [] && st.weight2Shapes == [] && st.lambdaShapes == [] && st.outputShapes == []
  }

  /** The seven stacks move in lock-step, and at each depth the three
      operand shapes are those of the buffered operands. */
  predicate Consistent(st: InterpolateState)
  {
    var n := |st.input1s|;
    |st.input2s| == n && |st.lambdas| == n &&
    |st.weight1Shapes| == n && |st.weight2Shapes| == n && |st.lambdaShapes| == n && |st.outputShapes| == n &&
    forall i :: 0 <= i < n ==>
      st.weight1Shapes[i] == ShapeOf(st.input1s[i]) &&
      st.weight2Shapes[i] == ShapeOf(st.input2s[i]) &&
      st.lambdaShapes[i] == ShapeOf(st.lambdas[i])
  }

  /** The forward transform: fails when the operand shapes have no common
      promotion; otherwise the interpolation of the three operands, each
      duplicated to the promoted shape, which is the result's shape. */
  function FeedForwardCal(v1: Expr, v2: Expr, lambda: Expr): (r: Result<Expr>)
    ensures r.Success? <==> ShapePromote(ShapeOf(v1), ShapeOf(v2), ShapeOf(lambda)).Some?
    ensures r.Failure? ==> r.error == ShapeMismatch
    ensures r.Success? ==>
      var s := ShapeOf(r.value);
      && ShapePromote(ShapeOf(v1), ShapeOf(v2), ShapeOf(lambda)) == Some(s)
      && r.value == Interpolate(Duplicate(v1, s), Duplicate(v2, s), Duplicate(lambda, s))
  {
    var promoted := ShapePromote(ShapeOf(v1), ShapeOf(v2), ShapeOf(lambda));
    if promoted.None? then Failure(ShapeMismatch)
    else
      var s := promoted.value;
      Success(Interpolate(Duplicate(v1, s), Duplicate(v2, s), Duplicate(lambda, s)))
  }

  /** Each operand can be duplicated to the forward result's shape. */
  lemma FeedForwardCalDuplicates(v1: Expr, v2: Expr, lambda: Expr)
    requires FeedForwardCal(v1, v2, lambda).Success?
    ensures var s := ShapeOf(FeedForwardCal(v1, v2, lambda).value);
      CanDuplicate(ShapeOf(v1), s) && CanDuplicate(ShapeOf(v2), s) && CanDuplicate(ShapeOf(lambda), s)
  {
  }

  /** The forward transform succeeds whenever the operands have a common
      target shape, and its result's shape duplicates to every such target. */
  lemma FeedForwardCalLeast(v1: Expr, v2: Expr, lambda: Expr, t: Shape)
    requires CanDuplicate(ShapeOf(v1), t) && CanDuplicate(ShapeOf(v2), t) && CanDuplicate(ShapeOf(lambda), t)
    ensures FeedForwardCal(v1, v2, lambda).Success?
    ensures CanDuplicate(ShapeOf(FeedForwardCal(v1, v2, lambda).value), t)
  {
    ShapePromoteIsLeast(ShapeOf(v1), ShapeOf(v2), ShapeOf(lambda), t);
  }

  /** FeedForward: the result and the new stacks. */
  function Forward(feedback: bool, st: InterpolateState, v1: Expr, v2: Expr, lambda: Expr)
    : (Result<Expr>, InterpolateState)
  {
    match FeedForwardCal(v1, v2, lambda)
    case Failure(e) => (Failure(e), st)
    case Success(res) =>
      if feedback then (Success(res), Push(st, v1, v2, lambda, ShapeOf(res)))
      else (Success(res), st)
  }

  /** The buffering FeedForward does: the three operands on their stacks,
      their shapes and the result shape `s` on the four checkers. */
  function Push(st: InterpolateState, v1: Expr, v2: Expr, lambda: Expr, s: Shape): InterpolateState
  {
    InterpolateState(
      st.input1s + [v1], st.input2s + [v2], st.lambdas + [lambda],
      st.weight1Shapes + [ShapeOf(v1)], st.weight2Shapes + [ShapeOf(v2)],
      st.lambdaShapes + [ShapeOf(lambda)], st.outputShapes + [s])
  }

  /** The three gradients before collapsing, over the shape of `g`:
      g * dup(lambda), g * dup(1 - lambda), g * (dup(v1) - dup(v2)). */
  function GradWeight1(g: Expr, lambda: Expr): Expr
  {
    Mul(g, Duplicate(lambda, ShapeOf(g)))
  }

  function GradWeight2(g: Expr, lambda: Expr): Expr
  {
    Mul(g, Duplicate(OneMinus(lambda), ShapeOf(g)))
  }

  function GradLambda(g: Expr, v1: Expr, v2: Expr): Expr
  {
    Mul(g, Sub(Duplicate(v1, ShapeOf(g)), Duplicate(v2, ShapeOf(g))))
  }

  /** The three stacks with their tops removed. */
  function PopOperands(st: InterpolateState): InterpolateState
    requires st.input1s != [] && st.input2s != [] && st.lambdas != []
  {
    st.(input1s := Pop(st.input1s), input2s := Pop(st.input2s), lambdas := Pop(st.lambdas))
  }

  /** FeedBackward: the result and the new stacks, step by step in the
      library's order, so that a violation leaves the stacks as the library
      leaves them when it throws. */
  function Backward(feedback: bool, st: InterpolateState, g: Expr): (Result<Grads>, InterpolateState)
  {
    if !feedback then (Success(NoGrads), st)
    else if st.input1s == [] || st.input2s == [] || st.lambdas == [] then (Failure(NoMatchingForward), st)
    else match CheckPop(st.outputShapes, ShapeOf(g))
      case Failure(e) => (Failure(e), st)
      case Success(outputShapes) =>
        var lambda, v1, v2 := Top(st.lambdas), Top(st.input1s), Top(st.input2s);
        CheckGradShapes(PopOperands(st).(outputShapes := outputShapes),
                        Collapse(GradWeight1(g, lambda), ShapeOf(v1)),
                        Collapse(GradWeight2(g, lambda), ShapeOf(v2)),
                        Collapse(GradLambda(g, v1, v2), ShapeOf(lambda)))
  }

  /** The last stage of FeedBackward: the three collapsed gradients are
      checked against the weight1, weight2 and lambda shape checkers in that
      order; the first mismatch stops the call with the earlier checkers
      already popped. */
  function CheckGradShapes(st: InterpolateState, out1: Expr, out2: Expr, outLambda: Expr)
    : (Result<Grads>, InterpolateState)
  {
    match CheckPop(st.weight1Shapes, ShapeOf(out1))
    case Failure(e) => (Failure(e), st)
    case Success(w1) =>
      match CheckPop(st.weight2Shapes, ShapeOf(out2))
      case Failure(e) => (Failure(e), st.(weight1Shapes := w1))
      case Success(w2) =>
        match CheckPop(st.lambdaShapes, ShapeOf(outLambda))
        case Failure(e) => (Failure(e), st.(weight1Shapes := w1, weight2Shapes := w2))
        case Success(ls) =>
          (Success(Grads(out1, out2, outLambda)), st.(weight1Shapes := w1, weight2Shapes := w2, lambdaShapes := ls))
  }

  /** With feedback disabled, neither direction touches the stacks and the
      backward result is the empty bundle. */
  lemma DisabledKeepsState(st: InterpolateState, v1: Expr, v2: Expr, lambda: Expr, g: Expr)
    ensures Forward(false, st, v1, v2, lambda).1 == st
    ensures Backward(false, st, g) == (Success(NoGrads), st)
  {
  }

  /** FeedForward keeps the stacks consistent. */
  lemma ForwardConsistent(feedback: bool, st: InterpolateState, v1: Expr, v2: Expr, lambda: Expr)
    requires Consistent(st)
    ensures Consistent(Forward(feedback, st, v1, v2, lambda).1)
  {
  }

  /** All seven stacks with their tops removed. */
  function PopAll(st: InterpolateState): InterpolateState
    requires Consistent(st) && st.input1s != []
  {
    InterpolateState(Pop(st.input1s), Pop(st.input2s), Pop(st.lambdas),
                     Pop(st.weight1Shapes), Pop(st.weight2Shapes), Pop(st.lambdaShapes), Pop(st.outputShapes))
  }

  lemma PopAllConsistent(st: InterpolateState)
    requires Consistent(st) && st.input1s != []
    ensures Consistent(PopAll(st))
  {
  }

  /** From consistent stacks, FeedBackward rejects exactly a call with
      nothing buffered or with a gradient whose shape is not the buffered
      output shape, and then leaves the stacks alone. */
  lemma BackwardRejects(st: InterpolateState, g: Expr)
    requires Consistent(st)
    requires st.input1s == [] || ShapeOf(g) != Top(st.outputShapes)
    ensures Backward(true, st, g) == (Failure(if st.input1s == [] then NoMatchingForward else ShapeMismatch), st)
  {
  }

  /** Otherwise it uses the operands of the most recent unmatched forward
      call, returns the three gradients collapsed to the shapes of those
      operands (the shapes pushed for them), and pops all seven stacks. */
  lemma {:induction false} BackwardAccepts(st: InterpolateState, g: Expr)
    requires Consistent(st)
    requires st.input1s != [] && ShapeOf(g) == Top(st.outputShapes)
    ensures var lambda, v1, v2 := Top(st.lambdas), Top(st.input1s), Top(st.input2s);
      Backward(true, st, g) ==
        (Success(Grads(Collapse(GradWeight1(g, lambda), ShapeOf(v1)),
                       Collapse(GradWeight2(g, lambda), ShapeOf(v2)),
                       Collapse(GradLambda(g, v1, v2), ShapeOf(lambda)))),
         PopAll(st))
    ensures ShapeOf(Top(st.input1s)) == Top(st.weight1Shapes)
    ensures ShapeOf(Top(st.input2s)) == Top(st.weight2Shapes)
    ensures ShapeOf(Top(st.lambdas)) == Top(st.lambdaShapes)
  {
    TopShapes(st);
    BackwardAcceptsTop(st, g);
  }

  /** The same, from the facts about the tops of the stacks alone. */
  lemma BackwardAcceptsTop(st: InterpolateState, g: Expr)
    requires st.input1s != [] && st.input2s != [] && st.lambdas != []
    requires st.outputShapes != [] && ShapeOf(g) == Top(st.outputShapes)
    requires st.weight1Shapes != [] && ShapeOf(Top(st.input1s)) == Top(st.weight1Shapes)
    requires st.weight2Shapes != [] && ShapeOf(Top(st.input2s)) == Top(st.weight2Shapes)
    requires st.lambdaShapes != [] && ShapeOf(Top(st.lambdas)) == Top(st.lambdaShapes)
    ensures var lambda, v1, v2 := Top(st.lambdas), Top(st.input1s), Top(st.input2s);
      Backward(true, st, g) ==
        (Success(Grads(Collapse(GradWeight1(g, lambda), ShapeOf(v1)),
                       Collapse(GradWeight2(g, lambda), ShapeOf(v2)),
                       Collapse(GradLambda(g, v1, v2), ShapeOf(lambda)))),
         InterpolateState(Pop(st.input1s), Pop(st.input2s), Pop(st.lambdas),
                          Pop(st.weight1Shapes), Pop(st.weight2Shapes), Pop(st.lambdaShapes), Pop(st.outputShapes)))
  {
    var lambda, v1, v2 := Top(st.lambdas), Top(st.input1s), Top(st.input2s);
    var out1 := Collapse(GradWeight1(g, lambda), ShapeOf(v1));
    var out2 := Collapse(GradWeight2(g, lambda), ShapeOf(v2));
    var outLambda := Collapse(GradLambda(g, v1, v2), ShapeOf(lambda));
    var popped := PopOperands(st).(outputShapes := Pop(st.outputShapes));
    CheckGradShapesAccepts(popped, out1, out2, outLambda);
  }

  /** At the top of consistent stacks, the pushed operand shapes are the
      shapes of the buffered operands. */
  lemma TopShapes(st: InterpolateState)
    requires Consistent(st) && st.input1s != []
    ensures ShapeOf(Top(st.input1s)) == Top(st.weight1Shapes)
    ensures ShapeOf(Top(st.input2s)) == Top(st.weight2Shapes)
    ensures ShapeOf(Top(st.lambdas)) == Top(st.lambdaShapes)
  {
    var n := |st.input1s| - 1;
    assert Top(st.input1s) == st.input1s[n] && Top(st.input2s) == st.input2s[n] && Top(st.lambdas) == st.lambdas[n];
  }

  /** Gradients of the pushed shapes pass all three checkers, which are
      popped. */
  lemma CheckGradShapesAccepts(st: InterpolateState, out1: Expr, out2: Expr, outLambda: Expr)
    requires st.weight1Shapes != [] && ShapeOf(out1) == Top(st.weight1Shapes)
    requires st.weight2Shapes != [] && ShapeOf(out2) == Top(st.weight2Shapes)
    requires st.lambdaShapes != [] && ShapeOf(outLambda) == Top(st.lambdaShapes)
    ensures CheckGradShapes(st, out1, out2, outLambda) ==
      (Success(Grads(out1, out2, outLambda)),
       st.(weight1Shapes := Pop(st.weight1Shapes), weight2Shapes := Pop(st.weight2Shapes),
           lambdaShapes := Pop(st.lambdaShapes)))
  {
  }

  /** FeedBackward keeps the stacks consistent. */
  lemma BackwardConsistent(feedback: bool, st: InterpolateState, g: Expr)
    requires Consistent(st)
    ensures Consistent(Backward(feedback, st, g).1)
  {
    if feedback {
      if st.input1s == [] || ShapeOf(g) != Top(st.outputShapes) {
        BackwardRejects(st, g);
      } else {
        BackwardAccepts(st, g);
        PopAllConsistent(st);
      }
    }
  }

  /** Backward undoes Forward: a gradient of the forward result's shape gets
      the three gradients of that call's operands, each of its operand's
      shape, and the stacks return to what they were. */
  lemma {:induction false} BackwardAfterForward(st: InterpolateState, v1: Expr, v2: Expr, lambda: Expr, g: Expr)
    requires FeedForwardCal(v1, v2, lambda).Success?
    requires ShapeOf(g) == ShapeOf(FeedForwardCal(v1, v2, lambda).value)
    ensures var (r, st') := Backward(true, Forward(true, st, v1, v2, lambda).1, g);
      && r == Success(Grads(Collapse(GradWeight1(g, lambda), ShapeOf(v1)),
                            Collapse(GradWeight2(g, lambda), ShapeOf(v2)),
                            Collapse(GradLambda(g, v1, v2), ShapeOf(lambda))))
      && ShapeOf(r.value.weight1) == ShapeOf(v1)
      && ShapeOf(r.value.weight2) == ShapeOf(v2)
      && ShapeOf(r.value.lambda) == ShapeOf(lambda)
      && st' == st
  {
    var s := ShapeOf(FeedForwardCal(v1, v2, lambda).value);
    assert Forward(true, st, v1, v2, lambda).1 == Push(st, v1, v2, lambda, s);
    BackwardAfterPush(st, v1, v2, lambda, s, g);
  }

  /** A backward call with a gradient of the pushed result shape pops
      exactly what Push pushed. */
  lemma BackwardAfterPush(st: InterpolateState, v1: Expr, v2: Expr, lambda: Expr, s: Shape, g: Expr)
    requires ShapeOf(g) == s
    ensures Backward(true, Push(st, v1, v2, lambda, s), g) ==
      (Success(Grads(Collapse(GradWeight1(g, lambda), ShapeOf(v1)),
                     Collapse(GradWeight2(g, lambda), ShapeOf(v2)),
                     Collapse(GradLambda(g, v1, v2), ShapeOf(lambda)))), st)
  {
    PushPop(st.input1s, v1);
    PushPop(st.input2s, v2);
    PushPop(st.lambdas, lambda);
    PushPop(st.weight1Shapes, ShapeOf(v1));
    PushPop(st.weight2Shapes, ShapeOf(v2));
    PushPop(st.lambdaShapes, ShapeOf(lambda));
    PushPop(st.outputShapes, s);
    BackwardAcceptsTop(Push(st, v1, v2, lambda, s), g);
  }

  class InterpolateLayer {
    const isFeedbackOutput: bool
    var input1Stack: seq<Expr>
    var input2Stack: seq<Expr>
    var lambdaStack: seq<Expr>
    const weight1Shape: ShapeChecker
    const weight2Shape: ShapeChecker
    const lambdaShape: ShapeChecker
    const outputShape: ShapeChecker

    /** The four shape checkers are distinct objects. */
    ghost predicate Valid()
      reads this
    {
      weight1Shape != weight2Shape && weight1Shape != lambdaShape && weight1Shape != outputShape &&
      weight2Shape != lambdaShape && weight2Shape != outputShape && lambdaShape != outputShape
    }

    function State(): InterpolateState
      reads this, weight1Shape, weight2Shape, lambdaShape, outputShape
    {
      InterpolateState(input1Stack, input2Stack, lambdaStack,
                       weight1Shape.stack, weight2Shape.stack, lambdaShape.stack, outputShape.stack)
    }

    constructor (isFeedbackOutput: bool)
      ensures Valid() && this.isFeedbackOutput == isFeedbackOutput
      ensures State() == Initial
      ensures fresh(weight1Shape) && fresh(weight2Shape) && fresh(lambdaShape) && fresh(outputShape)
    {
      this.isFeedbackOutput := isFeedbackOutput;
      input1Stack, input2Stack, lambdaStack := [], [], [];
      weight1Shape := new ShapeChecker();
      weight2Shape := new ShapeChecker();
      lambdaShape := new ShapeChecker();
      outputShape := new ShapeChecker();
    }

    /** With feedback enabled and a successful forward transform, pushes one
        entry on each of the three operand stacks and the four checkers. */
    method FeedForward(v1: Expr, v2: Expr, lambda: Expr) returns (r: Result<Expr>)
      requires Valid()
      modifies this, weight1Shape, weight2Shape, lambdaShape, outputShape
      ensures Valid()
      ensures r == FeedForwardCal(v1, v2, lambda)
      ensures isFeedbackOutput && r.Success? ==>
        && input1Stack == old(input1Stack) + [v1]
        && input2Stack == old(input2Stack) + [v2]
        && lambdaStack == old(lambdaStack) + [lambda]
        && weight1Shape.stack == old(weight1Shape.stack) + [ShapeOf(v1)]
        && weight2Shape.stack == old(weight2Shape.stack) + [ShapeOf(v2)]
        && lambdaShape.stack == old(lambdaShape.stack) + [ShapeOf(lambda)]
        && outputShape.stack == old(outputShape.stack) + [ShapeOf(r.value)]
      ensures !isFeedbackOutput || r.Failure? ==> State() == old(State())
      ensures (r, State()) == Forward(isFeedbackOutput, old(State()), v1, v2, lambda)
      ensures Consistent(old(State())) ==> Consistent(State())
    {
      if Consistent(State()) {
        ForwardConsistent(isFeedbackOutput, State(), v1, v2, lambda);
      }
      r := FeedForwardCal(v1, v2, lambda);
      if r.Failure? {
        return;
      }
      var res := r.value;
      if isFeedbackOutput {
        weight1Shape.Push(ShapeOf(v1));
        weight2Shape.Push(ShapeOf(v2));
        lambdaShape.Push(ShapeOf(lambda));
        outputShape.Push(ShapeOf(res));
        input1Stack := input1Stack + [v1];
        input2Stack := input2Stack + [v2];
        lambdaStack := lambdaStack + [lambda];
      }
    }

    method FeedBackward(g: Expr) returns (r: Result<Grads>)
      requires Valid()
      modifies this, weight1Shape, weight2Shape, lambdaShape, outputShape
      ensures Valid()
      ensures r == Backward(isFeedbackOutput, old(State()), g).0
      ensures State() == Backward(isFeedbackOutput, old(State()), g).1
      ensures Consistent(old(State())) ==> Consistent(State())
    {
      if Consistent(State()) {
        BackwardConsistent(isFeedbackOutput, State(), g);
      }
      if !isFeedbackOutput {
        return Success(NoGrads);
      }
      if input1Stack == [] || input2Stack == [] || lambdaStack == [] {
        return Failure(NoMatchingForward);
      }
      ghost var st := State();
      var checked := outputShape.CheckAndPop(ShapeOf(g));
      if checked.Fail? {
        return Failure(checked.error);
      }
      var curLambda, curInput1, curInput2 := Top(lambdaStack), Top(input1Stack), Top(input2Stack);
      lambdaStack := Pop(lambdaStack);
      input1Stack := Pop(input1Stack);
      input2Stack := Pop(input2Stack);
      ghost var popped := State();
      assert popped == PopOperands(st).(outputShapes := outputShape.stack);

      var res2 := GradWeight2(g, curLambda);
      var res1 := GradWeight1(g, curLambda);
      var resLambda := GradLambda(g, curInput1, curInput2);

      var out1 := Collapse(res1, ShapeOf(curInput1));
      var out2 := Collapse(res2, ShapeOf(curInput2));
      var outLambda := Collapse(resLambda, ShapeOf(curLambda));
      assert Backward(true, st, g) == CheckGradShapes(popped, out1, out2, outLambda);

      r := CheckGradients(out1, out2, outLambda);
    }

    /** The last stage of FeedBackward: the collapsed gradients are checked
        against the weight1, weight2 and lambda checkers in that order. */
    method CheckGradients(out1: Expr, out2: Expr, outLambda: Expr) returns (r: Result<Grads>)
      requires Valid()
      modifies weight1Shape, weight2Shape, lambdaShape
      ensures Valid()
      ensures r == CheckGradShapes(old(State()), out1, out2, outLambda).0
      ensures State() == CheckGradShapes(old(State()), out1, out2, outLambda).1
    {
      var checked := weight1Shape.CheckAndPop(ShapeOf(out1));
      if checked.Fail? {
        return Failure(checked.error);
      }
      checked := weight2Shape.CheckAndPop(ShapeOf(out2));
      if checked.Fail? {
        return Failure(checked.error);
      }
      checked := lambdaShape.CheckAndPop(ShapeOf(outLambda));
      if checked.Fail? {
        return Failure(checked.error);
      }
      r := Success(Grads(out1, out2, outLambda));
    }

    /** Passes exactly when feedback is disabled or every operand stack and
        every shape checker is empty. */
    method NeutralInvariant() returns (r: Outcome)
      requires Valid()
      ensures r.Pass? <==> !isFeedbackOutput || Neutral(State())
      ensures r.Fail? ==>
        r.error == (if input1Stack != [] || input2Stack != [] || lambdaStack != [] then NotNeutral else CheckerNotEmpty)
    {
      if !isFeedbackOutput {
        return Pass;
      }
      if input1Stack != [] || input2Stack != [] || lambdaStack != [] {
        return Fail(NotNeutral);
      }
      r := weight1Shape.AssertEmpty();
      if r.Fail? {
        return;
      }
      r := weight2Shape.AssertEmpty();
      if r.Fail? {
        return;
      }
      r := lambdaShape.AssertEmpty();
      if r.Fail? {
        return;
      }
      r := outputShape.AssertEmpty();
    }
  }
}
