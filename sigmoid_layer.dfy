/** The sigmoid layer's reverse-mode bookkeeping. With feedback enabled,
    every FeedForward buffers the sigmoid OUTPUT and pushes the input and
    output shapes onto two shape checkers; every FeedBackward pops the most
    recent entries, checks the incoming gradient against the buffered output
    shape and the produced gradient against the buffered input shape, and
    returns SigmoidGrad(g, y). With feedback disabled the layer keeps no
    state and FeedBackward returns an empty bundle. */
module SigmoidLayers {
  import opened Results
  import opened Shapes
  import opened Stacks
  import opened Expressions
  import opened ShapeCheckers
  import SigmoidGradOp

  /** The layer's three stacks: buffered outputs, input shapes, output shapes. */
  datatype SigmoidState = SigmoidState(data: seq<Expr>, inputShapes: seq<Shape>, outputShapes: seq<Shape>)

  /** The gradient bundle FeedBackward returns. */
  datatype Grads = NoGrads | InputGrad(input: Expr)

  const Initial := SigmoidState([], [], [])

  predicate Neutral(st: SigmoidState)
  {
    st.data == [] && st.inputShapes == [] && st.outputShapes == []
  }

  /** The stacks move in lock-step, every buffered value is a sigmoid output,
      and the shapes at each depth are its input's and its own. */
  predicate Consistent(st: SigmoidState)
  {
    |st.inputShapes| == |st.data| && |st.outputShapes| == |st.data| &&
    forall i :: 0 <= i < |st.data| ==>
      st.data[i].Sigmoid? &&
      st.inputShapes[i] == ShapeOf(st.data[i].operand) &&
      st.outputShapes[i] == ShapeOf(st.data[i])
  }

  /** The forward transform: a pending sigmoid node. */
  function FeedForwardCal(x: Expr): (y: Expr)
    ensures y.Sigmoid? && y.operand == x
    ensures ShapeOf(y) == ShapeOf(x)
  {
    Sigmoid(x)
  }

  /** FeedForward: the new stacks and the output. */
  function Forward(feedback: bool, st: SigmoidState, x: Expr): (SigmoidState, Expr)
  {
    var res := FeedForwardCal(x);
    if feedback then
      (SigmoidState(st.data + [res], st.inputShapes + [ShapeOf(x)], st.outputShapes + [ShapeOf(res)]), res)
    else
      (st, res)
  }

  /** FeedBackward: the result and the new stacks, step by step in the
      library's order, so that a violation leaves the stacks as the library
      leaves them when it throws. */
  function Backward(feedback: bool, st: SigmoidState, g: Expr): (Result<Grads>, SigmoidState)
  {
    if !feedback then (Success(NoGrads), st)
    else if st.data == [] then (Failure(NoMatchingForward), st)
    else match CheckPop(st.outputShapes, ShapeOf(g))
      case Failure(e) => (Failure(e), st)
      case Success(outputShapes) =>
        var y := Top(st.data);
        var popped := st.(data := Pop(st.data), outputShapes := outputShapes);
        match SigmoidGradOp.Build(g, y)
        case Failure(e) => (Failure(e), popped)
        case Success(res) =>
          match CheckPop(st.inputShapes, ShapeOf(res))
          case Failure(e) => (Failure(e), popped)
          case Success(inputShapes) => (Success(InputGrad(res)), popped.(inputShapes := inputShapes))
  }

  /** With feedback disabled, neither direction touches the stacks and the
      backward result is the empty bundle. */
  lemma DisabledKeepsState(st: SigmoidState, x: Expr, g: Expr)
    ensures Forward(false, st, x).0 == st
    ensures Backward(false, st, g) == (Success(NoGrads), st)
  {
  }

  /** FeedForward keeps the stacks consistent. */
  lemma ForwardConsistent(feedback: bool, st: SigmoidState, x: Expr)
    requires Consistent(st)
    ensures Consistent(Forward(feedback, st, x).0)
  {
  }

  /** What FeedBackward does from consistent stacks: it fails exactly when
      nothing is buffered or the gradient's shape is not the buffered output
      shape, and then leaves the stacks alone; otherwise it pairs g with the
      most recent buffered output, pops all three stacks, and returns a
      gradient of the paired input's shape. */
  lemma {:induction false} BackwardFromConsistent(st: SigmoidState, g: Expr)
    requires Consistent(st)
    ensures var (r, st') := Backward(true, st, g);
      && (r.Success? <==> st.data != [] && ShapeOf(g) == Top(st.outputShapes))
      && (st.data == [] ==> r == Failure(NoMatchingForward))
      && (st.data != [] && r.Failure? ==> r == Failure(ShapeMismatch))
      && (r.Failure? ==> st' == st)
      && (r.Success? ==>
            && r.value == InputGrad(SigmoidGrad(g, Top(st.data)))
            && ShapeOf(r.value.input) == Top(st.inputShapes)
            && st' == SigmoidState(Pop(st.data), Pop(st.inputShapes), Pop(st.outputShapes)))
      && Consistent(st')
  {
    if st.data != [] && ShapeOf(g) == Top(st.outputShapes) {
      var n := |st.data| - 1;
      var y := Top(st.data);
      assert y == st.data[n] && Top(st.outputShapes) == st.outputShapes[n];
      assert ShapeOf(g) == ShapeOf(y);
      var res := SigmoidGradOp.Build(g, y).value;
      assert res == SigmoidGrad(g, y);
      assert ShapeOf(res) == st.inputShapes[n] == Top(st.inputShapes);
      PopConsistent(st);
    }
  }

  /** FeedBackward keeps the stacks consistent, whether it fails or not. */
  lemma BackwardConsistent(feedback: bool, st: SigmoidState, g: Expr)
    requires Consistent(st)
    ensures Consistent(Backward(feedback, st, g).1)
  {
    if feedback {
      BackwardFromConsistent(st, g);
    }
  }

  /** Removing the top of all three stacks keeps them consistent. */
  lemma PopConsistent(st: SigmoidState)
    requires Consistent(st) && st.data != []
    ensures Consistent(SigmoidState(Pop(st.data), Pop(st.inputShapes), Pop(st.outputShapes)))
  {
  }

  /** Backward undoes Forward: a gradient of the forward output's shape is
      paired with that output, and the stacks return to what they were. */
  lemma {:induction false} BackwardAfterForward(st: SigmoidState, x: Expr, g: Expr)
    requires Consistent(st)
    requires ShapeOf(g) == ShapeOf(x)
    ensures Backward(true, Forward(true, st, x).0, g) == (Success(InputGrad(SigmoidGrad(g, Sigmoid(x)))), st)
  {
    var st' := Forward(true, st, x).0;
    ForwardConsistent(true, st, x);
    BackwardFromConsistent(st', g);
    PushPop(st.data, Sigmoid(x));
    PushPop(st.inputShapes, ShapeOf(x));
    PushPop(st.outputShapes, ShapeOf(x));
  }

  /** k forward calls, in order. */
  function ForwardAll(st: SigmoidState, xs: seq<Expr>): SigmoidState
  {
    if xs == [] then st else Forward(true, ForwardAll(st, xs[..|xs| - 1]), xs[|xs| - 1]).0
  }

  /** Backward calls with the gradients `gs` in order, stopping at the first
      violation. */
  function BackwardAll(st: SigmoidState, gs: seq<Expr>): (Result<seq<Grads>>, SigmoidState)
    decreases |gs|
  {
    if gs == [] then (Success([]), st)
    else
      var (r, st') := Backward(true, st, gs[0]);
      match r
      case Failure(e) => (Failure(e), st')
      case Success(grad) =>
        var (rest, st'') := BackwardAll(st', gs[1..]);
        match rest
        case Failure(e) => (Failure(e), st'')
        case Success(grads) => (Success([grad] + grads), st'')
  }

  lemma {:induction false} ForwardAllConsistent(st: SigmoidState, xs: seq<Expr>)
    requires Consistent(st)
    ensures Consistent(ForwardAll(st, xs))
    decreases |xs|
  {
    if xs != [] {
      ForwardAllConsistent(st, xs[..|xs| - 1]);
      ForwardConsistent(true, ForwardAll(st, xs[..|xs| - 1]), xs[|xs| - 1]);
    }
  }

  /** After forward calls with the first m inputs, a backward call with a
      gradient of the m-th input's shape pairs with that input and leaves
      the state of the first m-1 calls. */
  lemma BackwardAfterForwardPrefix(st: SigmoidState, xs: seq<Expr>, m: nat, g: Expr)
    requires Consistent(st)
    requires 0 < m <= |xs|
    requires ShapeOf(g) == ShapeOf(xs[m - 1])
    ensures Backward(true, ForwardAll(st, xs[..m]), g)
         == (Success(InputGrad(SigmoidGrad(g, Sigmoid(xs[m - 1])))), ForwardAll(st, xs[..m - 1]))
  {
    assert xs[..m][..m - 1] == xs[..m - 1];
    ForwardAllConsistent(st, xs[..m - 1]);
    BackwardAfterForward(ForwardAll(st, xs[..m - 1]), xs[m - 1], g);
  }

  /** The gradients k backward calls return after k forward calls: the j-th
      call pairs gs[j] with the output of forward call k-1-j. */
  function LifoPairs(xs: seq<Expr>, gs: seq<Expr>): seq<Grads>
    requires |gs| == |xs|
  {
    seq(|gs|, j requires 0 <= j < |gs| => InputGrad(SigmoidGrad(gs[j], Sigmoid(xs[|xs| - 1 - j]))))
  }

  /** The j-th of k backward calls after k forward calls: it succeeds with
      the j-th LIFO pair and leaves the state of the first k-1-j forward
      calls. */
  lemma LifoStep(st: SigmoidState, xs: seq<Expr>, gs: seq<Expr>, j: nat)
    requires Consistent(st)
    requires |gs| == |xs| && j < |xs|
    requires forall j :: 0 <= j < |gs| ==> ShapeOf(gs[j]) == ShapeOf(xs[|xs| - 1 - j])
    ensures Backward(true, ForwardAll(st, xs[..|xs| - j]), gs[j])
         == (Success(LifoPairs(xs, gs)[j]), ForwardAll(st, xs[..|xs| - j - 1]))
  {
    BackwardAfterForwardPrefix(st, xs, |xs| - j, gs[j]);
  }

  lemma BackwardAllStep(st: SigmoidState, gs: seq<Expr>, grad: Grads, st1: SigmoidState, grads: seq<Grads>, st2: SigmoidState)
    requires gs != []
    requires Backward(true, st, gs[0]) == (Success(grad), st1)
    requires BackwardAll(st1, gs[1..]) == (Success(grads), st2)
    ensures BackwardAll(st, gs) == (Success([grad] + grads), st2)
  {
  }

  lemma LifoPairsStep(xs: seq<Expr>, gs: seq<Expr>)
    requires |gs| == |xs| && xs != []
    ensures LifoPairs(xs, gs) ==
      [InputGrad(SigmoidGrad(gs[0], Sigmoid(xs[|xs| - 1])))] + LifoPairs(xs[..|xs| - 1], gs[1..])
  {
    var front := xs[..|xs| - 1];
    assert forall j :: 0 <= j < |gs| - 1 ==> LifoPairs(xs, gs)[j + 1] == LifoPairs(front, gs[1..])[j];
  }

  /** k forwards followed by k backwards whose gradients have the forward
      shapes in reverse order all succeed, pair LIFO, and restore the stacks. */
  lemma {:induction false} ForwardsThenBackwards(st: SigmoidState, xs: seq<Expr>, gs: seq<Expr>)
    requires Consistent(st)
    requires |gs| == |xs|
    requires forall j :: 0 <= j < |gs| ==> ShapeOf(gs[j]) == ShapeOf(xs[|xs| - 1 - j])
    ensures BackwardAll(ForwardAll(st, xs), gs) == (Success(LifoPairs(xs, gs)), st)
    decreases |xs|
  {
    if xs != [] {
      var k := |xs| - 1;
      var front := xs[..k];
      assert xs[..|xs|] == xs;
      BackwardAfterForwardPrefix(st, xs, |xs|, gs[0]);
      ReversedShapesTail(xs, gs);
      ForwardsThenBackwards(st, front, gs[1..]);
      BackwardAllStep(ForwardAll(st, xs), gs, InputGrad(SigmoidGrad(gs[0], Sigmoid(xs[k]))), ForwardAll(st, front),
                      LifoPairs(front, gs[1..]), st);
      LifoPairsStep(xs, gs);
    } else {
      assert LifoPairs(xs, gs) == [];
    }
  }

  /** Dropping the first gradient and the last input keeps the gradients in
      the reverse shape order of the inputs. */
  lemma ReversedShapesTail(xs: seq<Expr>, gs: seq<Expr>)
    requires |gs| == |xs| && xs != []
    requires forall j :: 0 <= j < |gs| ==> ShapeOf(gs[j]) == ShapeOf(xs[|xs| - 1 - j])
    ensures forall j :: 0 <= j < |gs| - 1 ==> ShapeOf(gs[1..][j]) == ShapeOf(xs[..|xs| - 1][|xs| - 2 - j])
  {
    forall j | 0 <= j < |gs| - 1
      ensures ShapeOf(gs[1..][j]) == ShapeOf(xs[..|xs| - 1][|xs| - 2 - j])
    {
      assert gs[1..][j] == gs[j + 1];
    }
  }

  /** From a neutral layer, the same sequence of calls leaves it neutral. */
  lemma ForwardsThenBackwardsNeutral(xs: seq<Expr>, gs: seq<Expr>)
    requires |gs| == |xs|
    requires forall j :: 0 <= j < |gs| ==> ShapeOf(gs[j]) == ShapeOf(xs[|xs| - 1 - j])
    ensures BackwardAll(ForwardAll(Initial, xs), gs).0.Success?
    ensures Neutral(BackwardAll(ForwardAll(Initial, xs), gs).1)
  {
    ForwardsThenBackwards(Initial, xs, gs);
  }

  class SigmoidLayer {
    const isFeedbackOutput: bool
    var data: seq<Expr>
    const inputShape: ShapeChecker
    const outputShape: ShapeChecker

    ghost predicate Valid()
      reads this
    {
      inputShape != outputShape
    }

    function State(): SigmoidState
      reads this, inputShape, outputShape
    {
      SigmoidState(data, inputShape.stack, outputShape.stack)
    }

    constructor (isFeedbackOutput: bool)
      ensures Valid() && this.isFeedbackOutput == isFeedbackOutput
      ensures State() == Initial
      ensures fresh(inputShape) && fresh(outputShape)
    {
      this.isFeedbackOutput := isFeedbackOutput;
      data := [];
      inputShape := new ShapeChecker();
      outputShape := new ShapeChecker();
    }

    /** Returns the pending sigmoid of `x`; with feedback enabled it buffers
        that output (not `x`) and pushes exactly one shape on each checker. */
    method FeedForward(x: Expr) returns (y: Expr)
      requires Valid()
      modifies this, inputShape, outputShape
      ensures Valid()
      ensures y == Sigmoid(x)
      ensures isFeedbackOutput ==>
        && data == old(data) + [y]
        && inputShape.stack == old(inputShape.stack) + [ShapeOf(x)]
        && outputShape.stack == old(outputShape.stack) + [ShapeOf(y)]
      ensures !isFeedbackOutput ==> State() == old(State())
      ensures (State(), y) == Forward(isFeedbackOutput, old(State()), x)
      ensures Consistent(old(State())) ==> Consistent(State())
    {
      if Consistent(State()) {
        ForwardConsistent(isFeedbackOutput, State(), x);
      }
      y := FeedForwardCal(x);
      if isFeedbackOutput {
        inputShape.Push(ShapeOf(x));
        outputShape.Push(ShapeOf(y));
        data := data + [y];
      }
    }

    method FeedBackward(g: Expr) returns (r: Result<Grads>)
      requires Valid()
      modifies this, inputShape, outputShape
      ensures Valid()
      ensures r == Backward(isFeedbackOutput, old(State()), g).0
      ensures State() == Backward(isFeedbackOutput, old(State()), g).1
      ensures Consistent(old(State())) ==> Consistent(State())
    {
      if Consistent(State()) {
        BackwardConsistent(isFeedbackOutput, State(), g);
      }
      if !isFeedbackOutput {
        return Success(NoGrads);
      }
      if data == [] {
        return Failure(NoMatchingForward);
      }
      var checked := outputShape.CheckAndPop(ShapeOf(g));
      if checked.Fail? {
        return Failure(checked.error);
      }
      var y := Top(data);
      data := Pop(data);
      var built := SigmoidGradOp.Build(g, y);
      if built.Failure? {
        return Failure(built.error);
      }
      var res := built.value;
      checked := inputShape.CheckAndPop(ShapeOf(res));
      if checked.Fail? {
        return Failure(checked.error);
      }
      r := Success(InputGrad(res));
    }

    /** Passes exactly when feedback is disabled or nothing is buffered and
        both shape checkers are empty. */
    method NeutralInvariant() returns (r: Outcome)
      requires Valid()
      ensures r.Pass? <==> !isFeedbackOutput || Neutral(State())
      ensures r.Fail? ==> r.error == (if data != [] then NotNeutral else CheckerNotEmpty)
    {
      if !isFeedbackOutput {
        return Pass;
      }
      if data != [] {
        return Fail(NotNeutral);
      }
      r := inputShape.AssertEmpty();
      if r.Fail? {
        return;
      }
      r := outputShape.AssertEmpty();
    }
  }
}
