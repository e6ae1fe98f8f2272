/** Sequences of calls on the interpolation layer's specification: k
    forward calls followed by k backward calls, paired last in, first out. */
module InterpolateSequences {
  import opened Results
  import opened Shapes
  import opened Expressions
  import opened InterpolateLayers

  /** The operands of one forward call. */
  datatype Operands = Operands(v1: Expr, v2: Expr, lambda: Expr)

  /** The operands have a common promoted shape, so FeedForward succeeds. */
  predicate Promotable(op: Operands)
  {
    FeedForwardCal(op.v1, op.v2, op.lambda).Success?
  }

  /** The shape of the forward result, which FeedForward pushes on the
      output checker. */
  function ResultShape(op: Operands): Shape
    requires Promotable(op)
  {
    ShapeOf(FeedForwardCal(op.v1, op.v2, op.lambda).value)
  }

  /** The bundle a backward call with `g` returns for the operands `op`:
      each gradient collapsed to its operand's shape. */
  function GradsFor(op: Operands, g: Expr): (r: Grads)
    ensures r.Grads?
    ensures ShapeOf(r.weight1) == ShapeOf(op.v1) && ShapeOf(r.weight2) == ShapeOf(op.v2)
    ensures ShapeOf(r.lambda) == ShapeOf(op.lambda)
  {
    Grads(Collapse(GradWeight1(g, op.lambda), ShapeOf(op.v1)),
          Collapse(GradWeight2(g, op.lambda), ShapeOf(op.v2)),
          Collapse(GradLambda(g, op.v1, op.v2), ShapeOf(op.lambda)))
  }

  /** Forward calls with feedback, in order. */
  function ForwardAll(st: InterpolateState, ops: seq<Operands>): InterpolateState
  {
    if ops == [] then st
    else
      var op := ops[|ops| - 1];
      Forward(true, ForwardAll(st, ops[..|ops| - 1]), op.v1, op.v2, op.lambda).1
  }

  /** Backward calls with the gradients `gs` in order, stopping at the first
      violation. */
  function BackwardAll(st: InterpolateState, gs: seq<Expr>): (Result<seq<Grads>>, InterpolateState)
    decreases |gs|
  {
    if gs == [] then (Success([]), st)
    else
      var (r, st') := Backward(true, st, gs[0]);
      match r
      case Failure(e) => (Failure(e), st')
      case Success(grad) =>
        var (rest, st'') := BackwardAll(st', gs[1..]);
        match rest
        case Failure(e) => (Failure(e), st'')
        case Success(grads) => (Success([grad] + grads), st'')
  }

  /** Every forward call can promote its operands, and the j-th gradient has
      the result shape of forward call k-1-j. */
  predicate ReverseMatched(ops: seq<Operands>, gs: seq<Expr>)
  {
    |gs| == |ops| && forall j :: 0 <= j < |gs| ==> MatchedAt(ops, gs, j)
  }

  /** The j-th gradient has the result shape of forward call k-1-j. */
  predicate MatchedAt(ops: seq<Operands>, gs: seq<Expr>, j: int)
    requires |gs| == |ops| && 0 <= j < |gs|
  {
    Promotable(ops[|ops| - 1 - j]) && ShapeOf(gs[j]) == ResultShape(ops[|ops| - 1 - j])
  }

  /** The bundles k backward calls return after k forward calls: the j-th
      call gets the gradients of the operands of forward call k-1-j. */
  function LifoPairs(ops: seq<Operands>, gs: seq<Expr>): seq<Grads>
    requires |gs| == |ops|
  {
    seq(|gs|, j requires 0 <= j < |gs| => GradsFor(ops[|ops| - 1 - j], gs[j]))
  }

  /** The first gradient matches the last forward call. */
  lemma ReverseMatchedFirst(ops: seq<Operands>, gs: seq<Expr>)
    requires ReverseMatched(ops, gs) && ops != []
    ensures Promotable(ops[|ops| - 1]) && ShapeOf(gs[0]) == ResultShape(ops[|ops| - 1])
  {
    assert MatchedAt(ops, gs, 0);
  }

  lemma ReverseMatchedTail(ops: seq<Operands>, gs: seq<Expr>)
    requires ReverseMatched(ops, gs) && ops != []
    ensures ReverseMatched(ops[..|ops| - 1], gs[1..])
  {
    var front := ops[..|ops| - 1];
    forall j | 0 <= j < |gs| - 1
      ensures MatchedAt(front, gs[1..], j)
    {
      assert MatchedAt(ops, gs, j + 1);
      assert gs[1..][j] == gs[j + 1];
      assert front[|front| - 1 - j] == ops[|ops| - 1 - (j + 1)];
    }
  }

  lemma BackwardAllStep(st: InterpolateState, gs: seq<Expr>, grad: Grads, st1: InterpolateState,
                        grads: seq<Grads>, st2: InterpolateState)
    requires gs != []
    requires Backward(true, st, gs[0]) == (Success(grad), st1)
    requires BackwardAll(st1, gs[1..]) == (Success(grads), st2)
    ensures BackwardAll(st, gs) == (Success([grad] + grads), st2)
  {
  }

  lemma LifoPairsStep(ops: seq<Operands>, gs: seq<Expr>)
    requires |gs| == |ops| && ops != []
    ensures LifoPairs(ops, gs) == [GradsFor(ops[|ops| - 1], gs[0])] + LifoPairs(ops[..|ops| - 1], gs[1..])
  {
    var front := ops[..|ops| - 1];
    assert forall j :: 0 <= j < |gs| - 1 ==> LifoPairs(ops, gs)[j + 1] == LifoPairs(front, gs[1..])[j];
  }

  /** k forward calls followed by k backward calls whose gradients have the
      result shapes in reverse order all succeed, each backward call gets
      the gradients of the operands of the matching forward call (LIFO), and
      the stacks return to what they were, from any stacks. */
  lemma {:induction false} ForwardsThenBackwards(st: InterpolateState, ops: seq<Operands>, gs: seq<Expr>)
    requires ReverseMatched(ops, gs)
    ensures BackwardAll(ForwardAll(st, ops), gs) == (Success(LifoPairs(ops, gs)), st)
    decreases |ops|
  {
    if ops != [] {
      var k := |ops| - 1;
      var front, op := ops[..k], ops[k];
      ReverseMatchedFirst(ops, gs);
      BackwardAfterForward(ForwardAll(st, front), op.v1, op.v2, op.lambda, gs[0]);
      ReverseMatchedTail(ops, gs);
      ForwardsThenBackwards(st, front, gs[1..]);
      BackwardAllStep(ForwardAll(st, ops), gs, GradsFor(op, gs[0]), ForwardAll(st, front),
                      LifoPairs(front, gs[1..]), st);
      LifoPairsStep(ops, gs);
    } else {
      assert LifoPairs(ops, gs) == [];
    }
  }

  /** From a fresh layer, such a sequence succeeds and leaves the layer
      neutral. */
  lemma ForwardsThenBackwardsNeutral(ops: seq<Operands>, gs: seq<Expr>)
    requires ReverseMatched(ops, gs)
    ensures BackwardAll(ForwardAll(Initial, ops), gs).0.Success?
    ensures Neutral(BackwardAll(ForwardAll(Initial, ops), gs).1)
  {
    ForwardsThenBackwards(Initial, ops, gs);
  }
}
