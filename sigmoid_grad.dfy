/** The sigmoid-gradient operator SigmoidGrad(g, y) = g * y * (1 - y), taken
    over the sigmoid's forward OUTPUT y: the builder that checks operand
    shapes, the evaluation unit that fills the output buffer, and the
    registration of that unit with the evaluation plan. */
module SigmoidGradOp {
  import opened Results
  import opened Shapes
  import opened Expressions
  import opened Evaluation

  /** The value of SigmoidGrad over two buffers of equal length. */
  function SigmoidGradValues(g: seq<int>, y: seq<int>): (r: seq<int>)
    requires |g| == |y|
  {
    seq(|g|, i requires 0 <= i < |g| => g[i] * y[i] * (1 - y[i]))
  }

  lemma SigmoidGradValuesAt(g: seq<int>, y: seq<int>, i: nat)
    requires |g| == |y| && i < |g|
    ensures |SigmoidGradValues(g, y)| == |g|
    ensures SigmoidGradValues(g, y)[i] == g[i] * y[i] * (1 - y[i])
  {
  }

  /** The builder: a shape mismatch between the gradient and the forward
      output is reported at build time; otherwise a pending node holding both
      operands is returned and nothing is computed. */
  function Build(g: Expr, y: Expr): (r: Result<Expr>)
    ensures r.Success? <==> ShapeOf(g) == ShapeOf(y)
    ensures r.Failure? ==> r.error == ShapeMismatch
    ensures r.Success? ==> r.value.SigmoidGrad? && r.value.grad == g && r.value.output == y
    ensures r.Success? ==> ShapeOf(r.value) == ShapeOf(y)
  {
    if ShapeOf(g) != ShapeOf(y) then Failure(ShapeMismatch)
    else Success(SigmoidGrad(g, y))
  }

  class EvalUnit {
    const grad: Handle
    const input: Handle
    const output: Handle

    constructor (grad: Handle, input: Handle, output: Handle)
      ensures this.grad == grad && this.input == input && this.output == output
    {
      this.grad := grad;
      this.input := input;
      this.output := output;
    }

    /** Both operands are evaluated and of equal shape; the output is
        allocated with the gradient's shape, every element is written from
        the same index of the operands, and only then is the output marked
        evaluated. The operand buffers are left as they were. */
    method Eval()
      requires grad.Valid() && grad.state == Evaluated
      requires input.Valid() && input.state == Evaluated
      requires grad.shape == input.shape
      requires output.state == Unallocated
      modifies output
      ensures output.Valid() && output.state == Evaluated
      ensures output.shape == grad.shape && fresh(output.mem)
      ensures output.mem.Length == input.mem.Length == grad.mem.Length
      ensures output.mem[..] == SigmoidGradValues(grad.mem[..], input.mem[..])
      ensures grad.mem[..] == old(grad.mem[..]) && input.mem[..] == old(input.mem[..])
    {
      output.Allocate(grad.shape);
      var count := Count(input.shape);
      var g, y, out := grad.mem, input.mem, output.mem;
      for i := 0 to count
        modifies out
        invariant forall k :: 0 <= k < i ==> out[k] == g[k] * y[k] * (1 - y[k])
      {
        out[i] := g[i] * y[i] * (1 - y[i]);
      }
      output.SetEval();
    }
  }

  /** Registers one unit producing `outHandle` from the already registered
      operand handles, keyed by the output handle, with the dependency list
      [gradHandle, inputHandle] in that order. */
  method EvalRegister(plan: EvalPlan, gradHandle: Handle, inputHandle: Handle, outHandle: Handle)
    returns (unit: EvalUnit)
    modifies plan
    ensures fresh(unit)
    ensures unit.grad == gradHandle && unit.input == inputHandle && unit.output == outHandle
    ensures outHandle in plan.registry
    ensures outHandle in old(plan.registry) ==> plan.registry == old(plan.registry)
    ensures outHandle !in old(plan.registry) ==>
      plan.registry == old(plan.registry)[outHandle := Registration(unit, [gradHandle, inputHandle])]
  {
    var deps := [gradHandle, inputHandle];
    unit := new EvalUnit(gradHandle, inputHandle, outHandle);
    plan.Register(unit, outHandle, deps);
  }
}
