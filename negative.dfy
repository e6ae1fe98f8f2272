/** The elementwise negation operator: the lazy `operator-` builder and the
    evaluation unit that computes `-x` into a freshly allocated buffer. */
module NegativeOp {
  import opened Shapes
  import opened Expressions
  import opened Evaluation

  /** The value of the negation of a buffer. */
  function NegativeValues(s: seq<int>): (r: seq<int>)
  {
    seq(|s|, i requires 0 <= i < |s| => -s[i])
  }

  lemma NegativeValuesAt(s: seq<int>, i: nat)
    requires i < |s|
    ensures |NegativeValues(s)| == |s| && NegativeValues(s)[i] == -s[i]
  {
  }

  /** Negating twice gives back the input: -(-x) == x elementwise. */
  lemma NegativeInvolution(s: seq<int>)
    ensures NegativeValues(NegativeValues(s)) == s
  {
  }

  /** Unary minus only builds a pending node over its operand; the node has
      the operand's shape and nothing is computed. */
  function Negate(x: Expr): (r: Expr)
    ensures r.Negative? && r.operand == x
    ensures ShapeOf(r) == ShapeOf(x)
  {
    Negative(x)
  }

  class EvalUnit {
    const input: Handle
    const output: Handle

    constructor (input: Handle, output: Handle)
      ensures this.input == input && this.output == output
    {
      this.input := input;
      this.output := output;
    }

    /** Allocates the output with the input's shape, writes `-in[i]` at
        every index, and only then marks the output evaluated. The input
        buffer is left as it was. */
    method Eval()
      requires input.Valid() && input.state == Evaluated
      requires output.state == Unallocated
      modifies output
      ensures output.Valid() && output.state == Evaluated
      ensures output.shape == input.shape && fresh(output.mem)
      ensures output.mem[..] == NegativeValues(input.mem[..])
      ensures input.mem[..] == old(input.mem[..])
    {
      output.Allocate(input.shape);
      var count := Count(input.shape);
      var src, dst := input.mem, output.mem;
      for i := 0 to count
        modifies dst
        invariant forall k :: 0 <= k < i ==> dst[k] == -src[k]
      {
        dst[i] := -src[i];
      }
      output.SetEval();
    }
  }
}
