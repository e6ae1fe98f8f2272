/** The shape checker a layer uses to pair every backward-time shape with
    the shape pushed by the matching forward call, in reverse order. */
module ShapeCheckers {
  import opened Results
  import opened Shapes
  import opened Stacks

  /** CheckAndPop on a stack of shapes: fails when nothing was pushed or
      when the most recently pushed shape is not `s`; otherwise removes it. */
  function CheckPop(stack: seq<Shape>, s: Shape): (r: Result<seq<Shape>>)
    ensures r.Success? <==> stack != [] && Top(stack) == s
    ensures r.Success? ==> r.value == Pop(stack) && r.value + [s] == stack
    ensures r.Failure? ==> r.error == (if stack == [] then CheckerEmpty else ShapeMismatch)
  {
    if stack == [] then Failure(CheckerEmpty)
    else if Top(stack) != s then Failure(ShapeMismatch)
    else Success(Pop(stack))
  }

  /** A shape pushed and then checked against the same shape is accepted,
      and the stack is what it was before the push. */
  lemma CheckPopUndoesPush(stack: seq<Shape>, s: Shape, t: Shape)
    ensures CheckPop(stack + [s], t) == if s == t then Success(stack) else Failure(ShapeMismatch)
  {
    PushPop(stack, s);
  }

  class ShapeChecker {
    var stack: seq<Shape>

    constructor ()
      ensures stack == []
    {
      stack := [];
    }

    method Push(s: Shape)
      modifies this
      ensures stack == old(stack) + [s]
    {
      stack := stack + [s];
    }

    /** Fails, leaving the stack as it is, when it is empty or its top is not
        `s`; otherwise pops the top. */
    method CheckAndPop(s: Shape) returns (r: Outcome)
      modifies this
      ensures r.Pass? <==> old(stack) != [] && Top(old(stack)) == s
      ensures r.Pass? ==> stack + [s] == old(stack)
      ensures r.Fail? ==> stack == old(stack) && r.error == CheckPop(old(stack), s).error
      ensures CheckPop(old(stack), s) == if r.Pass? then Success(stack) else Failure(r.error)
    {
      if stack == [] {
        return Fail(CheckerEmpty);
      }
      if Top(stack) != s {
        return Fail(ShapeMismatch);
      }
      stack := Pop(stack);
      r := Pass;
    }

    method AssertEmpty() returns (r: Outcome)
      ensures r.Pass? <==> stack == []
      ensures r.Fail? ==> r.error == CheckerNotEmpty
    {
      r := if stack == [] then Pass else Fail(CheckerNotEmpty);
    }
  }
}
