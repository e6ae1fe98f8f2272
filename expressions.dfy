/** Lazy expression nodes. A layer's FeedForward and FeedBackward do not
    compute values: they build operator nodes over existing nodes, and each
    node can report its shape without being evaluated. */
module Expressions {
  import opened Shapes

  /** A materialised tensor: a shape and its dense element buffer. Element
      values are integers, so that the elementwise formulas can be stated
      exactly. */
  datatype Tensor = Tensor(shape: Shape, values: seq<int>)

  datatype Expr =
    | Leaf(tensor: Tensor)
    | Sigmoid(operand: Expr)                          // 1/(1+e^-x), elementwise
    | SigmoidGrad(grad: Expr, output: Expr)           // grad * y * (1 - y), y the sigmoid output
    | Negative(operand: Expr)                         // -x, elementwise
    | Duplicate(operand: Expr, target: Shape)         // repeat along new leading axes
    | Collapse(operand: Expr, target: Shape)          // sum back down to `target`
    | Interpolate(weight1: Expr, weight2: Expr, lambda: Expr)  // lambda*w1 + (1-lambda)*w2
    | Mul(left: Expr, right: Expr)                    // elementwise product
    | Sub(left: Expr, right: Expr)                    // elementwise difference
    | OneMinus(operand: Expr)                         // 1 - x, elementwise

  /** The shape a node reports; nothing is evaluated to obtain it. A
      SigmoidGrad node has its gradient operand's shape, because its
      evaluation unit allocates the output with that shape; Duplicate and
      Collapse have their target shape. */
  function ShapeOf(e: Expr): Shape
  {
    match e
    case Leaf(t) => t.shape
    case Sigmoid(x) => ShapeOf(x)
    case SigmoidGrad(g, _) => ShapeOf(g)
    case Negative(x) => ShapeOf(x)
    case Duplicate(_, s) => s
    case Collapse(_, s) => s
    case Interpolate(w1, _, _) => ShapeOf(w1)
    case Mul(a, _) => ShapeOf(a)
    case Sub(a, _) => ShapeOf(a)
    case OneMinus(x) => ShapeOf(x)
  }
}
