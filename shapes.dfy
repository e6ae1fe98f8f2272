/** Shapes: ordered tuples of extents, and the broadcast relation that
    Duplicate, Collapse and ShapePromote rely on. The sources of those three
    helpers are not part of this model; the rule below (an operand is
    repeated along new leading axes, so its shape must be a trailing part of
    the target shape) stands in for them, and only the properties stated
    here are used by the layers. */
module Shapes {
  import opened Results

  type Shape = seq<nat>

  /** Number of elements held by a dense buffer of shape `s`. */
  function Count(s: Shape): nat
  {
    if s == [] then 1 else s[0] * Count(s[1..])
  }

  /** A value of shape `from` can be duplicated to shape `to`: `to` is
      `from` with zero or more axes added in front. */
  predicate CanDuplicate(from: Shape, to: Shape)
    decreases |to|
  {
    from == to || (|from| < |to| && CanDuplicate(from, to[1..]))
  }

  /** The longest of three shapes (the first one on ties). */
  function Longest(a: Shape, b: Shape, c: Shape): (m: Shape)
    ensures m == a || m == b || m == c
    ensures |a| <= |m| && |b| <= |m| && |c| <= |m|
  {
    if |a| >= |b| && |a| >= |c| then a
    else if |b| >= |c| then b
    else c
  }

  /** The common shape the interpolation layer duplicates its three operands
      to, or None when there is no such shape. */
  function ShapePromote(a: Shape, b: Shape, c: Shape): (r: Option<Shape>)
    ensures r.Some? ==> CanDuplicate(a, r.value) && CanDuplicate(b, r.value) && CanDuplicate(c, r.value)
  {
    var m := Longest(a, b, c);
    if CanDuplicate(a, m) && CanDuplicate(b, m) && CanDuplicate(c, m) then Some(m) else None
  }

  /** A shape duplicates to `to` exactly when it is the trailing part of
      `to`. */
  lemma {:induction false} CanDuplicateIsSuffix(from: Shape, to: Shape)
    ensures CanDuplicate(from, to) <==> |from| <= |to| && to[|to| - |from|..] == from
    decreases |to|
  {
    if from != to && |from| < |to| {
      CanDuplicateIsSuffix(from, to[1..]);
      assert to[1..][|to| - 1 - |from|..] == to[|to| - |from|..];
    }
  }

  /** Two shapes that both duplicate to `t` are ordered: the shorter one
      duplicates to the longer one. */
  lemma CommonTargetOrders(x: Shape, y: Shape, t: Shape)
    requires CanDuplicate(x, t) && CanDuplicate(y, t) && |x| <= |y|
    ensures CanDuplicate(x, y)
  {
    CanDuplicateIsSuffix(x, t);
    CanDuplicateIsSuffix(y, t);
    CanDuplicateIsSuffix(x, y);
    assert y[|y| - |x|..] == t[|t| - |y|..][|y| - |x|..];
  }

  /** ShapePromote succeeds exactly when the three shapes have some common
      target, and then its result is the least such target: it duplicates
      to every shape all three operands duplicate to. */
  lemma {:induction false} ShapePromoteIsLeast(a: Shape, b: Shape, c: Shape, t: Shape)
    requires CanDuplicate(a, t) && CanDuplicate(b, t) && CanDuplicate(c, t)
    ensures ShapePromote(a, b, c).Some?
    ensures CanDuplicate(ShapePromote(a, b, c).value, t)
  {
    var m := Longest(a, b, c);
    CommonTargetOrders(a, m, t);
    CommonTargetOrders(b, m, t);
    CommonTargetOrders(c, m, t);
  }
}
