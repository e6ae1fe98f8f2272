/** Evaluation handles and the evaluation plan's registry, as far as the
    evaluation units use them. A handle wraps one output slot and moves
    Unallocated -> Allocated -> Evaluated; the plan records, per output
    handle, the unit that produces it and the handles it depends on. */
module Evaluation {
  import opened Shapes

  datatype HandleState = Unallocated | Allocated | Evaluated

  class Handle {
    var state: HandleState
    var shape: Shape
    var mem: array<int>

    /** Once storage exists it holds exactly one element per position of
        the shape. */
    ghost predicate Valid()
      reads this
    {
      state != Unallocated ==> mem.Length == Count(shape)
    }

    /** A handle for an output slot that no unit has produced yet. */
    constructor ()
      ensures Valid() && state == Unallocated
    {
      state := Unallocated;
      shape := [];
      mem := new int[0];
    }

    /** A handle over an already materialised tensor. */
    constructor Materialized(shape: Shape, values: seq<int>)
      requires |values| == Count(shape)
      ensures Valid() && state == Evaluated && this.shape == shape
      ensures fresh(mem) && mem[..] == values
    {
      state := Evaluated;
      this.shape := shape;
      mem := new int[|values|](i requires 0 <= i < |values| => values[i]);
    }

    /** Creates the storage of the slot; its contents are not defined yet. */
    method Allocate(s: Shape)
      requires state == Unallocated
      modifies this
      ensures Valid() && state == Allocated && shape == s && fresh(mem)
    {
      shape := s;
      mem := new int[Count(s)];
      state := Allocated;
    }

    /** The single writer declares the slot readable. */
    method SetEval()
      requires Valid() && state == Allocated
      modifies this
      ensures Valid() && state == Evaluated
      ensures shape == old(shape) && mem == old(mem)
    {
      state := Evaluated;
    }
  }

  /** What the plan stores for one output: the unit that computes it and the
      handles that must be evaluated first, in order. */
  datatype Registration = Registration(unit: object, deps: seq<Handle>)

  class EvalPlan {
    var registry: map<Handle, Registration>

    constructor ()
      ensures registry == map[]
    {
      registry := map[];
    }

    /** Records `unit` as the producer of `out`. An output that already has
        a producer keeps it: it is computed at most once. */
    method Register(unit: object, out: Handle, deps: seq<Handle>)
      modifies this
      ensures out in registry
      ensures out in old(registry) ==> registry == old(registry)
      ensures out !in old(registry) ==> registry == old(registry)[out := Registration(unit, deps)]
    {
      if out !in registry {
        registry := registry[out := Registration(unit, deps)];
      }
    }
  }
}
