/** Integrands on tetrahedra: the constant function and a decorator that
    records every evaluation of the function it wraps. */
module Functions3D {
  import opened Wrappers
  import opened Domain3D

  /** `Constant3DFunction`: 1 everywhere. */
  function Constant(xi1: real, xi2: real, xi3: real, xi4: real, s: Simplex3D): (r: real)
    ensures r == 1.0
  {
    1.0
  }

  /** The constant function read through the vector form is 1 wherever the
      vector has its four coordinates, and a panic otherwise. */
  lemma ConstantVec(xi: seq<real>, s: Simplex3D)
    ensures FunctionVec(Constant, xi, s) == if |xi| >= 4 then Ok(1.0) else Err(IndexOutOfBounds)
  {
  }

  /** One recorded evaluation: the barycentric coordinates and the value. */
  type Evaluation = (seq<real>, real)

  /** `Function3DHistory`: a wrapped integrand and the log of its evaluations,
      oldest first. */
  class FunctionHistory {
    var history: seq<Evaluation>
    const wrapped: Integrand3D

    /** `new`: wraps the function with an empty log. */
    constructor (func: Integrand3D)
      ensures history == [] && wrapped == func
    {
      history := [];
      wrapped := func;
    }

    /** `get_history`: hands out the whole log in call order, leaving it empty. */
    method GetHistory() returns (h: seq<Evaluation>)
      modifies this
      ensures h == old(history) && history == []
    {
      h := history;
      history := [];
    }

    /** `function_evaluations`: how many evaluations have been recorded. */
    function FunctionEvaluations(): (n: nat)
      reads this
      ensures n == |history|
    {
      |history|
    }

    /** `delete_history`: empties the log. */
    method DeleteHistory()
      modifies this
      ensures history == []
    {
      history := [];
    }

    /** `function`: evaluates the wrapped function and appends the
        coordinates and the value to the end of the log. */
    method Function(xi1: real, xi2: real, xi3: real, xi4: real, s: Simplex3D) returns (r: real)
      modifies this
      ensures r == wrapped(xi1, xi2, xi3, xi4, s)
      ensures history == old(history) + [([xi1, xi2, xi3, xi4], r)]
    {
      r := wrapped(xi1, xi2, xi3, xi4, s);
      history := history + [([xi1, xi2, xi3, xi4], r)];
    }
  }

  /** A log records a run of evaluations of f: each entry holds four
      coordinates and the value f takes there. */
  ghost predicate Faithful(f: Integrand3D, s: Simplex3D, log: seq<Evaluation>)
  {
    forall k :: 0 <= k < |log| ==> |log[k].0| == 4 && log[k].1 == f(log[k].0[0], log[k].0[1], log[k].0[2], log[k].0[3], s)
  }

  /** Evaluating through the decorator keeps every log entry faithful to the
      wrapped function, counts one more evaluation, and does not rewrite
      earlier entries. */
  method RecordFaithfully(h: FunctionHistory, xi1: real, xi2: real, xi3: real, xi4: real, s: Simplex3D) returns (r: real)
    requires Faithful(h.wrapped, s, h.history)
    modifies h
    ensures Faithful(h.wrapped, s, h.history)
    ensures h.FunctionEvaluations() == old(h.FunctionEvaluations()) + 1
    ensures h.history[..|h.history| - 1] == old(h.history)
    ensures r == h.wrapped(xi1, xi2, xi3, xi4, s) && h.history[|h.history| - 1] == ([xi1, xi2, xi3, xi4], r)
  {
    r := h.Function(xi1, xi2, xi3, xi4, s);
  }
}
