/** Failure-compatible wrappers shared by the whole model: a value that may be
    missing (a Python `None`, a pandas NaN, an absent dictionary key) and the
    outcome of a call that may raise. */
module Wrappers {

  datatype Option<+T> = None | Some(value: T) {
    /** The value, or `default` when it is missing. */
    function GetOr(default: T): T {
      match this
      case Some(v) => v
      case None => default
    }
  }

  /** A key of a parsed JSON object: absent, holding null, or holding a value. */
  datatype Entry<+T> = Absent | Null | Present(value: T) {
    /** `d.get(k, default)`: the default only for an absent key; a null reads
        as Python's `None`. */
    function Get(default: T): (r: Option<T>)
      ensures r.None? <==> this.Null?
      ensures r.Some? ==> r.value == (if this.Present? then value else default)
    {
      match this
      case Absent => Some(default)
      case Null => None
      case Present(v) => Some(v)
    }

    /** `d.get(k)`: `None` for an absent key and for a null. */
    function Read(): (r: Option<T>)
      ensures r.Some? <==> this.Present?
    {
      if this.Present? then Some(value) else None
    }
  }

  /** `Failure(message)` stands for a raised exception and its message. */
  datatype Result<+R> = Success(value: R) | Failure(error: string)

  /** Applies `f` to every element in order; the first failure is the
      outcome (a pandas `apply` whose function raises). */
  function MapAll<A, B>(f: A -> Result<B>, xs: seq<A>): (r: Result<seq<B>>)
    ensures r.Success? <==> forall i :: 0 <= i < |xs| ==> f(xs[i]).Success?
    ensures r.Success? ==> |r.value| == |xs| && forall i :: 0 <= i < |xs| ==> f(xs[i]) == Success(r.value[i])
  {
    if xs == [] then Success([])
    else
      var init := xs[..|xs| - 1];
      match MapAll(f, init)
      case Failure(e) => Failure(e)
      case Success(ys) =>
        match f(xs[|xs| - 1])
        case Failure(e) => Failure(e)
        case Success(y) => Success(ys + [y])
  }
}
