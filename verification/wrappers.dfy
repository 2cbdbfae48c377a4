/** Shared result types for the triage model: optional values, Python-style
    exceptions as values, and the three states a key of a loosely typed
    JSON-like dictionary can be in. */
module Wrappers {

  /** Python's `Optional[T]`: `None`, or a value. */
  datatype Option<T> = None | Some(value: T) {

    /** `x if x is not None else fallback`. */
    function ValueOr(fallback: T): T {
      if Some? then value else fallback
    }
  }

  /** The exceptions the modelled code raises, kept as values. */
  datatype Exception =
    | KeyError(key: string)
    | RuntimeError(message: string)
    | IntegrityError(constraint: string)

  /** The outcome of a call that returns or raises. The three members below
      let `:-` re-raise an error the way an uncaught Python exception
      leaves the caller. */
  datatype Result<T> = Ok(value: T) | Err(error: Exception) {
    predicate IsFailure() { Err? }

    function PropagateFailure<U>(): Result<U>
      requires Err?
    {
      Err(error)
    }

    function Extract(): T
      requires Ok?
    {
      value
    }
  }

  /** One key of a dictionary: not there at all, present and `None`, or
      present with a value. `d.get(k)` cannot tell the first two apart, but
      `d.get(k, default)` and `d[k]` can. */
  datatype Field<T> = Missing | Null | Val(v: T) {

    /** `d.get(k, default)`: only an absent key takes the default. */
    function GetDefault(default: T): (f: Field<T>)
      ensures !f.Missing?
      ensures f.Null? <==> Null?
      ensures Val? ==> f == this
    {
      if Missing? then Val(default) else this
    }
  }

  /** `d.get(k) or ""` on a string-valued key: absent, `None` and `""` all
      give the empty string. */
  function OrEmpty(f: Field<string>): (s: string)
    ensures s == "" <==> !f.Val? || f.v == ""
    ensures s != "" ==> f == Val(s)
  {
    if f.Val? then f.v else ""
  }

  /** `bool(d.get(k))` on a boolean-valued key. */
  predicate Truthy(f: Field<bool>) {
    f == Val(true)
  }

  /** A Python value that is `None` or a string, as stored in a dictionary. */
  function FromOption(o: Option<string>): (f: Field<string>)
    ensures f != Missing
  {
    if o.Some? then Val(o.value) else Null
  }

  /** How many elements at the front of `xs` `f` accepts. */
  function LeadingOk<A, B>(f: A -> Result<B>, xs: seq<A>): (k: nat)
    ensures k <= |xs|
    ensures forall j | 0 <= j < k :: f(xs[j]).Ok?
    ensures k < |xs| ==> f(xs[k]).Err?
  {
    if xs == [] || f(xs[0]).Err? then 0 else 1 + LeadingOk(f, xs[1..])
  }

  /** A loop that applies `f` to each element in order and stops at the
      first exception: all results, or the first element's error. */
  function MapAll<A, B>(f: A -> Result<B>, xs: seq<A>): (r: Result<seq<B>>)
    ensures r.Ok? <==> forall i | 0 <= i < |xs| :: f(xs[i]).Ok?
    ensures r.Ok? ==> |r.value| == |xs| && forall i | 0 <= i < |xs| :: r.value[i] == f(xs[i]).value
    ensures r.Err? ==> LeadingOk(f, xs) < |xs| && r.error == f(xs[LeadingOk(f, xs)]).error
  {
    if xs == [] then Ok([])
    else
      var first := f(xs[0]);
      if first.Err? then Err(first.error)
      else
        var rest := MapAll(f, xs[1..]);
        if rest.Err? then Err(rest.error)
        else Ok([first.value] + rest.value)
  }
}
