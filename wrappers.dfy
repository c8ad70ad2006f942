/** Optional values, results with an error path, and the first-error traversal
  * that every statement builder below uses when it coerces a list of values. */
module Wrappers {

  datatype Option<+T> = None | Some(value: T)
  {
    predicate IsFailure()
    {
      None?
    }

    function PropagateFailure<U>(): Option<U>
      requires None?
    {
      None
    }

    function Extract(): T
      requires Some?
    {
      value
    }

    function GetOr(default: T): T
    {
      match this
      case None => default
      case Some(v) => v
    }
  }

  /** A Java method that returns `T` or throws `E`. */
  datatype Result<+T, +E> = Ok(value: T) | Err(error: E)
  {
    predicate IsFailure()
    {
      Err?
    }

    function PropagateFailure<U>(): Result<U, E>
      requires Err?
    {
      Err(error)
    }

    function Extract(): T
      requires Ok?
    {
      value
    }
  }

  /** Applies `f` to every element from left to right and stops at the first
    * element it fails on, as a Java loop that calls a throwing method does. */
  function MapAll<A, B, E>(f: A -> Result<B, E>, xs: seq<A>): (r: Result<seq<B>, E>)
    ensures r.Ok? <==> forall i :: 0 <= i < |xs| ==> f(xs[i]).Ok?
    ensures r.Ok? ==> |r.value| == |xs| && forall i :: 0 <= i < |xs| ==> f(xs[i]) == Ok(r.value[i])
    ensures r.Err? ==> exists i :: FirstFailure(f, xs, i) && f(xs[i]) == Err(r.error)
    decreases |xs|
  {
    if xs == [] then Ok([])
    else
      var init := MapAll(f, xs[..|xs| - 1]);
      if init.Err? then
        assert forall i :: FirstFailure(f, xs[..|xs| - 1], i) ==> FirstFailure(f, xs, i);
        Err(init.error)
      else
        var last := f(xs[|xs| - 1]);
        if last.Err? then
          assert FirstFailure(f, xs, |xs| - 1);
          Err(last.error)
        else
          Ok(init.value + [last.value])
  }

  /** Index `i` is the first element of `xs` that `f` fails on. */
  ghost predicate FirstFailure<A, B, E>(f: A -> Result<B, E>, xs: seq<A>, i: int)
  {
    0 <= i < |xs| && f(xs[i]).Err? && forall j :: 0 <= j < i ==> f(xs[j]).Ok?
  }

  /** One more successful element extends the traversal of a prefix. */
  lemma MapAllStep<A, B, E>(f: A -> Result<B, E>, xs: seq<A>, i: nat, done: seq<B>, v: B)
    requires i < |xs| && MapAll(f, xs[..i]) == Ok(done) && f(xs[i]) == Ok(v)
    ensures MapAll(f, xs[..i + 1]) == Ok(done + [v])
  {
    assert xs[..i + 1][..i] == xs[..i];
  }

  /** A failure after a successful prefix is the failure of the whole traversal. */
  lemma {:induction false} MapAllFailsAt<A, B, E>(f: A -> Result<B, E>, xs: seq<A>, i: nat)
    requires i < |xs| && MapAll(f, xs[..i]).Ok? && f(xs[i]).Err?
    ensures MapAll(f, xs) == Err(f(xs[i]).error)
  {
    var r := MapAll(f, xs);
    assert r.Err?;
    var k :| FirstFailure(f, xs, k) && f(xs[k]) == Err(r.error);
    assert forall j :: 0 <= j < i ==> f(xs[j]).Ok? by {
      forall j | 0 <= j < i ensures f(xs[j]).Ok? {
        assert xs[..i][j] == xs[j];
      }
    }
    assert k == i;
  }
}
