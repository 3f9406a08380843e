/** Option and Result, and the "evaluate in order, stop at the first exception"
    traversal that every page loop and list comprehension of the service follows. */
module Wrappers {

  datatype Option<+T> = None | Some(value: T)

  /** A Python call that either returns a value or raises; the error is `str(e)`
      or whatever the caller needs to know about the exception. */
  datatype Result<+T, +E> = Success(value: T) | Failure(error: E) {
    predicate IsFailure() {
      Failure?
    }

    function PropagateFailure<U>(): Result<U, E>
      requires Failure?
    {
      Failure(error)
    }

    function Extract(): T
      requires Success?
    {
      value
    }
  }

  /** Applies `f` to the elements of `xs` from first to last and collects the
      results, stopping at the first element whose call fails; that failure is
      the result. Defined from the back so that a loop extending a prefix by
      one element follows the definition step by step. */
  function MapAll<A, B, E>(xs: seq<A>, f: A -> Result<B, E>): Result<seq<B>, E>
    decreases |xs|
  {
    if xs == [] then Success([])
    else
      match MapAll(xs[..|xs| - 1], f)
      case Failure(e) => Failure(e)
      case Success(ys) =>
        match f(xs[|xs| - 1])
        case Failure(e) => Failure(e)
        case Success(y) => Success(ys + [y])
  }

  /** MapAll succeeds exactly when every call succeeds, and then the i-th
      result is the value of the i-th call. */
  lemma {:induction false} MapAllSuccess<A, B, E>(xs: seq<A>, f: A -> Result<B, E>)
    ensures MapAll(xs, f).Success? <==> forall i :: 0 <= i < |xs| ==> f(xs[i]).Success?
    ensures MapAll(xs, f).Success? ==>
              |MapAll(xs, f).value| == |xs| &&
              forall i :: 0 <= i < |xs| ==> MapAll(xs, f).value[i] == f(xs[i]).value
    decreases |xs|
  {
    if xs != [] {
      var init := xs[..|xs| - 1];
      MapAllSuccess(init, f);
      assert forall i :: 0 <= i < |init| ==> init[i] == xs[i];
    }
  }

  /** A failing MapAll reports the error of the first element whose call
      fails; every element before it succeeded. */
  lemma {:induction false} MapAllFailure<A, B, E>(xs: seq<A>, f: A -> Result<B, E>)
    requires MapAll(xs, f).Failure?
    ensures FirstFailure(xs, f) < |xs|
    ensures f(xs[FirstFailure(xs, f)]) == Failure(MapAll(xs, f).error)
    ensures forall j :: 0 <= j < FirstFailure(xs, f) ==> f(xs[j]).Success?
    decreases |xs|
  {
    var init := xs[..|xs| - 1];
    assert forall i :: 0 <= i < |init| ==> init[i] == xs[i];
    if MapAll(init, f).Failure? {
      MapAllFailure(init, f);
      FirstFailurePrefix(xs, f);
    } else {
      MapAllSuccess(init, f);
      FirstFailurePrefix(xs, f);
    }
  }

  /** The index of the first element whose call fails, or |xs| when none does:
      the number of calls made before the exception, not counting the failing one. */
  function FirstFailure<A, B, E>(xs: seq<A>, f: A -> Result<B, E>): (k: nat)
    ensures k <= |xs|
    ensures forall j :: 0 <= j < k ==> f(xs[j]).Success?
    ensures k < |xs| ==> f(xs[k]).Failure?
    decreases |xs|
  {
    if xs == [] then 0
    else if f(xs[0]).Failure? then 0
    else 1 + FirstFailure(xs[1..], f)
  }

  /** Dropping the last element does not move a failure found before it. */
  lemma {:induction false} FirstFailurePrefix<A, B, E>(xs: seq<A>, f: A -> Result<B, E>)
    requires xs != []
    ensures var init := xs[..|xs| - 1];
            if FirstFailure(init, f) < |init| then FirstFailure(xs, f) == FirstFailure(init, f)
            else FirstFailure(xs, f) >= |init|
  {
    var init := xs[..|xs| - 1];
    var k := FirstFailure(init, f);
    var m := FirstFailure(xs, f);
    assert forall i :: 0 <= i < |init| ==> init[i] == xs[i];
  }

  /** The number of calls MapAll makes: all of them on success, up to and
      including the failing one otherwise. */
  function CallsMade<A, B, E>(xs: seq<A>, f: A -> Result<B, E>): (n: nat)
    ensures n <= |xs|
  {
    var k := FirstFailure(xs, f);
    if k < |xs| then k + 1 else k
  }

  /** The calls before `i` succeed and the call at `i` fails: `i` is where
      MapAll stops, after `i + 1` calls. */
  lemma FailureAt<A, B, E>(xs: seq<A>, f: A -> Result<B, E>, i: nat)
    requires i < |xs| && f(xs[i]).Failure?
    requires forall j :: 0 <= j < i ==> f(xs[j]).Success?
    ensures FirstFailure(xs, f) == i && CallsMade(xs, f) == i + 1
  {
  }

  /** Every call succeeds: MapAll makes all of them. */
  lemma NoFailure<A, B, E>(xs: seq<A>, f: A -> Result<B, E>)
    requires forall j :: 0 <= j < |xs| ==> f(xs[j]).Success?
    ensures FirstFailure(xs, f) == |xs| && CallsMade(xs, f) == |xs|
  {
  }

  /** A traversal of a prefix extended by one successful call. */
  lemma MapAllStep<A, B, E>(xs: seq<A>, f: A -> Result<B, E>, i: nat, ys: seq<B>)
    requires i < |xs| && MapAll(xs[..i], f) == Success(ys) && f(xs[i]).Success?
    ensures MapAll(xs[..i + 1], f) == Success(ys + [f(xs[i]).value])
  {
    assert xs[..i + 1][..i] == xs[..i];
  }

  /** A traversal whose prefix succeeded and whose next call fails stops
      there, with that error, after `i + 1` calls. */
  lemma MapAllStops<A, B, E>(xs: seq<A>, f: A -> Result<B, E>, i: nat, ys: seq<B>)
    requires i < |xs| && MapAll(xs[..i], f) == Success(ys) && f(xs[i]).Failure?
    ensures MapAll(xs, f) == Failure(f(xs[i]).error)
    ensures CallsMade(xs, f) == i + 1
  {
    assert xs[..i + 1][..i] == xs[..i];
    MapAllFailureExtends(xs, i + 1, f);
    MapAllSuccess(xs[..i], f);
    assert forall j :: 0 <= j < i ==> xs[..i][j] == xs[j];
    FailureAt(xs, f, i);
  }

  /** A traversal that got through every element made every call. */
  lemma MapAllDone<A, B, E>(xs: seq<A>, f: A -> Result<B, E>, ys: seq<B>)
    requires MapAll(xs[..|xs|], f) == Success(ys)
    ensures MapAll(xs, f) == Success(ys) && CallsMade(xs, f) == |xs|
  {
    assert xs[..|xs|] == xs;
    MapAllSuccess(xs, f);
    NoFailure(xs, f);
  }

  /** Once a prefix has failed, the whole traversal fails the same way:
      the calls after it never run. */
  lemma {:induction false} MapAllFailureExtends<A, B, E>(xs: seq<A>, k: nat, f: A -> Result<B, E>)
    requires k <= |xs| && MapAll(xs[..k], f).Failure?
    ensures MapAll(xs, f) == MapAll(xs[..k], f)
    decreases |xs| - k
  {
    if k < |xs| {
      var n := |xs|;
      assert xs[..n - 1][..k] == xs[..k];
      MapAllFailureExtends(xs[..n - 1], k, f);
    } else {
      assert xs[..k] == xs;
    }
  }
}
