/** Option and Result, the error-carrying values used across the model, and
    the concatenating fold over a sequence of fallible steps that every
    nested loop of the normalizer is specified with. */
module Wrappers {

  datatype Option<+T> = None | Some(value: T)

  /** A Python exception (or PHP failure) is an `Err`; `:-` propagates it. */
  datatype Result<+T, +E> = Ok(value: T) | Err(error: E) {
    predicate IsFailure() { Err? }

    function PropagateFailure<U>(): Result<U, E>
      requires Err?
    {
      Err(error)
    }

    function Extract(): T
      requires Ok?
    {
      value
    }
  }

  /** Appending to a sequence in two steps is appending once. */
  lemma AppendAssociative<T>(a: seq<T>, b: seq<T>, c: seq<T>)
    ensures (a + b) + c == a + (b + c)
  {
    assert |(a + b) + c| == |a + (b + c)|;
    forall k | 0 <= k < |a| + |b| + |c| ensures ((a + b) + c)[k] == (a + (b + c))[k] {
    }
  }

  /** Runs `f` on every element from left to right, concatenating the
      outputs; the first failure stops the run.  Defined on the last
      element so that a loop over `xs[..i]` extends it one step at a time. */
  function FlatMapResult<T, U, E>(xs: seq<T>, f: T -> Result<seq<U>, E>): Result<seq<U>, E>
  {
    if xs == [] then Ok([])
    else
      match FlatMapResult(xs[..|xs| - 1], f)
      case Err(e) => Err(e)
      case Ok(acc) =>
        match f(xs[|xs| - 1])
        case Err(e) => Err(e)
        case Ok(ys) => Ok(acc + ys)
  }

  /** One more loop iteration over `xs[..i]`. */
  lemma FlatMapResultStep<T, U, E>(xs: seq<T>, i: nat, f: T -> Result<seq<U>, E>)
    requires i < |xs|
    ensures FlatMapResult(xs[..i + 1], f) ==
              match FlatMapResult(xs[..i], f)
              case Err(e) => Err(e)
              case Ok(acc) =>
                match f(xs[i])
                case Err(e) => Err(e)
                case Ok(ys) => Ok(acc + ys)
  {
    assert xs[..i + 1][..i] == xs[..i];
  }

  /** A failure on a prefix is the failure of the whole run. */
  lemma {:induction false} FlatMapResultErrSticks<T, U, E>(xs: seq<T>, i: nat, f: T -> Result<seq<U>, E>)
    requires i <= |xs|
    requires FlatMapResult(xs[..i], f).Err?
    ensures FlatMapResult(xs, f) == FlatMapResult(xs[..i], f)
    decreases |xs| - i
  {
    if i < |xs| {
      FlatMapResultStep(xs, i, f);
      FlatMapResultErrSticks(xs, i + 1, f);
    } else {
      assert xs[..i] == xs;
    }
  }

  /** Every output element satisfies `P` when every step's output does. */
  lemma {:induction false} FlatMapResultAll<T, U, E>(xs: seq<T>, f: T -> Result<seq<U>, E>, P: U -> bool)
    requires forall x :: x in xs && f(x).Ok? ==> forall y :: y in f(x).value ==> P(y)
    ensures FlatMapResult(xs, f).Ok? ==> forall y :: y in FlatMapResult(xs, f).value ==> P(y)
  {
    if xs != [] {
      var init := xs[..|xs| - 1];
      assert forall x :: x in init ==> x in xs;
      FlatMapResultAll(init, f, P);
      assert xs[|xs| - 1] in xs;
    }
  }

  /** The run succeeds exactly when every step does. */
  lemma {:induction false} FlatMapResultOkIff<T, U, E>(xs: seq<T>, f: T -> Result<seq<U>, E>)
    ensures FlatMapResult(xs, f).Ok? <==> forall x :: x in xs ==> f(x).Ok?
  {
    if xs != [] {
      var init := xs[..|xs| - 1];
      assert xs == init + [xs[|xs| - 1]];
      FlatMapResultOkIff(init, f);
    }
  }
}
