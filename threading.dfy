/**
 * A compilation that runs a step over a list in order, threading a counter
 * from one element to the next and stopping at the first error: the shape
 * of the loop that compiles the units of a Logstash processor list.
 */
module Threading {
  import opened Wrappers

  /** Runs `f` over `xs` from counter `c`: the results in order and the final counter, or the first error. */
  function Run<T, U>(f: (T, nat) -> Result<(U, nat)>, xs: seq<T>, c: nat): (r: Result<(seq<U>, nat)>)
    ensures r.Ok? ==> |r.value.0| == |xs|
  {
    if xs == [] then Ok(([], c))
    else
      match Run(f, xs[..|xs| - 1], c)
      case Err(e) => Err(e)
      case Ok((us, c1)) =>
        match f(xs[|xs| - 1], c1)
        case Err(e) => Err(e)
        case Ok((u, c2)) => Ok((us + [u], c2))
  }

  /** The prefixes of a run that succeeds succeed, with the prefixes of its results. */
  lemma {:induction false} RunPrefixOk<T, U>(f: (T, nat) -> Result<(U, nat)>, xs: seq<T>, j: nat, c: nat)
    requires j <= |xs| && Run(f, xs, c).Ok?
    ensures Run(f, xs[..j], c).Ok? && Run(f, xs[..j], c).value.0 == Run(f, xs, c).value.0[..j]
    decreases |xs|
  {
    if j == |xs| {
      assert xs[..j] == xs;
    } else {
      var init := xs[..|xs| - 1];
      RunPrefixOk(f, init, j, c);
      assert init[..j] == xs[..j];
    }
  }

  /**
   * In a run that succeeds, element `k` was run from the counter the
   * elements before it left, and gave the `k`-th result and the counter the
   * first `k + 1` elements leave.
   */
  lemma RunEach<T, U>(f: (T, nat) -> Result<(U, nat)>, xs: seq<T>, k: nat, c: nat)
    requires k < |xs| && Run(f, xs, c).Ok?
    ensures Run(f, xs[..k], c).Ok? && Run(f, xs[..k + 1], c).Ok?
    ensures f(xs[k], Run(f, xs[..k], c).value.1) == Ok((Run(f, xs, c).value.0[k], Run(f, xs[..k + 1], c).value.1))
  {
    RunPrefixOk(f, xs, k, c);
    RunPrefixOk(f, xs, k + 1, c);
    var q := xs[..k + 1];
    assert q[..k] == xs[..k] && q[k] == xs[k];
    var all := Run(f, xs, c).value.0;
    assert all[..k + 1][k] == all[k];
  }

  /**
   * A run that fails, fails at its first element that does: the elements
   * before `k` succeed, element `k` fails with the run's error, and the
   * elements after it play no part in the result.
   */
  lemma {:induction false} RunFirstError<T, U>(f: (T, nat) -> Result<(U, nat)>, xs: seq<T>, c: nat) returns (k: nat)
    requires Run(f, xs, c).Err?
    ensures k < |xs| && Run(f, xs[..k], c).Ok?
    ensures f(xs[k], Run(f, xs[..k], c).value.1) == Err(Run(f, xs, c).error)
    ensures Run(f, xs[..k + 1], c) == Run(f, xs, c)
    decreases |xs|
  {
    var n := |xs| - 1;
    var init := xs[..n];
    if Run(f, init, c).Err? {
      k := RunFirstError(f, init, c);
      assert init[..k] == xs[..k] && init[..k + 1] == xs[..k + 1] && init[k] == xs[k];
    } else {
      k := n;
      assert xs[..k] == init && xs[..k + 1] == xs;
    }
  }

  /** Applies `f` to each of `xs` in order: all the results, or the first error. */
  function All<T, U>(f: T -> Result<U>, xs: seq<T>): (r: Result<seq<U>>)
    ensures r.Ok? ==> |r.value| == |xs|
  {
    if xs == [] then Ok([])
    else
      match All(f, xs[..|xs| - 1])
      case Err(e) => Err(e)
      case Ok(us) =>
        match f(xs[|xs| - 1])
        case Err(e) => Err(e)
        case Ok(u) => Ok(us + [u])
  }

  /** `All` succeeds exactly when `f` succeeds on every element, and then gives `f`'s results in order. */
  lemma {:induction false} AllOk<T, U>(f: T -> Result<U>, xs: seq<T>)
    ensures All(f, xs).Ok? <==> forall i :: 0 <= i < |xs| ==> f(xs[i]).Ok?
    ensures All(f, xs).Ok? ==> forall i :: 0 <= i < |xs| ==> f(xs[i]) == Ok(All(f, xs).value[i])
    decreases |xs|
  {
    if xs != [] {
      var n := |xs| - 1;
      var init := xs[..n];
      AllOk(f, init);
      assert forall i :: 0 <= i < n ==> init[i] == xs[i];
    }
  }

  /** A failing `All` fails with the error of the first element `f` fails on. */
  lemma {:induction false} AllFirstError<T, U>(f: T -> Result<U>, xs: seq<T>) returns (k: nat)
    requires All(f, xs).Err?
    ensures k < |xs| && f(xs[k]) == Err(All(f, xs).error)
    ensures forall i :: 0 <= i < k ==> f(xs[i]).Ok?
    decreases |xs|
  {
    var n := |xs| - 1;
    var init := xs[..n];
    assert forall i :: 0 <= i < n ==> init[i] == xs[i];
    if All(f, init).Err? {
      k := AllFirstError(f, init);
    } else {
      AllOk(f, init);
      k := n;
    }
  }
}
