/** Small shared vocabulary: optional values and weighted sums over sequences. */
module Base {

  datatype Option<+T> = None | Some(value: T)

  /** The total weight of the elements of `xs`; with a 0/1 weight this counts them. */
  function Sum<T>(xs: seq<T>, weight: T -> nat): nat {
    if xs == [] then 0 else Sum(xs[..|xs| - 1], weight) + weight(xs[|xs| - 1])
  }

  lemma {:induction false} SumOfConcat<T>(xs: seq<T>, ys: seq<T>, weight: T -> nat)
    ensures Sum(xs + ys, weight) == Sum(xs, weight) + Sum(ys, weight)
  {
    if ys == [] {
      assert xs + ys == xs;
    } else {
      var init, last := ys[..|ys| - 1], ys[|ys| - 1];
      assert (xs + ys)[..|xs + ys| - 1] == xs + init;
      SumOfConcat(xs, init, weight);
    }
  }

  lemma SumOfAppend<T>(xs: seq<T>, x: T, weight: T -> nat)
    ensures Sum(xs + [x], weight) == Sum(xs, weight) + weight(x)
  {
    assert (xs + [x])[..|xs|] == xs;
  }

  lemma SumSplit<T>(xs: seq<T>, i: nat, weight: T -> nat)
    requires i < |xs|
    ensures Sum(xs, weight) == Sum(xs[..i], weight) + weight(xs[i]) + Sum(xs[i + 1..], weight)
  {
    assert xs == xs[..i] + [xs[i]] + xs[i + 1..];
    SumOfConcat(xs[..i] + [xs[i]], xs[i + 1..], weight);
    SumOfAppend(xs[..i], xs[i], weight);
  }

  lemma SumOfUpdate<T>(xs: seq<T>, i: nat, x: T, weight: T -> nat)
    requires i < |xs|
    ensures Sum(xs[i := x], weight) == Sum(xs, weight) - weight(xs[i]) + weight(x)
  {
    SumSplit(xs, i, weight);
    SumSplit(xs[i := x], i, weight);
    assert xs[i := x][..i] == xs[..i];
    assert xs[i := x][i + 1..] == xs[i + 1..];
  }

  lemma SumIsZero<T>(xs: seq<T>, weight: T -> nat)
    ensures Sum(xs, weight) == 0 <==> forall i | 0 <= i < |xs| :: weight(xs[i]) == 0
  {
    if xs == [] {
    } else {
      var init := xs[..|xs| - 1];
      SumIsZero(init, weight);
      assert forall i | 0 <= i < |init| :: xs[i] == init[i];
    }
  }
}
