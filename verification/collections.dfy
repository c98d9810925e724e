/** Sequence helpers behind the mixer: the set of values a sequence takes
    (how the mixer tests that its inputs agree), sums of samples, and joining
    labels with a separator. */
module Collections {

  /** The set of values `f` takes on the elements of `xs`. */
  function Image<T(==), U(==)>(xs: seq<T>, f: T -> U): set<U> {
    set x | x in xs :: f(x)
  }

  /** `xs` is non-empty and `f` takes the same value on all of its elements. */
  predicate Uniform<T, U(==)>(xs: seq<T>, f: T -> U) {
    |xs| > 0 && forall i :: 0 <= i < |xs| ==> f(xs[i]) == f(xs[0])
  }

  /** The image has exactly one element just when the sequence is non-empty
      and `f` is constant on it; in particular the image of `[]` has size 0. */
  lemma ImageSingletonIffUniform<T, U>(xs: seq<T>, f: T -> U)
    ensures |Image(xs, f)| == 1 <==> Uniform(xs, f)
  {
    var img := Image(xs, f);
    if Uniform(xs, f) {
      var v := f(xs[0]);
      forall y | y in img
        ensures y == v
      {
        var x :| x in xs && f(x) == y;
        var i :| 0 <= i < |xs| && xs[i] == x;
      }
      assert xs[0] in xs;
      assert img == {v};
    } else if |xs| == 0 {
      assert img == {};
    } else {
      var i :| 0 <= i < |xs| && f(xs[i]) != f(xs[0]);
      assert xs[0] in xs && xs[i] in xs;
      assert {f(xs[0]), f(xs[i])} <= img;
      assert |{f(xs[0]), f(xs[i])}| == 2;
      SubsetCard({f(xs[0]), f(xs[i])}, img);
    }
  }

  lemma SubsetCard<U>(a: set<U>, b: set<U>)
    requires a <= b
    ensures |a| <= |b|
  {
    assert b == a + (b - a);
  }

  /** The sum of a sequence of samples, first element first. */
  function Sum(xs: seq<real>): real {
    if |xs| == 0 then 0.0 else xs[0] + Sum(xs[1..])
  }

  /** Appending a sample adds it to the sum. */
  lemma {:induction false} SumAppend(xs: seq<real>, x: real)
    ensures Sum(xs + [x]) == Sum(xs) + x
  {
    if |xs| == 0 {
      assert xs + [x] == [x];
      assert [x][1..] == [];
    } else {
      assert (xs + [x])[1..] == xs[1..] + [x];
      SumAppend(xs[1..], x);
    }
  }

  /** The parts separated by `sep`, as a separator's `join` builds it. */
  function Join(sep: string, parts: seq<string>): string {
    if |parts| == 0 then ""
    else if |parts| == 1 then parts[0]
    else parts[0] + sep + Join(sep, parts[1..])
  }

  /** Joining one more part appends the separator and that part. */
  lemma {:induction false} JoinAppend(sep: string, parts: seq<string>, p: string)
    requires |parts| > 0
    ensures Join(sep, parts + [p]) == Join(sep, parts) + sep + p
  {
    if |parts| == 1 {
      assert (parts + [p])[1..] == [p];
    } else {
      assert (parts + [p])[1..] == parts[1..] + [p];
      JoinAppend(sep, parts[1..], p);
    }
  }
}
