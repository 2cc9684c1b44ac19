// Option and Result: the value-or-failure wrappers used throughout the model
// for Python's `None` returns and for raised exceptions.
module Wrappers {
  datatype Option<T> = None | Some(value: T)
  {
    function GetOr(default: T): (r: T)
      ensures Some? ==> r == value
      ensures None? ==> r == default
    {
      match this
      case Some(v) => v
      case None => default
    }
  }

  datatype Result<T, E> = Ok(value: T) | Err(error: E)

  /** The values present in `xs`, in order. */
  function Somes<T>(xs: seq<Option<T>>): seq<T>
    decreases |xs|
  {
    if xs == [] then []
    else
      var prev := Somes(xs[..|xs| - 1]);
      match xs[|xs| - 1]
      case None => prev
      case Some(e) => prev + [e]
  }

  /** Every value kept is present in `xs` and every present value is kept. */
  lemma {:induction false} SomesMembers<T>(xs: seq<Option<T>>)
    ensures |Somes(xs)| <= |xs|
    ensures forall e :: e in Somes(xs) <==> Some(e) in xs
    decreases |xs|
  {
    if xs != [] {
      var init := xs[..|xs| - 1];
      SomesMembers(init);
      assert xs == init + [xs[|xs| - 1]];
    }
  }

  lemma SomesStep<T>(xs: seq<Option<T>>, i: nat)
    requires i < |xs|
    ensures Somes(xs[..i + 1]) == match xs[i] case None => Somes(xs[..i]) case Some(e) => Somes(xs[..i]) + [e]
  {
    assert xs[..i + 1][..i] == xs[..i];
  }

  /** Keeping the values of two pieces one after the other. */
  lemma {:induction false} SomesConcat<T>(a: seq<Option<T>>, b: seq<Option<T>>)
    ensures Somes(a + b) == Somes(a) + Somes(b)
    decreases |b|
  {
    if b == [] {
      assert a + b == a;
    } else {
      var init := b[..|b| - 1];
      SomesConcat(a, init);
      assert (a + b)[..|a + b| - 1] == a + init;
    }
  }

  /** An absent value in the middle contributes nothing. */
  lemma SomesSkipsNone<T>(a: seq<Option<T>>, b: seq<Option<T>>)
    ensures Somes(a + [None] + b) == Somes(a + b)
  {
    SomesConcat(a + [None], b);
    SomesConcat(a, [None]);
    var none: seq<Option<T>> := [None];
    assert Somes(none) == Somes(none[..0]);
    SomesConcat(a, b);
  }
}
