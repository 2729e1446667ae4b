/** Shared helpers. */
module Wrappers {
  datatype Option<+T> = None | Some(value: T)

  lemma ConcatAssoc<T>(a: seq<T>, b: seq<T>, c: seq<T>)
    ensures (a + b) + c == a + (b + c)
  {
    assert (a + b) + c == a + (b + c);
  }

  // What f makes of the elements for which it has a result, in order
  function KeepSome<A, B>(f: A -> Option<B>, xs: seq<A>): seq<B>
    decreases |xs|
  {
    if xs == [] then []
    else
      var last := f(xs[|xs| - 1]);
      KeepSome(f, xs[..|xs| - 1]) + if last.Some? then [last.value] else []
  }

  lemma KeepSnoc<A, B>(f: A -> Option<B>, xs: seq<A>, x: A)
    ensures KeepSome(f, xs + [x]) == KeepSome(f, xs) + if f(x).Some? then [f(x).value] else []
  {
    assert (xs + [x])[..|xs|] == xs;
  }

  lemma {:induction false} KeepConcat<A, B>(f: A -> Option<B>, a: seq<A>, b: seq<A>)
    ensures KeepSome(f, a + b) == KeepSome(f, a) + KeepSome(f, b)
    decreases |b|
  {
    if b == [] {
      assert a + b == a;
    } else {
      var front, x := b[..|b| - 1], b[|b| - 1];
      KeepConcat(f, a, front);
      KeepSnoc(f, front, x);
      KeepSnoc(f, a + front, x);
      assert b == front + [x] && a + b == (a + front) + [x];
      ConcatAssoc(KeepSome(f, a), KeepSome(f, front), if f(x).Some? then [f(x).value] else []);
    }
  }

  lemma {:induction false} KeepAll<A>(f: A -> Option<A>, xs: seq<A>)
    requires forall x :: x in xs ==> f(x) == Some(x)
    ensures KeepSome(f, xs) == xs
    decreases |xs|
  {
    if xs != [] {
      var front, x := xs[..|xs| - 1], xs[|xs| - 1];
      assert x in xs && forall y :: y in front ==> y in xs;
      KeepAll(f, front);
    }
  }
}
