/** Sums of a natural-valued weight over a sequence. */
module Sums {
  function Sum<T>(ss: seq<T>, f: T -> nat): nat {
    if ss == [] then 0 else f(ss[0]) + Sum(ss[1..], f)
  }

  // Occurrences of an id in a log
  function Is(id: nat): nat -> nat { (n: nat) => if n == id then 1 else 0 }

  function Times(log: seq<nat>, id: nat): nat { Sum(log, Is(id)) }

  lemma {:induction false} SumUpdate<T>(ss: seq<T>, f: T -> nat, i: nat, x: T)
    requires i < |ss|
    ensures Sum(ss[i := x], f) + f(ss[i]) == Sum(ss, f) + f(x)
  {
    if i == 0 {
      assert ss[i := x][1..] == ss[1..];
    } else {
      assert ss[i := x][1..] == ss[1..][i - 1 := x];
      SumUpdate(ss[1..], f, i - 1, x);
    }
  }

  lemma {:induction false} SumAppend<T>(ss: seq<T>, f: T -> nat, x: T)
    ensures Sum(ss + [x], f) == Sum(ss, f) + f(x)
  {
    if ss == [] {
      assert ss + [x] == [x];
    } else {
      assert (ss + [x])[1..] == ss[1..] + [x];
      SumAppend(ss[1..], f, x);
    }
  }

  lemma {:induction false} SumMonotone<T>(ss: seq<T>, f: T -> nat, g: T -> nat)
    requires forall i :: 0 <= i < |ss| ==> f(ss[i]) <= g(ss[i])
    ensures Sum(ss, f) <= Sum(ss, g)
  {
    if ss != [] {
      assert forall i :: 0 <= i < |ss[1..]| ==> ss[1..][i] == ss[i + 1];
      SumMonotone(ss[1..], f, g);
    }
  }

  // A positive sum has a positive term.
  lemma {:induction false} SumWitness<T>(ss: seq<T>, f: T -> nat) returns (i: nat)
    requires Sum(ss, f) > 0
    ensures i < |ss| && f(ss[i]) > 0
  {
    if f(ss[0]) > 0 {
      i := 0;
    } else {
      i := SumWitness(ss[1..], f);
      i := i + 1;
    }
  }

  // When f marks at most one element and g vanishes wherever f does, g's sum is its value there.
  lemma {:induction false} SumSupport<T>(ss: seq<T>, f: T -> nat, g: T -> nat)
    requires forall x :: x in ss && f(x) == 0 ==> g(x) == 0
    ensures Sum(ss, f) == 0 ==> Sum(ss, g) == 0
    ensures Sum(ss, f) == 1 ==> forall i :: 0 <= i < |ss| && f(ss[i]) > 0 ==> Sum(ss, g) == g(ss[i])
  {
    if ss != [] {
      SumSupport(ss[1..], f, g);
      assert ss[0] in ss;
      forall i | Sum(ss, f) == 1 && 0 <= i < |ss| && f(ss[i]) > 0 ensures Sum(ss, g) == g(ss[i]) {
        if i > 0 {
          assert ss[i] == ss[1..][i - 1];
          SumAtLeast(ss[1..], f, i - 1);
        }
      }
    }
  }

  lemma {:induction false} SumAtLeast<T>(ss: seq<T>, f: T -> nat, i: nat)
    requires i < |ss|
    ensures f(ss[i]) <= Sum(ss, f)
  {
    if i > 0 {
      SumAtLeast(ss[1..], f, i - 1);
    }
  }

  lemma {:induction false} SumZero<T>(ss: seq<T>, f: T -> nat)
    requires forall x :: x in ss ==> f(x) == 0
    ensures Sum(ss, f) == 0
  {
    if ss != [] {
      SumZero(ss[1..], f);
    }
  }
}
