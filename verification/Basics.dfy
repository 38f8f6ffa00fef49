/** Shared result types. */
module Basics {
  datatype Option<+T> = None | Some(value: T)

  datatype Result<+T, +E> = Ok(value: T) | Err(error: E)

  ghost predicate NoRepeats<T>(s: seq<T>) {
    forall i, j | 0 <= i < j < |s| :: s[i] != s[j]
  }

  /** Below any element of a set of numbers, or at it, there is a least one. */
  lemma {:induction false} MinimumExists(s: set<nat>, a: nat)
    requires a in s
    ensures exists m :: m in s && forall x | x in s :: m <= x
    decreases a
  {
    if exists x | x in s :: x < a {
      var x :| x in s && x < a;
      MinimumExists(s, x);
    }
  }

  function Minimum(s: set<nat>): (m: nat)
    requires s != {}
    ensures m in s && forall x | x in s :: m <= x
  {
    var a :| a in s;
    MinimumExists(s, a);
    var m :| m in s && forall x | x in s :: m <= x;
    m
  }

  /** `ORDER BY id`. */
  function Ascending(s: set<nat>): (r: seq<nat>)
    ensures forall x :: x in r <==> x in s
    ensures forall i, j | 0 <= i < j < |r| :: r[i] < r[j]
    ensures |r| == |s|
  {
    if s == {} then []
    else
      var m := Minimum(s);
      [m] + Ascending(s - {m})
  }

  // ---------------------------------------------------------------- ordered listings

  ghost predicate Increasing(s: seq<nat>) {
    forall i, j | 0 <= i < j < |s| :: s[i] < s[j]
  }

  lemma TailIncreases(s: seq<nat>)
    requires Increasing(s) && s != []
    ensures Increasing(s[1..]) && forall x | x in s[1..] :: s[0] < x
  {
  }

  lemma IncreasingCons(head: nat, tail: seq<nat>)
    requires Increasing(tail) && forall x | x in tail :: head < x
    ensures Increasing([head] + tail)
  {
    var all := [head] + tail;
    forall i, j | 0 <= i < j < |all|
      ensures all[i] < all[j]
    {
      assert tail[j - 1] in tail;
      assert i > 0 ==> all[i] == tail[i - 1];
    }
  }

  /** A set of numbers has one increasing listing. */
  lemma {:induction false} IncreasingIsUnique(a: seq<nat>, b: seq<nat>)
    requires Increasing(a) && Increasing(b) && forall x :: x in a <==> x in b
    ensures a == b
  {
    hide Increasing;
    assert b != [] ==> b[0] in a;
    if a != [] {
      assert a[0] in b;
      var x, y := a[1..], b[1..];
      assert a == [a[0]] + x && b == [b[0]] + y;
      TailIncreases(a);
      TailIncreases(b);
      SameTail(a[0], x, b[0], y);
      IncreasingIsUnique(x, y);
    }
  }

  lemma AscendingIncreases(s: set<nat>)
    ensures Increasing(Ascending(s))
  {
  }

  lemma SameTail(p: nat, x: seq<nat>, q: nat, y: seq<nat>)
    requires (forall n | n in x :: p < n) && (forall n | n in y :: q < n)
    requires forall n: nat :: n in [p] + x <==> n in [q] + y
    ensures p == q && forall n: nat :: n in x <==> n in y
  {
    assert p in [p] + x && q in [q] + y;
    assert forall n: nat :: n in x ==> n in [p] + x;
    assert forall n: nat :: n in y ==> n in [q] + y;
  }
}
