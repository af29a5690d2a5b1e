/** Types shared by the whole model. */
module Basics {

  datatype Option<+T> = None | Some(value: T)

  type byte = b: int | 0 <= b < 256

  function Min(a: int, b: int): int {
    if a <= b then a else b
  }

  /** The numbers 0, 1, ..., n - 1 in order. */
  function Iota(n: nat): (s: seq<nat>)
    ensures |s| == n && forall i :: 0 <= i < n ==> s[i] == i
  {
    seq(n, i => i)
  }

  lemma InIota(n: nat, k: nat)
    ensures k in Iota(n) <==> k < n
  {
    if k < n { assert Iota(n)[k] == k; }
  }

  /** The numbers below n. */
  ghost function Upto(n: nat): (s: set<nat>)
    ensures |s| == n && forall i: nat :: i in s <==> i < n
  {
    if n == 0 then {} else Upto(n - 1) + {n - 1}
  }

  /** The values that occur. */
  ghost function Elements<T(!new)>(s: seq<T>): (e: set<T>)
    ensures |e| <= |s| && forall x :: x in e <==> x in s
  {
    if s == [] then {}
    else
      assert s == [s[0]] + s[1..];
      Elements(s[1..]) + {s[0]}
  }

  /** How many entries are at least n. */
  function CountFrom(s: seq<nat>, n: nat): nat {
    if s == [] then 0 else (if n <= s[0] then 1 else 0) + CountFrom(s[1..], n)
  }

  lemma {:induction false} FewerAhead(s: seq<nat>, n: nat)
    ensures CountFrom(s, n + 1) <= CountFrom(s, n)
    ensures n in s ==> CountFrom(s, n + 1) < CountFrom(s, n)
  {
    if s != [] { FewerAhead(s[1..], n); }
  }

  /** A sequence in which the first n numbers occur is at least n long. */
  lemma AtLeast(s: seq<nat>, n: nat)
    requires forall i: nat :: i < n ==> i in s
    ensures |s| >= n
  {
    assert Upto(n) <= Elements(s);
    assert Elements(s) == Upto(n) + (Elements(s) - Upto(n));
  }

  /** Every number in s is below n. */
  ghost predicate Below(s: seq<nat>, n: nat) {
    forall k :: k in s ==> k < n
  }

  /** No value occurs twice. */
  ghost predicate Distinct<T>(s: seq<T>) {
    forall i, j :: 0 <= i < j < |s| ==> s[i] != s[j]
  }

  lemma AppendDistinct(s: seq<nat>, k: nat)
    requires Distinct(s) && k !in s
    ensures Distinct(s + [k])
    ensures forall n :: Below(s, n) && k < n ==> Below(s + [k], n)
  {}
}
