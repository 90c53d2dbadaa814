/** Small things several modules share. */
module Basics {

  datatype Option<+T> = None | Some(value: T)

  predicate Distinct<T(==)>(s: seq<T>) {
    forall i, j :: 0 <= i < j < |s| ==> s[i] != s[j]
  }

  lemma Assoc<T>(a: seq<T>, b: seq<T>, c: seq<T>)
    ensures (a + b) + c == a + (b + c)
  {
  }

  lemma ConsAppend<T>(xs: seq<T>, ys: seq<T>)
    requires xs != []
    ensures [xs[0]] + (xs[1..] + ys) == xs + ys
  {
  }

  lemma HeadAndTail<T>(a: seq<T>, b: seq<T>)
    requires a != []
    ensures (a + b)[0] == a[0] && (a + b)[1..] == a[1..] + b
  {
  }

  lemma DropOfConcat<T>(a: seq<T>, b: seq<T>, m: nat)
    requires m <= |a|
    ensures (a + b)[m..] == a[m..] + b
  {
  }

  lemma DropAt<T>(v: seq<T>, i: nat, a: seq<T>, b: seq<T>)
    requires i <= |v| && v[i..] == a + b
    ensures i + |a| <= |v| && v[i + |a|..] == b && forall j :: 0 <= j < |a| ==> v[i + j] == a[j]
  {
    assert forall j :: 0 <= j < |a| ==> v[i + j] == v[i..][j];
  }

  lemma Slices<T>(t: seq<T>, i: nat, j: nat)
    requires i <= j <= |t|
    ensures t == t[..i] + t[i..j] + t[j..]
  {
  }

  lemma SlicesBetween<T>(t: seq<T>, i: nat, j: nat, k: nat, l: nat)
    requires i <= j <= k <= l <= |t|
    ensures t[i..l] == t[i..j] + t[j..k] + t[k..l]
  {
  }
}
