/** Sequence operations the components hand to React's state setters. */
module Seqs {

  /** `const copy = [...s]; copy[index] = value;`: a fresh copy of `s` with one
      slot replaced. Callers pass an index taken from `s.map((_, index) => ...)`. */
  method SetAt(s: seq<string>, index: nat, value: string) returns (r: seq<string>)
    requires index < |s|
    ensures |r| == |s| && r[index] == value
    ensures forall j :: 0 <= j < |s| && j != index ==> r[j] == s[j]
  {
    var copy := new string[|s|];
    for k := 0 to |s|
      invariant forall j :: 0 <= j < k ==> copy[j] == s[j]
    {
      copy[k] := s[k];
    }
    copy[index] := value;
    r := copy[..];
  }

  /** `Array(n).fill('')`. */
  function EmptyTimes(n: nat): (r: seq<string>)
    ensures |r| == n && forall i :: 0 <= i < n ==> r[i] == ""
  {
    seq(n, _ => "")
  }

  /** `s.filter(x => !drop(x))`: the elements that are not dropped, in order. */
  function Without<T>(s: seq<T>, drop: T -> bool): (r: seq<T>)
    ensures |r| <= |s|
    ensures forall i :: 0 <= i < |r| ==> r[i] in s && !drop(r[i])
    ensures forall i :: 0 <= i < |s| && !drop(s[i]) ==> s[i] in r
    decreases |s|
  {
    if s == [] then []
    else
      var rest := Without(s[1..], drop);
      assert forall i :: 1 <= i < |s| ==> s[i] == s[1..][i - 1];
      if drop(s[0]) then rest else [s[0]] + rest
  }

  /** Filtering works element by element: the relative order of what is kept
      is the order of `s`. */
  lemma {:induction false} WithoutAppend<T>(a: seq<T>, b: seq<T>, drop: T -> bool)
    ensures Without(a + b, drop) == Without(a, drop) + Without(b, drop)
    decreases |a|
  {
    if a == [] {
      assert a + b == b;
    } else {
      assert (a + b)[0] == a[0] && (a + b)[1..] == a[1..] + b;
      WithoutAppend(a[1..], b, drop);
    }
  }

  /** When nothing matches, the filter changes nothing. */
  lemma {:induction false} WithoutNothingDropped<T>(s: seq<T>, drop: T -> bool)
    requires forall i :: 0 <= i < |s| ==> !drop(s[i])
    ensures Without(s, drop) == s
    decreases |s|
  {
    if s != [] {
      WithoutNothingDropped(s[1..], drop);
    }
  }

  /** Filtering again removes nothing more. */
  lemma WithoutIdempotent<T>(s: seq<T>, drop: T -> bool)
    ensures Without(Without(s, drop), drop) == Without(s, drop)
  {
    var r := Without(s, drop);
    assert forall i :: 0 <= i < |r| ==> r[i] in r;
    WithoutNothingDropped(r, drop);
  }
}
