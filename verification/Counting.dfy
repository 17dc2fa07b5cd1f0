/** Counting the elements of a sequence that satisfy a predicate. */
module Counting {

  function Count<T>(s: seq<T>, p: T -> bool): nat {
    if s == [] then 0
    else Count(s[..|s| - 1], p) + if p(s[|s| - 1]) then 1 else 0
  }

  lemma CountAppend<T>(s: seq<T>, x: T, p: T -> bool)
    ensures Count(s + [x], p) == Count(s, p) + if p(x) then 1 else 0
  {
    assert (s + [x])[..|s|] == s;
  }

  lemma {:induction false} CountUpdate<T>(s: seq<T>, i: nat, x: T, p: T -> bool)
    requires i < |s|
    ensures Count(s[i := x], p) == Count(s, p) - (if p(s[i]) then 1 else 0) + (if p(x) then 1 else 0)
  {
    var n := |s| - 1;
    if i == n {
      assert s[i := x][..n] == s[..n];
    } else {
      CountUpdate(s[..n], i, x, p);
      assert s[i := x][..n] == s[..n][i := x];
    }
  }

  lemma {:induction false} CountMono<T>(s: seq<T>, t: seq<T>, p: T -> bool, q: T -> bool)
    requires |s| <= |t|
    requires forall i :: 0 <= i < |s| && p(s[i]) ==> q(t[i])
    ensures Count(s, p) <= Count(t, q)
    decreases |t|
  {
    if |t| == 0 {
    } else if |s| == |t| {
      var n := |s| - 1;
      assert forall i :: 0 <= i < n ==> s[..n][i] == s[i] && t[..n][i] == t[i];
      CountMono(s[..n], t[..n], p, q);
    } else {
      var n := |t| - 1;
      assert forall i :: 0 <= i < |s| ==> t[..n][i] == t[i];
      CountMono(s, t[..n], p, q);
    }
  }

  /** Two sequences that agree on p up to the shorter one, with nothing beyond it. */
  lemma {:induction false} CountSame<T>(s: seq<T>, t: seq<T>, p: T -> bool)
    requires |s| <= |t|
    requires forall i :: 0 <= i < |s| ==> p(s[i]) == p(t[i])
    requires forall i :: |s| <= i < |t| ==> !p(t[i])
    ensures Count(t, p) == Count(s, p)
    decreases |t|
  {
    if |t| == 0 {
    } else if |s| == |t| {
      var n := |s| - 1;
      CountSame(s[..n], t[..n], p);
    } else {
      var n := |t| - 1;
      CountSame(s, t[..n], p);
    }
  }

  lemma {:induction false} CountSome<T>(s: seq<T>, i: nat, p: T -> bool)
    requires i < |s| && p(s[i])
    ensures Count(s, p) >= 1
  {
    var n := |s| - 1;
    if i < n { CountSome(s[..n], i, p); }
  }

  lemma {:induction false} CountNone<T>(s: seq<T>, p: T -> bool)
    requires Count(s, p) == 0
    ensures forall i :: 0 <= i < |s| ==> !p(s[i])
  {
    if s != [] {
      var n := |s| - 1;
      CountNone(s[..n], p);
      assert forall i :: 0 <= i < n ==> s[i] == s[..n][i];
    }
  }

  lemma {:induction false} CountWitness<T>(s: seq<T>, p: T -> bool) returns (i: nat)
    requires Count(s, p) >= 1
    ensures i < |s| && p(s[i])
  {
    var n := |s| - 1;
    if p(s[n]) { i := n; } else { i := CountWitness(s[..n], p); }
  }

  lemma {:induction false} CountPair<T>(s: seq<T>, i: nat, j: nat, p: T -> bool)
    requires i < j < |s| && p(s[i]) && p(s[j])
    ensures Count(s, p) >= 2
  {
    var n := |s| - 1;
    if j == n { CountSome(s[..n], i, p); } else { CountPair(s[..n], i, j, p); }
  }

  /** At most one: any two satisfying positions are the same position. */
  lemma CountUnique<T>(s: seq<T>, i: nat, j: nat, p: T -> bool)
    requires Count(s, p) <= 1
    requires i < |s| && j < |s| && p(s[i]) && p(s[j])
    ensures i == j
  {
    if i < j { CountPair(s, i, j, p); }
    if j < i { CountPair(s, j, i, p); }
  }

  lemma {:induction false} CountSplit<T>(s: seq<T>, p: T -> bool, q: T -> bool, r: T -> bool)
    requires forall i :: 0 <= i < |s| ==> (p(s[i]) <==> q(s[i]) || r(s[i])) && !(q(s[i]) && r(s[i]))
    ensures Count(s, p) == Count(s, q) + Count(s, r)
  {
    if s != [] {
      CountSplit(s[..|s| - 1], p, q, r);
    }
  }
}
