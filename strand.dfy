/** The per-base replication state of a chromosome, as a sequence: each base
    holds the sentinel Unreplicated or the id of the fork that last covered it. */
module Strand {

  /** Value of a base that no fork has reached yet. */
  const Unreplicated: int := -1

  /** The state of a freshly built chromosome of n bases. */
  function Fresh(n: nat): seq<int>
  {
    seq(n, _ => Unreplicated)
  }

  /** The state after bases lo..hi (both inclusive) are overwritten with fork f. */
  function Marked(s: seq<int>, lo: int, hi: int, f: int): seq<int>
  {
    seq(|s|, j requires 0 <= j < |s| => if lo <= j <= hi then f else s[j])
  }

  function Indicator(x: int): nat
  {
    if x != Unreplicated then 1 else 0
  }

  /** Number of bases of s that carry a fork id. */
  function CountReplicated(s: seq<int>): (c: nat)
    ensures c <= |s|
  {
    if |s| == 0 then 0 else CountReplicated(s[..|s| - 1]) + Indicator(s[|s| - 1])
  }

  lemma {:induction false} CountAppend(a: seq<int>, b: seq<int>)
    ensures CountReplicated(a + b) == CountReplicated(a) + CountReplicated(b)
  {
    if |b| == 0 {
      assert a + b == a;
    } else {
      assert (a + b)[..|a + b| - 1] == a + b[..|b| - 1];
      CountAppend(a, b[..|b| - 1]);
    }
  }

  /** A fresh chromosome has no replicated base. */
  lemma {:induction false} CountFresh(n: nat)
    ensures CountReplicated(Fresh(n)) == 0
  {
    if n > 0 {
      assert Fresh(n)[..n - 1] == Fresh(n - 1);
      CountFresh(n - 1);
    }
  }

  /** The count reaches the length exactly when every base carries a fork id. */
  lemma {:induction false} CountAll(s: seq<int>)
    ensures CountReplicated(s) == |s| <==> forall i :: 0 <= i < |s| ==> s[i] != Unreplicated
  {
    if |s| > 0 {
      var p := s[..|s| - 1];
      assert forall i :: 0 <= i < |p| ==> p[i] == s[i];
      CountAll(p);
    }
  }

  /** Overwriting one base changes the count by the indicators of the old and new values. */
  lemma {:induction false} CountUpdate(s: seq<int>, i: int, v: int)
    requires 0 <= i < |s|
    ensures CountReplicated(s[i := v]) + Indicator(s[i]) == CountReplicated(s) + Indicator(v)
  {
    var n := |s|;
    if i < n - 1 {
      assert s[i := v][..n - 1] == s[..n - 1][i := v];
      CountUpdate(s[..n - 1], i, v);
    } else {
      assert s[i := v][..n - 1] == s[..n - 1];
    }
  }

  /** Marking splits the strand into an untouched prefix, the marked range and an untouched suffix. */
  lemma MarkedSplit(s: seq<int>, lo: int, hi: int, f: int)
    requires 0 <= lo <= hi + 1 <= |s|
    ensures Marked(s, lo, hi, f) == s[..lo] + seq(hi - lo + 1, _ => f) + s[hi + 1..]
  {
  }

  lemma {:induction false} CountConstant(k: nat, f: int)
    requires f != Unreplicated
    ensures CountReplicated(seq(k, _ => f)) == k
  {
    if k > 0 {
      assert seq(k, _ => f)[..k - 1] == seq(k - 1, _ => f);
      CountConstant(k - 1, f);
    }
  }

  /** After marking lo..hi with a fork id, the count is the bases replicated
      outside the range plus every base of the range. */
  lemma CountMarked(s: seq<int>, lo: int, hi: int, f: int)
    requires 0 <= lo <= hi + 1 <= |s| && f != Unreplicated
    ensures CountReplicated(Marked(s, lo, hi, f))
         == CountReplicated(s[..lo]) + (hi - lo + 1) + CountReplicated(s[hi + 1..])
  {
    MarkedSplit(s, lo, hi, f);
    CountAppend(s[..lo] + seq(hi - lo + 1, _ => f), s[hi + 1..]);
    CountAppend(s[..lo], seq(hi - lo + 1, _ => f));
    CountConstant(hi - lo + 1, f);
  }

  /** On a fresh chromosome, marking lo..hi leaves exactly hi - lo + 1 replicated bases. */
  lemma CountMarkedFresh(n: nat, lo: int, hi: int, f: int)
    requires 0 <= lo <= hi + 1 <= n && f != Unreplicated
    ensures CountReplicated(Marked(Fresh(n), lo, hi, f)) == hi - lo + 1
  {
    CountMarked(Fresh(n), lo, hi, f);
    assert Fresh(n)[..lo] == Fresh(lo);
    assert Fresh(n)[hi + 1..] == Fresh(n - hi - 1);
    CountFresh(lo);
    CountFresh(n - hi - 1);
  }

  lemma CountSplit(s: seq<int>, lo: int, hi: int)
    requires 0 <= lo <= hi + 1 <= |s|
    ensures CountReplicated(s) == CountReplicated(s[..lo]) + CountReplicated(s[lo..hi + 1]) + CountReplicated(s[hi + 1..])
  {
    assert s[..hi + 1] == s[..lo] + s[lo..hi + 1];
    assert s == s[..hi + 1] + s[hi + 1..];
    CountAppend(s[..hi + 1], s[hi + 1..]);
    CountAppend(s[..lo], s[lo..hi + 1]);
  }

  /** Replication is monotonic: a replicated base stays replicated and the count never drops. */
  lemma MarkedMonotone(s: seq<int>, lo: int, hi: int, f: int)
    requires 0 <= lo && hi < |s| && f != Unreplicated
    ensures forall j :: 0 <= j < |s| && s[j] != Unreplicated ==> Marked(s, lo, hi, f)[j] != Unreplicated
    ensures CountReplicated(s) <= CountReplicated(Marked(s, lo, hi, f))
  {
    if hi < lo {
      assert Marked(s, lo, hi, f) == s;
    } else {
      CountMarked(s, lo, hi, f);
      CountSplit(s, lo, hi);
    }
  }

  /** Marking the whole strand replicates every base. */
  lemma MarkedWholeStrand(s: seq<int>, f: int)
    requires f != Unreplicated
    ensures CountReplicated(Marked(s, 0, |s| - 1, f)) == |s|
  {
    CountAll(Marked(s, 0, |s| - 1, f));
  }
}
