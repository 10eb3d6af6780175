/** Per-base activation probabilities and the damping applied around a fired
    origin to suppress nearby dormant origins. */
module Landscape {

  /** A damping kernel: within `radius` bases of the centre, the probability of a
      base at distance d is multiplied by factor(d); farther bases are untouched.
      The calibrated Gaussian shape of `factor` is not part of this model. */
  datatype Kernel = Kernel(radius: nat, factor: nat -> real)

  function Distance(j: int, centre: int): nat
  {
    if j < centre then centre - j else j - centre
  }

  /** The landscape after damping around `centre`. */
  function Damped(ls: seq<real>, centre: int, k: Kernel): seq<real>
  {
    seq(|ls|, j requires 0 <= j < |ls| =>
      if Distance(j, centre) <= k.radius then ls[j] * k.factor(Distance(j, centre)) else ls[j])
  }

  /** A kernel that only ever scales probabilities down. */
  ghost predicate IsDamping(k: Kernel)
  {
    forall d: nat :: 0.0 <= k.factor(d) <= 1.0
  }

  predicate IsProbabilities(ls: seq<real>)
  {
    forall j :: 0 <= j < |ls| ==> 0.0 <= ls[j] <= 1.0
  }

  lemma ScaleDown(p: real, f: real)
    requires 0.0 <= p && 0.0 <= f <= 1.0
    ensures 0.0 <= p * f <= p
    ensures f < 1.0 && p > 0.0 ==> p * f < p
  {
  }

  lemma DampedAt(ls: seq<real>, centre: int, k: Kernel, j: int)
    requires 0 <= j < |ls| && 0.0 <= ls[j] && IsDamping(k)
    ensures 0.0 <= Damped(ls, centre, k)[j] <= ls[j]
    ensures Distance(j, centre) > k.radius ==> Damped(ls, centre, k)[j] == ls[j]
    ensures Distance(j, centre) <= k.radius && k.factor(Distance(j, centre)) < 1.0 && ls[j] > 0.0 ==>
              Damped(ls, centre, k)[j] < ls[j]
  {
    var d := Distance(j, centre);
    if d <= k.radius {
      var p, f := ls[j], k.factor(d);
      assert Damped(ls, centre, k)[j] == p * f;
      ScaleDown(p, f);
    }
  }

  /** Damping keeps every value a probability, never raises one, leaves the bases
      beyond the radius as they were, and strictly lowers a positive value wherever
      the kernel's factor is below one. */
  lemma DampingSuppresses(ls: seq<real>, centre: int, k: Kernel)
    requires IsProbabilities(ls) && IsDamping(k)
    ensures |Damped(ls, centre, k)| == |ls| && IsProbabilities(Damped(ls, centre, k))
    ensures forall j :: 0 <= j < |ls| ==> Damped(ls, centre, k)[j] <= ls[j]
    ensures forall j :: 0 <= j < |ls| && Distance(j, centre) > k.radius ==> Damped(ls, centre, k)[j] == ls[j]
    ensures forall j :: 0 <= j < |ls| && Distance(j, centre) <= k.radius && k.factor(Distance(j, centre)) < 1.0 && ls[j] > 0.0 ==>
              Damped(ls, centre, k)[j] < ls[j]
  {
    forall j | 0 <= j < |ls| {
      DampedAt(ls, centre, k, j);
    }
  }
}
