/**
 * The daily pulse record shared by the Today and Weekly pages, and the arithmetic
 * mean both pages take of its ratings. Means are exact rationals.
 */
module Ratings {

  /** One day's check-in in the v2 schema: every rating is 1..5 and a higher calm means less stress. */
  datatype Pulse = Pulse(date: string, energy: int, calm: int, mood: int, focus: int)

  predicate InScale(n: int) {
    1 <= n <= 5
  }

  predicate AllInScale(xs: seq<int>) {
    forall k :: 0 <= k < |xs| ==> InScale(xs[k])
  }

  /** The ratings the sliders can produce. */
  predicate ValidPulse(p: Pulse) {
    InScale(p.energy) && InScale(p.calm) && InScale(p.mood) && InScale(p.focus)
  }

  /** `xs.reduce((a, b) => a + b, 0)`, folding from the left. */
  function Sum(xs: seq<int>): int {
    if xs == [] then 0 else Sum(xs[..|xs| - 1]) + xs[|xs| - 1]
  }

  /** The mean of a list of ratings; the pages define the mean of no ratings as 0. */
  function Mean(xs: seq<int>): (r: real)
    ensures xs == [] ==> r == 0.0
    ensures xs != [] ==> r * |xs| as real == Sum(xs) as real
  {
    if |xs| == 0 then 0.0 else Sum(xs) as real / |xs| as real
  }

  lemma {:induction false} SumWithinScale(xs: seq<int>)
    requires AllInScale(xs)
    ensures |xs| <= Sum(xs) <= 5 * |xs|
  {
    if xs != [] {
      SumWithinScale(xs[..|xs| - 1]);
    }
  }

  lemma DivideBounds(lo: real, x: real, hi: real, n: real)
    requires 0.0 < n && lo * n <= x <= hi * n
    ensures lo <= x / n <= hi
  {
  }

  /** The mean of ratings on the 1..5 scale stays on that scale. */
  lemma MeanWithinScale(xs: seq<int>)
    requires xs != [] && AllInScale(xs)
    ensures 1.0 <= Mean(xs) <= 5.0
  {
    SumWithinScale(xs);
    DivideBounds(1.0, Sum(xs) as real, 5.0, |xs| as real);
  }

  /** `pulses.map(p => p.energy)`. */
  function Energies(ps: seq<Pulse>): (r: seq<int>)
    ensures |r| == |ps| && forall k :: 0 <= k < |ps| ==> r[k] == ps[k].energy
  {
    seq(|ps|, k requires 0 <= k < |ps| => ps[k].energy)
  }

  /** `pulses.map(p => p.calm)`. */
  function Calms(ps: seq<Pulse>): (r: seq<int>)
    ensures |r| == |ps| && forall k :: 0 <= k < |ps| ==> r[k] == ps[k].calm
  {
    seq(|ps|, k requires 0 <= k < |ps| => ps[k].calm)
  }

  /** `pulses.map(p => p.mood)`. */
  function Moods(ps: seq<Pulse>): (r: seq<int>)
    ensures |r| == |ps| && forall k :: 0 <= k < |ps| ==> r[k] == ps[k].mood
  {
    seq(|ps|, k requires 0 <= k < |ps| => ps[k].mood)
  }

  /** `pulses.map(p => p.focus)`. */
  function Focuses(ps: seq<Pulse>): (r: seq<int>)
    ensures |r| == |ps| && forall k :: 0 <= k < |ps| ==> r[k] == ps[k].focus
  {
    seq(|ps|, k requires 0 <= k < |ps| => ps[k].focus)
  }
}
