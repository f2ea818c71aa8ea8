/** The loading percentage shown by `updateProgress` (index.js:65-69). */
module Progress {
  import opened Config

  /** `Math.floor((loaded / totalFrames) * 100)`, taken over exact rationals:
      the largest whole percentage not above the settled fraction. */
  function Percentage(loaded: nat): (p: nat)
    requires loaded <= TotalFrames
    ensures p * TotalFrames <= loaded * 100 < (p + 1) * TotalFrames
    ensures p <= 100
    ensures p == 100 <==> loaded == TotalFrames
    ensures p == 0 <==> loaded * 100 < TotalFrames
  {
    loaded * 100 / TotalFrames
  }

  /** The percentage never goes down as more images settle. */
  lemma PercentageMonotone(a: nat, b: nat)
    requires a <= b <= TotalFrames
    ensures Percentage(a) <= Percentage(b)
  {
  }
}
