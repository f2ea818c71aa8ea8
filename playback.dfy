/** Frame-interval gating of `renderLoop` (index.js:83-97), as a function of
    the playback state and the callback's timestamp. */
module Playback {
  import opened Config
  import Reals

  /** Target time between frames, in milliseconds (`1000 / frameRate`). */
  const Interval: real := 1000.0 / (FrameRate as real)

  /** `q` copies of `b`. */
  function Times(q: nat, b: real): real {
    (q as real) * b
  }

  /** JavaScript's `a % b` for a non-negative `a` and a positive `b`: what is
      left of `a` after taking away as many whole `b` as fit. */
  function JsRemainder(a: real, b: real): (r: real)
    requires a >= 0.0 && b > 0.0
    ensures 0.0 <= r < b && r <= a
    ensures exists q: nat :: a == Times(q, b) + r
  {
    var q := (a / b).Floor;
    var qr := q as real;
    assert qr <= a / b < qr + 1.0;
    Reals.QuotientCompare(a, b, qr);
    Reals.QuotientCompare(a, b, qr + 1.0);
    Reals.QuotientCompare(a, b, 0.0);
    assert q >= 0;
    Reals.ProductSign(qr, b);
    assert (qr + 1.0) * b == qr * b + b;
    assert a == Times(q as nat, b) + (a - qr * b);
    a - qr * b
  }

  /** The part of the playback state `renderLoop` updates. */
  datatype Tick = Tick(frame: nat, lastFrameTime: real)

  /** Whether a callback at `timestamp` is late enough to show the next frame. */
  predicate Advances(lastFrameTime: real, timestamp: real): (b: bool)
    // more than a thirtieth of a second, i.e. more than 33.3 ms, has passed
    ensures b <==> (timestamp - lastFrameTime) * (FrameRate as real) > 1000.0
    ensures b ==> timestamp - lastFrameTime > 33.0
    ensures timestamp - lastFrameTime >= 34.0 ==> b
  {
    timestamp - lastFrameTime > Interval
  }

  /** The playback state after one `renderLoop` call while playing. */
  function NextTick(frame: nat, lastFrameTime: real, timestamp: real): (t: Tick)
    requires frame < TotalFrames
    ensures t.frame < TotalFrames
    ensures !Advances(lastFrameTime, timestamp) ==> t == Tick(frame, lastFrameTime)
    ensures Advances(lastFrameTime, timestamp) ==>
      && t.frame == (if frame == TotalFrames - 1 then 0 else frame + 1)
      && lastFrameTime < t.lastFrameTime
      && timestamp - Interval < t.lastFrameTime <= timestamp
  {
    var elapsed := timestamp - lastFrameTime;
    if elapsed > Interval then
      Tick((frame + 1) % TotalFrames, timestamp - JsRemainder(elapsed, Interval))
    else
      Tick(frame, lastFrameTime)
  }

  /** The correction keeps the frame clock in phase: on an advance the new
      `lastFrameTime` is the old one plus a whole number (at least one) of
      intervals, so no drift accumulates. */
  lemma NextTickKeepsPhase(frame: nat, lastFrameTime: real, timestamp: real) returns (k: int)
    requires frame < TotalFrames && Advances(lastFrameTime, timestamp)
    ensures k >= 1
    ensures NextTick(frame, lastFrameTime, timestamp).lastFrameTime == lastFrameTime + (k as real) * Interval
  {
    var elapsed := timestamp - lastFrameTime;
    var r := JsRemainder(elapsed, Interval);
    var q: nat :| elapsed == Times(q, Interval) + r;
    k := q;
  }

  /** Over any run of advancing callbacks the frame index cycles through the
      whole sequence: `n` advances from `frame` land on `(frame + n) % TotalFrames`. */
  function FrameAfter(frame: nat, n: nat): (f: nat)
    requires frame < TotalFrames
    ensures f < TotalFrames
    ensures f == (frame + n) % TotalFrames
  {
    if n == 0 then frame else
      var g := FrameAfter(frame, n - 1);
      if g == TotalFrames - 1 then 0 else g + 1
  }

  /** Each advancing `renderLoop` call takes the frame one step further
      along the cycle `FrameAfter` describes. */
  lemma NextTickFollowsFrameAfter(frame: nat, n: nat, lastFrameTime: real, timestamp: real)
    requires frame < TotalFrames && Advances(lastFrameTime, timestamp)
    ensures NextTick(FrameAfter(frame, n), lastFrameTime, timestamp).frame == FrameAfter(frame, n + 1)
  {
  }
}
