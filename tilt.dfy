/** The card tilt effect (index.js:166-185): pointer position to a 3D transform. */
module Tilt {
  import Reals

  /** The numbers in a card's CSS transform; the perspective is fixed. */
  datatype Transform = Transform(rotateX: real, rotateY: real, scale: real)

  /** Scale applied while the pointer is over a card. */
  const HoverScale: real := 1.02

  /** Position of the pointer along one side of the card, as a fraction of
      that side (index.js:169-174). */
  function Fraction(offset: real, extent: real): (f: real)
    requires extent > 0.0
    ensures 0.0 <= f <= 1.0 <==> 0.0 <= offset <= extent
    ensures f == 0.5 <==> offset * 2.0 == extent
    ensures offset == 0.0 ==> f == 0.0
    ensures offset == extent ==> f == 1.0
  {
    Reals.QuotientCompare(offset, extent, 0.0);
    Reals.QuotientCompare(offset, extent, 1.0);
    Reals.QuotientCompare(offset, extent, 0.5);
    offset / extent
  }

  /** The `mousemove` transform for pointer fractions (index.js:176-179):
      the vertical fraction tilts about the horizontal axis (top edge towards
      the viewer is positive), the horizontal fraction about the vertical axis. */
  function TiltAt(xPct: real, yPct: real): (t: Transform)
    ensures t.scale == HoverScale
    ensures 0.0 <= yPct <= 1.0 ==> -5.0 <= t.rotateX <= 5.0
    ensures 0.0 <= xPct <= 1.0 ==> -5.0 <= t.rotateY <= 5.0
    ensures t.rotateX == 0.0 <==> yPct == 0.5
    ensures t.rotateY == 0.0 <==> xPct == 0.5
    ensures t.rotateX > 0.0 <==> yPct < 0.5
    ensures t.rotateY > 0.0 <==> xPct > 0.5
  {
    Transform((0.5 - yPct) * 10.0, (xPct - 0.5) * 10.0, HoverScale)
  }

  /** The `mousemove` handler: pointer position relative to the card's
      bounding box to the transform it applies. */
  function CardTilt(clientX: real, clientY: real, left: real, top: real, width: real, height: real): (t: Transform)
    requires width > 0.0 && height > 0.0
    ensures t.scale == HoverScale
    ensures left <= clientX <= left + width && top <= clientY <= top + height ==>
      -5.0 <= t.rotateX <= 5.0 && -5.0 <= t.rotateY <= 5.0
    ensures clientX == left + width / 2.0 && clientY == top + height / 2.0 ==>
      t.rotateX == 0.0 && t.rotateY == 0.0
    ensures clientX == left && clientY == top ==> t.rotateX == 5.0 && t.rotateY == -5.0
    ensures clientX == left + width && clientY == top + height ==> t.rotateX == -5.0 && t.rotateY == 5.0
  {
    var xPct := Fraction(clientX - left, width);
    var yPct := Fraction(clientY - top, height);
    TiltAt(xPct, yPct)
  }

  /** The `mouseleave` transform (index.js:182-184). */
  function ResetTransform(): (t: Transform)
    ensures t.rotateX == 0.0 && t.rotateY == 0.0 && t.scale == 1.0
  {
    Transform(0.0, 0.0, 1.0)
  }

  /** Leaving the card restores the rotation of a pointer at its centre,
      and drops the hover scale. */
  lemma ResetIsCentredTilt()
    ensures ResetTransform() == TiltAt(0.5, 0.5).(scale := 1.0)
  {
  }
}
