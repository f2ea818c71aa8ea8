# Hero animation core, modelled in Dafny

The page script `index.js` preloads a numbered sequence of 663 JPEG frames
(`Mob000.jpg` … `Mob662.jpg`), shows a loading percentage, and once every
frame has settled (loaded or failed) plays them back at 30 frames per second
on a canvas, each frame scaled to cover the window. Cards on the page tilt
under the pointer. This project models the deterministic core of that
script and proves what it promises:

- `padding.dfy` (module `Padding`): the numeral `num + ""`, the zero-padding
  helper `pad`, and the inverse reading of a numeral (`Value`), so that
  padding is shown to be reversible.
- `frame_names.dfy` (`FrameNames`): the file name of frame `i`; every name of
  the sequence is `Mob` + three digits + `.jpg`, and different frames have
  different names.
- `progress.dfy` (`Progress`): the percentage shown while loading.
- `cover_fit.dfy` (`CoverFit`): the "object-fit: cover" rectangle of
  `drawFrame`, and that it is the smallest covering rectangle of its aspect.
- `playback.dfy` (`Playback`): the frame-interval gate of `renderLoop` as a
  function from (frame, last frame time, timestamp) to the next pair, with
  JavaScript's `%` on positive reals written out.
- `tilt.dfy` (`Tilt`): the card's `mousemove` rotation and `mouseleave` reset.
- `page.dfy` (`Page`): the script's globals as the class `HeroPage`, whose
  methods are the `onload`/`onerror` handlers (`Settle`), `updateProgress`,
  `startAnimation`, `renderLoop`, `drawFrame` and `resizeCanvas`. A ghost
  counter records how often `startAnimation` has run; the object invariant
  `Valid` says that playback is on exactly when all 663 frames have settled,
  that it was started exactly once then, that the aspect ratio is that of
  frame 0 if frame 0 loaded and 16:9 otherwise, and that slot `i` holds frame
  `i`'s file. `SettleAll` delivers the 663 callbacks in an arbitrary order with
  arbitrary outcomes and proves that the percentage never decreases, ends at
  100, and that the animation starts at the last callback and at no other.
- `reals.dfy` (`Reals`): two facts about real products used by the proofs.
- `config.dfy` (`Config`): the script's constants.

Time, window size, pointer position and each image's outcome are parameters
of the methods that receive them. Two behaviours of the script are easy to
misread from its comments; the model follows the code:

- `drawFrame` skips only an empty slot (index.js:100). Every slot holds an
  `Image` object from the start (index.js:61), including frames whose load
  failed, so a failed frame reaches `clearRect` and then `drawImage`. By the
  HTML canvas rules `drawImage` throws an `InvalidStateError` for an image in
  the broken state, and returns without painting for one still loading.
  `DrawFrame` has these outcomes (`Skipped`, `Blank`, `Threw`, `Painted`).
  `RenderLoop` shows what the exception does there: `lastFrameTime` has been
  updated, the canvas has been cleared, and the frame neither advances nor
  asks for another callback, so playback stops for good at the first failed
  frame (see "## Findings"). The corrected `DrawFrameSkippingFailed` and
  `RenderLoopSkippingFailed` pass over a failed frame instead.
- The comment at index.js:40 speaks of "the first image", but the aspect
  ratio is taken from frame 0 only (index.js:41-44), whenever it loads, not
  from whichever image happens to load first. If frame 0 fails, it stays 16:9.

## Model

| member | source | states |
|---|---|---|
| Padding.Decimal | index.js:25 | the numeral of a non-negative integer is a non-empty string of digits with no leading zero (except the numeral of 0) |
| Padding.ValueOfDecimal | index.js:25 | reading the numeral back gives the number: `Value(Decimal(n)) == n` |
| Padding.Padded | index.js:24-28 | the result of `pad(num, size)` is the numeral of `num` preceded only by '0' characters, its length is the larger of `size` and the numeral's length, and a numeral already `size` long is returned unchanged |
| Padding.PaddedValue | index.js:24-28 | padding is reversible: the padded string still denotes `num` |
| Padding.Pad | index.js:24-28 | the `while` loop that prepends '0' returns exactly `Padded(num, size)` |
| FrameNames.FrameName | index.js:33 | frame `i`'s file name is `Prefix + Padded(i, 3) + Extension`; its shape and injectivity are stated by `FrameNameShape` and `FrameNameInjective` |
| FrameNames.FrameNameShape | index.js:31-33 | for every frame index below 663 the file name is 10 characters: "Mob", three digits that denote the index, ".jpg" |
| FrameNames.FrameNameInjective | index.js:33 | two frame indices with the same file name are equal |
| FrameNames.FrameNameExamples | index.js:33 | frames 0, 7 and 662 are named Mob000.jpg, Mob007.jpg and Mob662.jpg |
| Progress.Percentage | index.js:66 | the percentage is the floor of `loaded * 100 / 663` (bracketed between consecutive multiples), lies in 0..100, and is 100 exactly when all frames have settled |
| Progress.PercentageMonotone | index.js:66 | more settled images never show a smaller percentage |
| CoverFit.Cover | index.js:108-117 | the drawn rectangle keeps the image's aspect ratio, covers the whole canvas, matches the canvas on one side, and is centred, so its corner is at or left/above the origin |
| CoverFit.CoverIsSmallest | index.js:108-114 | every rectangle with the same aspect ratio that covers the canvas is at least as wide and as tall as the one drawn |
| Playback.JsRemainder | index.js:91 | `elapsed % interval` for positive operands lies in `[0, interval)`, does not exceed `elapsed`, and differs from `elapsed` by a whole number of intervals |
| Playback.Advances | index.js:88-90 | a callback advances exactly when more than one interval has passed since the last frame time, that is when the elapsed time times the frame rate of 30 exceeds 1000 ms; so 33 ms never advances and 34 ms always does |
| Playback.NextTick | index.js:84-94 | without a full interval elapsed the frame and frame time are unchanged; on an advance the frame moves to the next index, wrapping 662 to 0, and the frame time strictly increases and lands in `(timestamp - interval, timestamp]` |
| Playback.NextTickKeepsPhase | index.js:91 | on an advance the new frame time is the old one plus a whole number, at least one, of intervals |
| Playback.FrameAfter | index.js:93 | after `n` advances from `frame` the index is `(frame + n) % 663`, always a valid frame |
| Playback.NextTickFollowsFrameAfter | index.js:89-94 | one more advancing tick from the frame reached after `n` advances gives the frame reached after `n + 1` advances |
| Tilt.Fraction | index.js:168-174 | the pointer fraction lies in [0,1] exactly when the pointer is within the card along that side, is 0 at the near edge, 1 at the far edge, and 0.5 exactly at the middle |
| Tilt.TiltAt | index.js:176-177 | scale 1.02; for fractions in [0,1] both rotations lie in [-5, 5]; each rotation is zero exactly at the middle fraction; `rotateX` is positive exactly in the upper half and `rotateY` exactly in the right half |
| Tilt.CardTilt | index.js:167-180 | for a pointer over the card both rotations lie in [-5, 5]; at the card's centre both are 0; the top-left corner gives (5, -5) and the bottom-right (-5, 5) |
| Tilt.ResetTransform | index.js:182-184 | `mouseleave` sets no rotation and scale 1 |
| Tilt.ResetIsCentredTilt | index.js:176-183 | the reset has the rotation of a pointer at the card's centre and drops the hover scale |
| Page.SettledCount | index.js:37 | the number of settled images is at most the number of images, and equals it exactly when no image is pending |
| Page.SettledCountSettle | index.js:36-59 | one pending image settling, by success or by error, adds exactly one to the count |
| Page.AspectRatio | index.js:41-44 | the aspect ratio in use is always positive: frame 0's ratio once it has loaded, 16:9 otherwise |
| Page.HeroPage.constructor | index.js:14-20 | the start of the script, the globals followed by the `resizeCanvas(); preloadImages();` of index.js:189-190: 663 slots named Mob000.jpg … Mob662.jpg, none settled, count 0, not playing, frame 0, the canvas sized to the window, aspect ratio 16:9 |
| Page.HeroPage.PreloadImages | index.js:30-63 | one slot per frame, slot `k` holding the file name of frame `k` built with `pad`, all pending, and the invariant kept |
| Page.HeroPage.DrawFrame | index.js:99-120 | returns at the guard exactly when the current slot does not exist; otherwise paints exactly when the frame has loaded (the current frame in the cover rectangle of the canvas), paints nothing while it is still loading, and throws exactly when its load failed |
| Page.HeroPage.DrawFrameSkippingFailed | index.js:99-120 | the corrected `drawFrame`: never throws, returns at the guard exactly when the slot is missing or its load failed, and otherwise does what `drawFrame` does |
| Page.HeroPage.ResizeCanvas | index.js:124-136 | the canvas takes the window size; `drawFrame` runs at once exactly when not playing and slot 0 exists; before playback that paints frame 0 covering the new size if it loaded, and throws if it failed |
| Page.HeroPage.ProgressPercent | index.js:65-69 | the shown percentage is at most 100 and is 100 exactly when all frames have settled |
| Page.HeroPage.StartAnimation | index.js:71-79 | sets `isPlaying` and adds one to the start counter |
| Page.HeroPage.Settle | index.js:36-59 | each settle adds one to the count whether it succeeded or failed; the shown percentage does not decrease; `startAnimation` runs exactly at the settle that completes the count and then playback is on; only a successful load of frame 0 changes the aspect ratio and resizes, painting frame 0; the next animation frame is requested exactly when playback starts; the invariant is kept, so the count never exceeds 663 |
| Page.HeroPage.RenderLoop | index.js:83-97 | when not playing nothing changes and nothing is rescheduled; when playing without a full interval elapsed nothing changes and the next callback is requested; on an advance `drawFrame` runs on the frame that was current and the frame time becomes that of `NextTick`; then, if that frame failed, `drawFrame` throws, the frame stays and no callback is requested, and otherwise the frame becomes that of `NextTick` and the next callback is requested |
| Page.HeroPage.RenderLoopSkippingFailed | index.js:83-97 | the corrected loop: while playing it always requests the next callback and follows `NextTick` exactly; it never throws, and on an advance it passes over the current frame exactly when that frame failed |
| Page.SettleAll | index.js:30-63 | whatever order the 663 callbacks arrive in and however many fail, every slot ends with its outcome, the percentages shown never decrease and end at 100, `startAnimation` runs at the last callback and at no other, and the first `renderLoop` callback is then requested |
| Page.PageWithFailedFrame | index.js:30-79 | when every frame loads except frame 1, the page is playing after the last callback with the first `renderLoop` callback requested, at frame 0 and frame time 0 |
| Page.FailedFrameHaltsPlayback | index.js:83-120 | on that page the loop as written paints frame 0, then throws at frame 1, stays at frame 1 and requests no further callback |
| Page.FailedFramePassedOver | index.js:83-120 | on that page the corrected loop passes over frame 1, paints frame 2 and keeps requesting callbacks |

## Findings

| source | as written | input that shows it | evidently intended | confidence | as-written member | corrected member |
|---|---|---|---|---|---|---|
| index.js:83-120 | `drawFrame` guards only on an empty slot, so a frame whose load failed reaches `drawImage`, which throws `InvalidStateError`; the exception leaves `renderLoop` before `currentFrame` advances and before `requestAnimationFrame`, so playback stops | every frame loads except frame 1; after the last callback, `renderLoop(40)` paints frame 0 and `renderLoop(80)` clears the canvas and throws, leaving frame 1 current and no callback requested | a frame that failed to load is skipped and playback continues | not executed; high | Page.FailedFrameHaltsPlayback | Page.HeroPage.RenderLoopSkippingFailed |

## Left out

- The fade-in `IntersectionObserver` (index.js:142-160): a platform observer whose callback adds the class `visible` to each entry reported as intersecting (threshold 0.1) and never removes it.
- DOM lookups, style and `innerText` writes, and the CSS transform strings (index.js:2-7, 67-68, 73-74, 179, 183): only the numbers that feed them are modelled.
- Canvas calls `clearRect`/`drawImage` and setting `canvas.width`/`canvas.height` (index.js:103, 119, 129-130): `DrawFrame` returns how the call ends and, when it paints, the frame and rectangle instead.
- Where an exception thrown by `drawImage` goes after it leaves `renderLoop` or `resizeCanvas` (the browser's error reporting): the methods report `Threw` and stop where the JavaScript function stops.
- `new Image()`, loading `img.src` over the network and `console.error` (index.js:32-34, 52): how and in what order images settle is chosen by the caller of `Settle`.
- `requestAnimationFrame` and `addEventListener` (index.js:78, 96, 138, 167, 182): one callback is one method call; `RenderLoop` reports whether it asked for another.
- IEEE-754 rounding: the fit, interval, remainder and tilt arithmetic is over exact reals, and the percentage is exact integer division.
- `images` is held as two sequences (the `src` of each slot and how its load ended) rather than as `Image` objects; the objects are never shared or replaced, so nothing about aliasing is lost.
- Before the first `resizeCanvas` the JavaScript canvas size is `undefined`; the constructor starts it at 0 and resizes at once, as the script does at index.js:189.
- Padding.Pad: `num` is a non-negative integer; JavaScript's numerals for negative, fractional or very large numbers are not modelled (the script only pads 0..662).
- Page.HeroPage.Settle: requires the slot to be still pending, because the browser fires exactly one of `onload`/`onerror` once per image, and a loaded image to have a positive natural size, since a zero width or height would make the aspect ratio 0, infinite or NaN in JavaScript.
- Tilt.CardTilt: requires a card of positive width and height; a zero-size card would give infinite or NaN fractions in JavaScript.
- Tilt.Fraction: requires a positive side length, for the same reason.
