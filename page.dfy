/** The page-lifetime state of index.js and the handlers that change it:
    preloading (index.js:30-79), the render loop (index.js:83-120) and
    canvas resizing (index.js:124-136). */
module Page {
  import opened Config
  import FrameNames
  import Padding
  import Progress
  import CoverFit
  import Playback

  datatype Option<T> = None | Some(value: T)

  /** What the browser has done with one `Image` object. */
  datatype LoadState = Pending | Loaded(naturalWidth: nat, naturalHeight: nat) | Failed

  /** One `ctx.drawImage` call that paints: which frame, and where. */
  datatype Drawing = Drawing(frame: nat, rect: CoverFit.Rect)

  /** How a call of `drawFrame` ends. `drawImage` paints a decoded image,
      returns without painting an image that has not finished loading, and
      throws an `InvalidStateError` for an image whose load failed (the HTML
      canvas "check the usability of the image argument" step); in the last
      two cases `clearRect` has already blanked the canvas. */
  datatype DrawResult =
    | Skipped                    // returned at the empty-slot guard; canvas untouched
    | Blank                      // canvas cleared, image still loading: nothing painted
    | Painted(drawing: Drawing)  // canvas cleared, frame painted
    | Threw                      // canvas cleared, then drawImage threw

  /** How many images have fired `onload` or `onerror`. */
  function SettledCount(loads: seq<LoadState>): (n: nat)
    ensures n <= |loads|
    ensures n == |loads| <==> forall k :: 0 <= k < |loads| ==> loads[k] != Pending
  {
    if loads == [] then 0
    else SettledCount(loads[..|loads| - 1]) + (if loads[|loads| - 1] == Pending then 0 else 1)
  }

  /** A pending image that settles, whether it loaded or failed, adds exactly
      one to the count. */
  lemma {:induction false} SettledCountSettle(loads: seq<LoadState>, i: nat, s: LoadState)
    requires i < |loads| && loads[i] == Pending && s != Pending
    ensures SettledCount(loads[i := s]) == SettledCount(loads) + 1
  {
    var after := loads[i := s];
    var n := |loads|;
    if i == n - 1 {
      assert after[..n - 1] == loads[..n - 1];
    } else {
      assert after[..n - 1] == loads[..n - 1][i := s];
      SettledCountSettle(loads[..n - 1], i, s);
    }
  }

  lemma {:induction false} SettledCountAppendPending(loads: seq<LoadState>)
    ensures SettledCount(loads + [Pending]) == SettledCount(loads)
  {
    assert (loads + [Pending])[..|loads|] == loads;
  }

  /** Slot i holds the image whose `src` is frame i's file name. */
  ghost predicate NamedByIndex(sources: seq<string>) {
    forall k :: 0 <= k < |sources| ==> sources[k] == FrameNames.FrameName(k)
  }

  lemma NamedByIndexAppend(sources: seq<string>, name: string)
    requires NamedByIndex(sources) && name == FrameNames.FrameName(|sources|)
    ensures NamedByIndex(sources + [name])
  {
  }

  /** The aspect ratio the page uses: that of frame 0 once it has loaded,
      16:9 until then (and for good if frame 0 fails). */
  function AspectRatio(loads: seq<LoadState>): (a: real)
    ensures a > 0.0
  {
    if |loads| > 0 && loads[0].Loaded? && loads[0].naturalHeight > 0 && loads[0].naturalWidth > 0
    then (loads[0].naturalWidth as real) / (loads[0].naturalHeight as real)
    else DefaultAspect
  }

  /** The globals of index.js (lines 14-20). The array `images` is held as
      two sequences of equal length: the `src` of each slot's `Image` object,
      and how that object's load has ended. A slot exists once
      `preloadImages` has stored an object in it. */
  class HeroPage {
    var sources: seq<string>
    var loads: seq<LoadState>
    var imagesLoaded: nat
    var currentFrame: nat
    var lastFrameTime: real
    var isPlaying: bool
    var canvasWidth: real
    var canvasHeight: real
    var imageAspectRatio: real
    /** Whether a `requestAnimationFrame(renderLoop)` callback is pending. */
    var frameRequested: bool
    /** How many times `startAnimation` has run. */
    ghost var startCount: nat

    /** What `drawFrame` needs: a slot's load state for every slot, and the
        numbers of a fit rectangle. */
    ghost predicate Drawable()
      reads this
    {
      |sources| == |loads| && imageAspectRatio > 0.0 && canvasWidth >= 0.0 && canvasHeight >= 0.0
    }

    /** The images held so far are frames 0 .. |sources|-1, by name. */
    ghost predicate FrameStore()
      reads this
    {
      && |sources| == |loads| <= TotalFrames
      && NamedByIndex(sources)
      // a decoded image has a positive size
      && (forall k :: 0 <= k < |loads| && loads[k].Loaded? ==>
            loads[k].naturalWidth > 0 && loads[k].naturalHeight > 0)
    }

    ghost predicate Valid()
      reads this
    {
      && Drawable()
      && FrameStore()
      && imagesLoaded == SettledCount(loads)
      && imageAspectRatio == AspectRatio(loads)
      && currentFrame < TotalFrames
      // playing exactly when every frame has settled, started exactly once then
      && (isPlaying <==> imagesLoaded == TotalFrames)
      && startCount == (if isPlaying then 1 else 0)
      && (!isPlaying ==> currentFrame == 0 && lastFrameTime == 0.0 && !frameRequested)
    }

    /** The script's start: the globals' initial values (index.js:14-20),
        then `resizeCanvas()` and `preloadImages()` (index.js:189-190). */
    constructor (innerWidth: real, innerHeight: real)
      requires innerWidth >= 0.0 && innerHeight >= 0.0
      ensures Valid()
      ensures |sources| == TotalFrames
      ensures forall k :: 0 <= k < TotalFrames ==> sources[k] == FrameNames.FrameName(k) && loads[k] == Pending
      ensures imagesLoaded == 0 && !isPlaying && startCount == 0
      ensures currentFrame == 0 && lastFrameTime == 0.0
      ensures canvasWidth == innerWidth && canvasHeight == innerHeight
      ensures imageAspectRatio == DefaultAspect && !frameRequested
    {
      sources, loads := [], [];
      imagesLoaded := 0;
      currentFrame := 0;
      lastFrameTime := 0.0;
      isPlaying := false;
      canvasWidth, canvasHeight := 0.0, 0.0;
      imageAspectRatio := DefaultAspect;
      frameRequested := false;
      startCount := 0;
      new;
      var drawn := ResizeCanvas(innerWidth, innerHeight);
      PreloadImages();
    }

    /** `drawFrame` (index.js:99-120) as written: only an empty slot is
        skipped, so the slot of a frame whose load failed reaches `drawImage`,
        which throws. */
    function DrawFrame(): (d: DrawResult)
      reads this
      requires Drawable()
      ensures d.Skipped? <==> currentFrame >= |sources|
      ensures d.Blank? <==> currentFrame < |sources| && loads[currentFrame] == Pending
      ensures d.Threw? <==> currentFrame < |sources| && loads[currentFrame].Failed?
      ensures d.Painted? <==> currentFrame < |sources| && loads[currentFrame].Loaded?
      ensures d.Painted? ==>
        d.drawing == Drawing(currentFrame, CoverFit.Cover(canvasWidth, canvasHeight, imageAspectRatio))
    {
      if currentFrame >= |sources| then Skipped
      else
        match loads[currentFrame]
        case Pending => Blank
        case Failed => Threw
        case Loaded(_, _) =>
          Painted(Drawing(currentFrame, CoverFit.Cover(canvasWidth, canvasHeight, imageAspectRatio)))
    }

    /** `drawFrame` as evidently intended: a frame whose load failed is
        skipped like an empty slot, leaving the previous picture on the
        canvas, so it never throws. */
    function DrawFrameSkippingFailed(): (d: DrawResult)
      reads this
      requires Drawable()
      ensures !d.Threw?
      ensures d.Skipped? <==> currentFrame >= |sources| || loads[currentFrame].Failed?
      ensures currentFrame < |sources| && !loads[currentFrame].Failed? ==> d == DrawFrame()
    {
      if currentFrame >= |sources| || loads[currentFrame].Failed? then Skipped
      else DrawFrame()
    }

    /** `resizeCanvas` (index.js:124-136): takes the window size, and redraws
        at once only while not playing and once slot 0 exists. The result is
        `None` when `drawFrame` is not called; a `Threw` result ends the
        handler with an exception after the new size is set. */
    method ResizeCanvas(innerWidth: real, innerHeight: real) returns (drawn: Option<DrawResult>)
      requires Drawable() && innerWidth >= 0.0 && innerHeight >= 0.0
      modifies this`canvasWidth, this`canvasHeight
      ensures Drawable() && (old(Valid()) ==> Valid())
      ensures canvasWidth == innerWidth && canvasHeight == innerHeight
      ensures drawn == if !isPlaying && |sources| > 0 then Some(DrawFrame()) else None
      // before playback the current frame is 0: a resize paints frame 0 if it
      // has loaded, and throws if it failed
      ensures old(Valid()) && !isPlaying && |sources| > 0 ==>
        && (loads[0].Loaded? ==> drawn == Some(Painted(Drawing(0, CoverFit.Cover(innerWidth, innerHeight, imageAspectRatio)))))
        && (loads[0].Failed? ==> drawn == Some(Threw))
    {
      canvasWidth := innerWidth;
      canvasHeight := innerHeight;
      drawn := None;
      if !isPlaying && |sources| > 0 {
        drawn := Some(DrawFrame());
      }
    }

    /** The loop of `preloadImages` (index.js:31-62): one `Image` per frame,
        its `src` built with `pad`, none of them settled yet. */
    method PreloadImages()
      requires Valid() && sources == []
      modifies this`sources, this`loads
      ensures Valid()
      ensures |sources| == TotalFrames
      ensures forall k :: 0 <= k < TotalFrames ==> sources[k] == FrameNames.FrameName(k) && loads[k] == Pending
    {
      for i := 0 to TotalFrames
        invariant |sources| == |loads| == i
        invariant NamedByIndex(sources)
        invariant forall k :: 0 <= k < i ==> loads[k] == Pending
        invariant SettledCount(loads) == 0
        invariant AspectRatio(loads) == DefaultAspect
      {
        var digits := Padding.Pad(i, IndexWidth);
        var filename := Prefix + digits + Extension;
        NamedByIndexAppend(sources, filename);
        SettledCountAppendPending(loads);
        sources := sources + [filename];
        loads := loads + [Pending];
      }
    }

    /** `updateProgress` (index.js:65-69): the percentage shown. */
    function ProgressPercent(): (p: nat)
      reads this
      requires imagesLoaded <= TotalFrames
      ensures p <= 100
      ensures p == 100 <==> imagesLoaded == TotalFrames
    {
      Progress.Percentage(imagesLoaded)
    }

    /** `startAnimation` (index.js:71-79). */
    method StartAnimation()
      requires !isPlaying
      modifies this`isPlaying, this`frameRequested, this`startCount
      ensures isPlaying && frameRequested && startCount == old(startCount) + 1
    {
      isPlaying := true;
      startCount := startCount + 1;
      frameRequested := true;
    }

    /** The `onload` (index.js:36-49) and `onerror` (index.js:51-59) handlers
        of image `i`; `outcome` is how its load ended, and the window size is
        what `resizeCanvas` reads when frame 0 loads. Returns the percentage
        shown, what was drawn, and whether `startAnimation` ran. */
    method Settle(i: nat, outcome: LoadState, innerWidth: real, innerHeight: real)
      returns (percent: nat, drawn: Option<DrawResult>, started: bool)
      requires Valid()
      requires i < |loads| && loads[i] == Pending
      requires outcome != Pending
      requires outcome.Loaded? ==> outcome.naturalWidth > 0 && outcome.naturalHeight > 0
      requires innerWidth >= 0.0 && innerHeight >= 0.0
      modifies this`loads, this`imagesLoaded, this`imageAspectRatio, this`canvasWidth,
               this`canvasHeight, this`isPlaying, this`frameRequested, this`startCount
      ensures Valid()
      ensures loads == old(loads)[i := outcome]
      // success and failure count alike
      ensures imagesLoaded == old(imagesLoaded) + 1
      ensures percent == Progress.Percentage(imagesLoaded)
      ensures percent >= Progress.Percentage(old(imagesLoaded))
      // starts exactly at the settle that completes the count
      ensures started <==> imagesLoaded == TotalFrames
      ensures isPlaying == started && frameRequested == started
      ensures startCount == old(startCount) + (if started then 1 else 0)
      // only a successful load of frame 0 changes the aspect ratio and resizes
      ensures imageAspectRatio ==
        if i == 0 && outcome.Loaded?
        then (outcome.naturalWidth as real) / (outcome.naturalHeight as real)
        else old(imageAspectRatio)
      ensures if i == 0 && outcome.Loaded?
              then canvasWidth == innerWidth && canvasHeight == innerHeight
                   && drawn == Some(Painted(Drawing(0, CoverFit.Cover(innerWidth, innerHeight, imageAspectRatio))))
              else canvasWidth == old(canvasWidth) && canvasHeight == old(canvasHeight) && drawn == None
    {
      // the platform records how the load ended
      SettledCountSettle(loads, i, outcome);
      loads := loads[i := outcome];
      imagesLoaded := imagesLoaded + 1;
      percent := ProgressPercent();
      Progress.PercentageMonotone(old(imagesLoaded), imagesLoaded);
      drawn := None;
      if i == 0 && outcome.Loaded? {
        imageAspectRatio := (outcome.naturalWidth as real) / (outcome.naturalHeight as real);
        drawn := ResizeCanvas(innerWidth, innerHeight);
      }
      assert FrameStore() && Drawable();
      assert imageAspectRatio == AspectRatio(loads);
      started := imagesLoaded == TotalFrames;
      if started {
        StartAnimation();
      }
    }

    /** `renderLoop` (index.js:83-97) as written, called with `timestamp`.
        Returns what `drawFrame` did (`None` when not called) and whether it
        asked for another callback. When `drawFrame` throws, the exception
        leaves `renderLoop` after `lastFrameTime` was updated and before the
        frame advances and the next callback is requested: playback stops. */
    method RenderLoop(timestamp: real) returns (drawn: Option<DrawResult>, rescheduled: bool)
      requires Valid()
      modifies this`currentFrame, this`lastFrameTime, this`frameRequested
      ensures Valid()
      ensures frameRequested == rescheduled
      ensures !isPlaying ==>
        drawn == None && !rescheduled
        && currentFrame == old(currentFrame) && lastFrameTime == old(lastFrameTime)
      ensures isPlaying && !Playback.Advances(old(lastFrameTime), timestamp) ==>
        drawn == None && rescheduled
        && currentFrame == old(currentFrame) && lastFrameTime == old(lastFrameTime)
      ensures isPlaying && Playback.Advances(old(lastFrameTime), timestamp) ==>
        && drawn == Some(old(DrawFrame()))
        && lastFrameTime == Playback.NextTick(old(currentFrame), old(lastFrameTime), timestamp).lastFrameTime
        && (if loads[old(currentFrame)].Failed?
            then drawn == Some(Threw) && !rescheduled && currentFrame == old(currentFrame)
            else rescheduled
                 && currentFrame == Playback.NextTick(old(currentFrame), old(lastFrameTime), timestamp).frame)
    {
      if !isPlaying {
        frameRequested := false;
        return None, false;
      }
      var interval := Playback.Interval;
      var elapsed := timestamp - lastFrameTime;
      drawn := None;
      if elapsed > interval {
        lastFrameTime := timestamp - Playback.JsRemainder(elapsed, interval);
        var result := DrawFrame();
        drawn := Some(result);
        if result.Threw? {
          // the exception propagates out of renderLoop
          frameRequested := false;
          return drawn, false;
        }
        currentFrame := (currentFrame + 1) % TotalFrames;
      }
      rescheduled := true;
      frameRequested := true;
    }

    /** `renderLoop` with the corrected `drawFrame`: while playing it always
        requests the next callback, follows `NextTick` exactly, and passes
        over a failed frame without drawing it. */
    method RenderLoopSkippingFailed(timestamp: real) returns (drawn: Option<DrawResult>, rescheduled: bool)
      requires Valid()
      modifies this`currentFrame, this`lastFrameTime, this`frameRequested
      ensures Valid()
      ensures frameRequested == rescheduled && rescheduled == isPlaying
      ensures !isPlaying ==>
        drawn == None && currentFrame == old(currentFrame) && lastFrameTime == old(lastFrameTime)
      ensures isPlaying ==>
        Playback.Tick(currentFrame, lastFrameTime)
          == Playback.NextTick(old(currentFrame), old(lastFrameTime), timestamp)
      ensures isPlaying ==>
        drawn == if Playback.Advances(old(lastFrameTime), timestamp)
                 then Some(old(DrawFrameSkippingFailed())) else None
      ensures drawn != Some(Threw)
      ensures isPlaying && Playback.Advances(old(lastFrameTime), timestamp) ==>
        (drawn == Some(Skipped) <==> loads[old(currentFrame)].Failed?)
    {
      if !isPlaying {
        frameRequested := false;
        return None, false;
      }
      var interval := Playback.Interval;
      var elapsed := timestamp - lastFrameTime;
      drawn := None;
      if elapsed > interval {
        lastFrameTime := timestamp - Playback.JsRemainder(elapsed, interval);
        drawn := Some(DrawFrameSkippingFailed());
        currentFrame := (currentFrame + 1) % TotalFrames;
      }
      rescheduled := true;
      frameRequested := true;
    }
  }

  /** The preloader's callbacks arriving in any order: `order` lists the frame
      indices in the order they settle, `outcomes[k]` how the k-th one ended.
      Whatever the order and however many fail, the percentages shown never
      go down and end at 100, and `startAnimation` runs at the last settle
      and at no other. */
  method SettleAll(page: HeroPage, order: seq<nat>, outcomes: seq<LoadState>, innerWidth: real, innerHeight: real)
    returns (percents: seq<nat>, starts: seq<bool>)
    requires page.Valid() && page.imagesLoaded == 0 && |page.loads| == TotalFrames
    requires forall k :: 0 <= k < TotalFrames ==> page.loads[k] == Pending
    requires |order| == TotalFrames && |outcomes| == TotalFrames
    requires forall k :: 0 <= k < |order| ==> order[k] < TotalFrames
    requires forall a, b :: 0 <= a < b < |order| ==> order[a] != order[b]
    requires forall k :: 0 <= k < |outcomes| ==> outcomes[k] != Pending
    requires forall k :: 0 <= k < |outcomes| && outcomes[k].Loaded? ==>
               outcomes[k].naturalWidth > 0 && outcomes[k].naturalHeight > 0
    requires innerWidth >= 0.0 && innerHeight >= 0.0
    modifies page`loads, page`imagesLoaded, page`imageAspectRatio, page`canvasWidth,
             page`canvasHeight, page`isPlaying, page`frameRequested, page`startCount
    ensures page.Valid() && page.isPlaying && page.startCount == 1
    ensures page.imagesLoaded == TotalFrames && page.frameRequested
    ensures forall k :: 0 <= k < |order| ==> page.loads[order[k]] == outcomes[k]
    ensures |percents| == TotalFrames && percents[TotalFrames - 1] == 100
    ensures forall a, b :: 0 <= a < b < |percents| ==> percents[a] <= percents[b]
    ensures |starts| == TotalFrames
    ensures forall k :: 0 <= k < |starts| ==> (starts[k] <==> k == TotalFrames - 1)
  {
    percents, starts := [], [];
    for k := 0 to TotalFrames
      invariant page.Valid() && |page.loads| == TotalFrames
      invariant page.imagesLoaded == k && page.frameRequested == page.isPlaying
      invariant forall j :: k <= j < TotalFrames ==> page.loads[order[j]] == Pending
      invariant forall j :: 0 <= j < k ==> page.loads[order[j]] == outcomes[j]
      invariant |percents| == k && |starts| == k
      invariant forall a, b :: 0 <= a < b < k ==> percents[a] <= percents[b]
      invariant k > 0 ==> percents[k - 1] == Progress.Percentage(k)
      invariant forall j :: 0 <= j < k ==> (starts[j] <==> j == TotalFrames - 1)
    {
      var percent, drawn, started := page.Settle(order[k], outcomes[k], innerWidth, innerHeight);
      percents := percents + [percent];
      starts := starts + [started];
    }
  }

  /** A page on which every frame loads except frame 1, after all 663
      callbacks have arrived in index order: playing, with the first
      `renderLoop` callback requested. */
  method PageWithFailedFrame(innerWidth: real, innerHeight: real) returns (page: HeroPage)
    requires innerWidth >= 0.0 && innerHeight >= 0.0
    ensures fresh(page)
    ensures page.Valid() && page.isPlaying && page.frameRequested
    ensures page.currentFrame == 0 && page.lastFrameTime == 0.0
    ensures page.loads[0].Loaded? && page.loads[1] == Failed && page.loads[2].Loaded?
  {
    page := new HeroPage(innerWidth, innerHeight);
    var order: seq<nat> := seq(TotalFrames, k => k);
    var outcomes := seq(TotalFrames, k => if k == 1 then Failed else Loaded(1920, 1080));
    var percents, starts := SettleAll(page, order, outcomes, innerWidth, innerHeight);
    assert order[0] == 0 && order[1] == 1 && order[2] == 2;
  }

  /** The render loop as written halts at the first failed frame: frame 0 is
      painted, then at frame 1 `drawImage` throws, the frame does not advance
      and no further callback is requested, so the canvas stays blank. */
  method FailedFrameHaltsPlayback() returns (first: Option<DrawResult>, second: Option<DrawResult>, rescheduled: bool, frame: nat)
    ensures first.Some? && first.value.Painted? && first.value.drawing.frame == 0
    ensures second == Some(Threw)
    ensures !rescheduled && frame == 1
  {
    var page := PageWithFailedFrame(1280.0, 720.0);
    var again;
    first, again := page.RenderLoop(40.0);
    second, rescheduled := page.RenderLoop(80.0);
    frame := page.currentFrame;
  }

  /** With the corrected `drawFrame` the same page keeps playing: frame 1 is
      passed over without drawing and frame 2 is painted next. */
  method FailedFramePassedOver() returns (second: Option<DrawResult>, third: Option<DrawResult>, rescheduled: bool)
    ensures second == Some(Skipped)
    ensures third.Some? && third.value.Painted? && third.value.drawing.frame == 2
    ensures rescheduled
  {
    var page := PageWithFailedFrame(1280.0, 720.0);
    var first, again := page.RenderLoopSkippingFailed(40.0);
    second, again := page.RenderLoopSkippingFailed(80.0);
    third, rescheduled := page.RenderLoopSkippingFailed(120.0);
  }
}
