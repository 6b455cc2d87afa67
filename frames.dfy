/**
 * The scan-frame overlays of src/components/Scanner/ScannerFrame.tsx and
 * src/components/Frame.tsx: a box of the client size whose four borders
 * darken everything outside a centred square of side `clipSize`.
 */
module ScannerFrame {
  import opened Wrappers
  import opened Geometry

  /** `frameMargin` */
  const FrameMargin: real := 30.0

  /** The frame's style record: its box and its top/right/bottom/left border widths. */
  datatype FrameStyle = FrameStyle(width: real, height: real, borderTop: real, borderRight: real, borderBottom: real, borderLeft: real)

  /** `clipSize`: the smaller side of `calculateContainSize(sizes.video, sizes.client)`. */
  function ClipSize(s: Sizes): (clip: real)
    requires PositiveSizes(s)
    ensures clip > 0.0
  {
    var c := CalculateContainSize(s.video, s.client);
    Min(c.height, c.width)
  }

  /** As written, the clip square is measured in the video's intrinsic pixels: it fits the video, not the client box. */
  lemma ClipFitsVideo(s: Sizes)
    requires PositiveSizes(s)
    ensures ClipSize(s) <= s.video.width && ClipSize(s) <= s.video.height
  {
    ContainFits(s.video, s.client);
  }

  /** The rendered frame, or nothing (`None`) when the controller has no sizes yet. */
  function Render(sizes: Option<Sizes>): (r: Option<FrameStyle>)
    requires sizes.Some? ==> PositiveSizes(sizes.value)
    ensures r.None? <==> sizes.None?
    ensures r.Some? ==> r.value.width == sizes.value.client.width && r.value.height == sizes.value.client.height
    ensures r.Some? ==> r.value.borderTop == r.value.borderBottom && r.value.borderLeft == r.value.borderRight
  {
    match sizes
    case None => None
    case Some(s) =>
      var clip := ClipSize(s);
      var offsetX := CenterOffset(s.client.width, clip) as real + FrameMargin;
      var offsetY := CenterOffset(s.client.height, clip) as real + FrameMargin;
      Some(FrameStyle(s.client.width, s.client.height, offsetY, offsetX, offsetY, offsetX))
  }

  /**
   * The window left between opposite borders is the clip square shrunk by
   * the margin on each side, widened by less than two pixels of floor rounding.
   */
  lemma RenderWindow(s: Sizes)
    requires PositiveSizes(s)
    ensures var f := Render(Some(s)).value;
      && ClipSize(s) - 2.0 * FrameMargin <= f.width - f.borderLeft - f.borderRight < ClipSize(s) - 2.0 * FrameMargin + 2.0
      && ClipSize(s) - 2.0 * FrameMargin <= f.height - f.borderTop - f.borderBottom < ClipSize(s) - 2.0 * FrameMargin + 2.0
  {
    CenterOffsetBounds(s.client.width, ClipSize(s));
    CenterOffsetBounds(s.client.height, ClipSize(s));
  }

  /** A 1920x1080 video shown in a 640x360 element. */
  const LargeVideo: Sizes := Sizes(Size(1920.0, 1080.0), Size(640.0, 360.0))

  /** As written, a video larger than its element yields negative border widths. */
  lemma NegativeBorders()
    ensures Render(Some(LargeVideo)).value.borderLeft == -190.0
    ensures Render(Some(LargeVideo)).value.borderTop == -330.0
  {
    var c := CalculateContainSize(LargeVideo.video, LargeVideo.client);
    assert 640.0 / 360.0 == 1920.0 / 1080.0;
    assert c == Size(1920.0, 1080.0);
    assert ClipSize(LargeVideo) == 1080.0;
    assert CenterOffset(640.0, 1080.0) == -220;
    assert CenterOffset(360.0, 1080.0) == -360;
  }

  /** The clip square measured in the element's pixels: the video's aspect ratio contained in the client box. */
  function CorrectedClipSize(s: Sizes): (clip: real)
    requires PositiveSizes(s)
    ensures 0.0 < clip <= s.client.width && clip <= s.client.height
  {
    ContainFits(s.client, s.video);
    var c := CalculateContainSize(s.client, s.video);
    Min(c.height, c.width)
  }

  /** The frame computed from `CorrectedClipSize`. */
  function CorrectedRender(sizes: Option<Sizes>): (r: Option<FrameStyle>)
    requires sizes.Some? ==> PositiveSizes(sizes.value)
    ensures r.None? <==> sizes.None?
    ensures r.Some? ==> r.value.width == sizes.value.client.width && r.value.height == sizes.value.client.height
    ensures r.Some? ==> r.value.borderTop == r.value.borderBottom && r.value.borderLeft == r.value.borderRight
  {
    match sizes
    case None => None
    case Some(s) =>
      var clip := CorrectedClipSize(s);
      var offsetX := CenterOffset(s.client.width, clip) as real + FrameMargin;
      var offsetY := CenterOffset(s.client.height, clip) as real + FrameMargin;
      Some(FrameStyle(s.client.width, s.client.height, offsetY, offsetX, offsetY, offsetX))
  }

  /** With the corrected clip every border is at least the margin, and the window is centred in the box. */
  lemma CorrectedBordersAtLeastMargin(s: Sizes)
    requires PositiveSizes(s)
    ensures var f := CorrectedRender(Some(s)).value;
      && f.borderTop >= FrameMargin && f.borderLeft >= FrameMargin
      && CorrectedClipSize(s) - 2.0 * FrameMargin <= f.width - f.borderLeft - f.borderRight < CorrectedClipSize(s) - 2.0 * FrameMargin + 2.0
      && CorrectedClipSize(s) - 2.0 * FrameMargin <= f.height - f.borderTop - f.borderBottom < CorrectedClipSize(s) - 2.0 * FrameMargin + 2.0
  {
    CenterOffsetBounds(s.client.width, CorrectedClipSize(s));
    CenterOffsetBounds(s.client.height, CorrectedClipSize(s));
  }
}

module Frame {
  import opened Wrappers
  import opened Geometry
  import ScannerFrame

  /** `padding=30` */
  const DefaultPadding: real := 30.0

  /** The frame's style record; `width`/`height` are `undefined` and `display` is `none` without sizes. */
  datatype FrameStyle = FrameStyle(
    width: Option<real>, height: Option<real>,
    borderTop: real, borderRight: real, borderBottom: real, borderLeft: real,
    display: bool)

  /** The `Frame` component's style for `videoSize` and the optional `padding` prop. */
  function Render(videoSize: Option<Sizes>, padding: Option<real>): (r: FrameStyle)
    requires videoSize.Some? ==> PositiveSizes(videoSize.value)
    ensures r.display <==> videoSize.Some?
    ensures r.borderTop == r.borderBottom && r.borderLeft == r.borderRight
    ensures videoSize.None? ==>
      && r.width == None && r.height == None
      && r.borderTop == r.borderLeft == (if padding.Some? then padding.value else DefaultPadding)
    ensures videoSize.Some? ==> r.width == Some(videoSize.value.client.width) && r.height == Some(videoSize.value.client.height)
  {
    var pad := if padding.Some? then padding.value else DefaultPadding;
    var clipSize := if videoSize.Some? then ScannerFrame.ClipSize(videoSize.value) else 0.0;
    var offsetVertical := if videoSize.Some? then CenterOffset(videoSize.value.client.height, clipSize) else 0;
    var offsetHorizontal := if videoSize.Some? then CenterOffset(videoSize.value.client.width, clipSize) else 0;
    FrameStyle(
      if videoSize.Some? then Some(videoSize.value.client.width) else None,
      if videoSize.Some? then Some(videoSize.value.client.height) else None,
      offsetVertical as real + pad, offsetHorizontal as real + pad,
      offsetVertical as real + pad, offsetHorizontal as real + pad,
      videoSize.Some?)
  }

  /**
   * Each border is its centring offset plus the padding, so the window
   * between opposite borders is the clip square shrunk by the padding on
   * each side, widened by less than two pixels of rounding.
   */
  lemma RenderWindow(s: Sizes, padding: Option<real>)
    requires PositiveSizes(s)
    ensures var f := Render(Some(s), padding);
      var pad := if padding.Some? then padding.value else DefaultPadding;
      var clip := ScannerFrame.ClipSize(s);
      && clip - 2.0 * pad <= s.client.width - f.borderLeft - f.borderRight < clip - 2.0 * pad + 2.0
      && clip - 2.0 * pad <= s.client.height - f.borderTop - f.borderBottom < clip - 2.0 * pad + 2.0
  {
    CenterOffsetBounds(s.client.width, ScannerFrame.ClipSize(s));
    CenterOffsetBounds(s.client.height, ScannerFrame.ClipSize(s));
  }

  /** As written, the large-video example gives this frame negative borders too. */
  lemma NegativeBorders()
    ensures Render(Some(ScannerFrame.LargeVideo), None).borderLeft == -190.0
  {
    ScannerFrame.NegativeBorders();
  }

  /** The frame computed from the corrected clip size. */
  function CorrectedRender(videoSize: Option<Sizes>, padding: Option<real>): (r: FrameStyle)
    requires videoSize.Some? ==> PositiveSizes(videoSize.value)
    ensures r.display <==> videoSize.Some?
    ensures r.borderTop == r.borderBottom && r.borderLeft == r.borderRight
  {
    var pad := if padding.Some? then padding.value else DefaultPadding;
    var clipSize := if videoSize.Some? then ScannerFrame.CorrectedClipSize(videoSize.value) else 0.0;
    var offsetVertical := if videoSize.Some? then CenterOffset(videoSize.value.client.height, clipSize) else 0;
    var offsetHorizontal := if videoSize.Some? then CenterOffset(videoSize.value.client.width, clipSize) else 0;
    FrameStyle(
      if videoSize.Some? then Some(videoSize.value.client.width) else None,
      if videoSize.Some? then Some(videoSize.value.client.height) else None,
      offsetVertical as real + pad, offsetHorizontal as real + pad,
      offsetVertical as real + pad, offsetHorizontal as real + pad,
      videoSize.Some?)
  }

  /** With the corrected clip no border is thinner than the padding. */
  lemma CorrectedBordersAtLeastPadding(videoSize: Option<Sizes>, padding: Option<real>)
    requires videoSize.Some? ==> PositiveSizes(videoSize.value)
    ensures var f := CorrectedRender(videoSize, padding);
      var pad := if padding.Some? then padding.value else DefaultPadding;
      f.borderTop >= pad && f.borderLeft >= pad
  {
    if videoSize.Some? {
      var s := videoSize.value;
      CenterOffsetBounds(s.client.width, ScannerFrame.CorrectedClipSize(s));
      CenterOffsetBounds(s.client.height, ScannerFrame.CorrectedClipSize(s));
    }
  }
}
