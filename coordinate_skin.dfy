/** The coordinate-grid skin: its size and rotation centre, the three tiers it
    draws onto its canvas, and the dirty-flag cache of the texture made from it. */
module CoordinateSkins {
  import opened Wrappers
  import opened GridGeometry
  import WebGl

  /** The logical size of the stage, in whole pixels. */
  datatype Size = Size(width: nat, height: nat)

  /** Font size of the axis labels, in pixels, until the setter changes it. */
  const DefaultFontSize: real := 14.0

  /** What a texture request ends in: a (possibly absent) handle, or the error the
      pixel readback raises for a canvas with no width or no height. */
  datatype TextureOutcome = Returned(handle: Option<int>) | ReadbackFailed

  /** A point on the canvas. */
  datatype CanvasPoint = CanvasPoint(x: real, y: real)

  /** A stroked line on the canvas. */
  datatype Stroke = Stroke(from: CanvasPoint, to: CanvasPoint)

  /** A label's text filled on the canvas. */
  datatype Text = Text(text: int, at: CanvasPoint)

  /** Where drawing puts a logical point: the rotation centre plus the offset. */
  function Place(cx: real, cy: real, x: int, y: int): CanvasPoint
  {
    CanvasPoint(cx + x as real, cy + y as real)
  }

  /** The stroke drawn for a segment: both endpoints placed at the segment's offsets
      from the rotation centre. */
  function DrawLine(cx: real, cy: real, s: Segment): Stroke
  {
    Stroke(Place(cx, cy, s.x0, s.y0), Place(cx, cy, s.x1, s.y1))
  }

  /** The text drawn for a label: the label's text at its offset from the rotation
      centre. */
  function DrawText(cx: real, cy: real, l: Label): Text
  {
    Text(l.text, Place(cx, cy, l.x, l.y))
  }

  /** The tiers one render draws, in drawing order. */
  function RenderedTiers(style: CheckerStyle, size: Size): seq<AxisData>
  {
    [ MainAxis(style, size.width, size.height),
      GridAxis(style, size.width, size.height, MajorInterval, true),
      GridAxis(style, size.width, size.height, MinorInterval, false) ]
  }

  /** A render draws the main axis first (its single label "0" at the origin, twice
      the base width), then the labelled 100 tier at the base width, then the 20
      tier with no labels at 0.7 of the base width. */
  lemma RenderedTierOrder(style: CheckerStyle, size: Size)
    ensures var t := RenderedTiers(style, size);
      && |t| == 3
      && t[0].coordPoints == [Label(0, 0, 0)]
      && t[0].attributes.axis.lineWidth == 2.0 * style.axis.lineWidth
      && |t[1].coordPoints| == |t[1].coordinates|
      && t[1].attributes.axis.lineWidth == style.axis.lineWidth
      && t[2].coordPoints == []
      && t[2].attributes.axis.lineWidth == style.axis.lineWidth * 0.7
  {
    GridLabelsFollowSegments(style, size.width, size.height, MajorInterval);
    UnlabelledGrid(style, size.width, size.height, MinorInterval);
  }

  /** Only the main tier lies on the axes: its two segments are the X and Y axes,
      while on a stage with both dimensions positive no line of the 100 or 20 tier
      touches either axis. With a positive base width the main tier is also the
      widest, then the labelled tier, then the unlabelled one. */
  lemma MainAxisAlone(style: CheckerStyle, size: Size)
    requires size.width > 0 && size.height > 0
    ensures var t := RenderedTiers(style, size);
      && OnXAxis(t[0].coordinates[0]) && OnYAxis(t[0].coordinates[1])
      && (forall i, j :: 1 <= i < 3 && 0 <= j < |t[i].coordinates| ==>
            !OnXAxis(t[i].coordinates[j]) && !OnYAxis(t[i].coordinates[j]))
      && (style.axis.lineWidth > 0.0 ==>
            t[0].attributes.axis.lineWidth > t[1].attributes.axis.lineWidth > t[2].attributes.axis.lineWidth)
  {
    GridOffAxes(style, size.width, size.height, MajorInterval, true);
    GridOffAxes(style, size.width, size.height, MinorInterval, false);
  }

  /** After a render, the logical origin is drawn at the centre of the canvas: the
      "0" label sits there, the X axis runs along the middle row and the Y axis along
      the middle column. */
  lemma OriginAtCanvasCentre(skin: CoordinateSkin)
    requires skin.Valid()
    requires skin.canvasWidth == skin.size.width && skin.canvasHeight == skin.size.height
    requires skin.drawn == RenderedTiers(skin.checkerStyle, skin.size)
    ensures var cx, cy := skin.rotationCenter[0], skin.rotationCenter[1];
      var middle := CanvasPoint(skin.canvasWidth as real / 2.0, skin.canvasHeight as real / 2.0);
      var main := skin.drawn[0];
      && DrawText(cx, cy, main.coordPoints[0]) == Text(0, middle)
      && DrawLine(cx, cy, main.coordinates[0]).from.y == middle.y == DrawLine(cx, cy, main.coordinates[0]).to.y
      && DrawLine(cx, cy, main.coordinates[1]).from.x == middle.x == DrawLine(cx, cy, main.coordinates[1]).to.x
  {
  }

  class CoordinateSkin {
    /** The renderer's GL context. */
    const gl: WebGl.Context
    /** The style of every tier; never reassigned. */
    const checkerStyle: CheckerStyle
    /** The origin of all drawing, as a two-element array updated in place. */
    const rotationCenter: array<real>

    var size: Size
    var fontSize: real
    var textureDirty: bool
    var texture: Option<int>

    /** False once the skin has dropped its canvas. */
    var hasCanvas: bool
    /** The canvas dimensions set by the last render. */
    var canvasWidth: nat
    var canvasHeight: nat
    /** The tiers the last render drew, and the label font size it used. */
    var drawn: seq<AxisData>
    var drawnFontSize: real

    /** Renders performed, textures allocated, pixel uploads performed, and whether a
        pixel readback has ever failed. */
    ghost var renders: nat
    ghost var allocations: nat
    ghost var uploads: nat
    ghost var readbackFailed: bool

    ghost predicate Valid()
      reads this, rotationCenter, gl
    {
      && rotationCenter.Length == 2
      && rotationCenter[0] == size.width as real / 2.0
      && rotationCenter[1] == size.height as real / 2.0
      && gl.Valid()
      && (texture.Some? ==> texture.value in gl.live)
      && allocations <= 1
      && (hasCanvas ==> (texture.Some? <==> allocations == 1))
      && (!hasCanvas ==> texture == None)
      && (!textureDirty && hasCanvas ==> renders >= 1)
      && (!textureDirty && hasCanvas && texture.None? ==> readbackFailed)
    }

    constructor (gl: WebGl.Context, nativeSize: Size)
      requires gl.Valid()
      ensures Valid() && fresh(rotationCenter)
      ensures this.gl == gl && checkerStyle == DefaultCheckerStyle
      ensures size == nativeSize && fontSize == DefaultFontSize
      ensures textureDirty && texture == None && hasCanvas
      ensures drawn == [] && renders == 0 && allocations == 0 && uploads == 0 && !readbackFailed
    {
      this.gl := gl;
      checkerStyle := DefaultCheckerStyle;
      rotationCenter := new real[2](_ => 0.0);
      size := Size(0, 0);
      fontSize := DefaultFontSize;
      textureDirty := true;
      texture := None;
      hasCanvas := true;
      // a new canvas element is 300 by 150 until something resizes it
      canvasWidth, canvasHeight := 300, 150;
      drawn := [];
      drawnFontSize := DefaultFontSize;
      renders, allocations, uploads, readbackFailed := 0, 0, 0, false;
      new;
      SetCanvasSize(nativeSize);
    }

    /** Stores the size and puts the rotation centre at its middle; the texture is
        not marked dirty. */
    method SetCanvasSize(canvasSize: Size)
      requires Valid()
      modifies this`size, rotationCenter
      ensures Valid()
      ensures size == canvasSize
      ensures rotationCenter[..] == [canvasSize.width as real / 2.0, canvasSize.height as real / 2.0]
    {
      size := canvasSize;
      rotationCenter[0] := canvasSize.width as real / 2.0;
      rotationCenter[1] := canvasSize.height as real / 2.0;
    }

    /** Changes the label font size only; the texture is not marked dirty. */
    method SetFontSize(value: real)
      requires Valid()
      modifies this`fontSize
      ensures Valid()
      ensures fontSize == value
    {
      fontSize := value;
    }

    /** Resizes the canvas to the (integral) size, which clears it, and draws the
        three tiers in order. */
    method Render()
      requires hasCanvas
      modifies this`canvasWidth, this`canvasHeight, this`drawn, this`drawnFontSize, this`renders
      ensures canvasWidth == size.width && canvasHeight == size.height
      ensures drawn == RenderedTiers(checkerStyle, size)
      ensures drawnFontSize == fontSize
      ensures renders == old(renders) + 1
    {
      canvasWidth := size.width;
      canvasHeight := size.height;
      var mainAxis := MainAxis(checkerStyle, size.width, size.height);
      var unitAxis := BuildGridAxis(checkerStyle, size.width, size.height, MajorInterval, true);
      var detailsAxis := BuildGridAxis(checkerStyle, size.width, size.height, MinorInterval, false);
      drawn := [mainAxis, unitAxis, detailsAxis];
      drawnFontSize := fontSize;
      renders := renders + 1;
    }

    /** While dirty: render once and clear the flag. Then the canvas is read back;
        for a canvas with no width or no height the readback raises an error, so
        nothing is allocated or uploaded. Otherwise a texture is allocated only if none
        is held, and the canvas is uploaded into it. While clean: change nothing and
        return the held handle. */
    method GetTexture() returns (r: TextureOutcome)
      requires Valid()
      requires textureDirty ==> hasCanvas
      modifies this, gl
      ensures Valid()
      ensures !textureDirty
      ensures size == old(size) && fontSize == old(fontSize) && hasCanvas == old(hasCanvas)
      ensures old(textureDirty) ==>
        && renders == old(renders) + 1
        && drawn == RenderedTiers(checkerStyle, size) && drawnFontSize == fontSize
        && canvasWidth == size.width && canvasHeight == size.height
        && gl.deleted == old(gl.deleted)
      ensures old(textureDirty) && (size.width == 0 || size.height == 0) ==>
        && r == ReadbackFailed && readbackFailed
        && texture == old(texture) && allocations == old(allocations) && uploads == old(uploads)
        && unchanged(gl)
      ensures old(textureDirty) && size.width > 0 && size.height > 0 ==>
        && r.Returned? && r.handle == texture && texture.Some?
        && uploads == old(uploads) + 1 && readbackFailed == old(readbackFailed)
        && (old(texture).None? ==>
              && allocations == old(allocations) + 1
              && texture.value !in old(gl.live) && gl.live == old(gl.live) + {texture.value})
        && (old(texture).Some? ==>
              texture == old(texture) && allocations == old(allocations) && unchanged(gl))
      ensures !old(textureDirty) ==> r == Returned(old(texture)) && unchanged(this) && unchanged(gl)
    {
      if textureDirty {
        Render();
        textureDirty := false;
        if canvasWidth == 0 || canvasHeight == 0 {
          // reading back zero pixels in either direction is an error
          readbackFailed := true;
          return ReadbackFailed;
        }
        if texture == None {
          var h := gl.CreateTexture();
          texture := Some(h);
          allocations := allocations + 1;
        }
        uploads := uploads + 1;
      }
      r := Returned(texture);
    }

    /** Deletes a held texture and forgets it, and drops the canvas. */
    method Dispose()
      requires Valid()
      modifies this`texture, this`hasCanvas, gl
      ensures Valid()
      ensures texture == None && !hasCanvas
      ensures old(texture).Some? ==>
        gl.deleted == old(gl.deleted) + [old(texture).value] && gl.live == old(gl.live) - {old(texture).value}
      ensures old(texture).None? ==> unchanged(gl)
    {
      if texture.Some? {
        gl.DeleteTexture(texture.value);
        texture := None;
      }
      hasCanvas := false;
    }
  }

  /** The default 480 by 360 stage through its lifecycle: the rotation centre is
      (240, 180); the first request renders once and allocates one texture; after a
      font-size change a second request returns the same handle without rendering,
      so the canvas keeps the old font size; disposing twice deletes that texture
      exactly once. */
  method DefaultStageLifecycle()
    returns (centre: seq<real>, first: Option<int>, second: Option<int>, drawnFont: real, deletedTextures: seq<int>)
    ensures centre == [240.0, 180.0]
    ensures first.Some? && second == first
    ensures drawnFont == DefaultFontSize
    ensures deletedTextures == [first.value]
  {
    var gl := new WebGl.Context();
    var skin := new CoordinateSkin(gl, Size(480, 360));
    centre := skin.rotationCenter[..];
    var outcome := skin.GetTexture();
    first := outcome.handle;
    assert skin.renders == 1 && skin.allocations == 1;
    OriginAtCanvasCentre(skin);
    skin.SetFontSize(20.0);
    outcome := skin.GetTexture();
    second := outcome.handle;
    assert skin.renders == 1 && skin.allocations == 1;
    drawnFont := skin.drawnFontSize;
    skin.Dispose();
    skin.Dispose();
    deletedTextures := gl.deleted;
  }

  /** A stage with no width: the first request renders, clears the flag and then fails
      at the pixel readback without allocating; every later request returns no
      texture and renders nothing. */
  method ZeroWidthStage() returns (first: TextureOutcome, second: TextureOutcome, liveTextures: set<int>)
    ensures first == ReadbackFailed
    ensures second == Returned(None)
    ensures liveTextures == {}
  {
    var gl := new WebGl.Context();
    var skin := new CoordinateSkin(gl, Size(0, 360));
    first := skin.GetTexture();
    second := skin.GetTexture();
    assert skin.renders == 1 && skin.allocations == 0;
    liveTextures := gl.live;
  }
}
