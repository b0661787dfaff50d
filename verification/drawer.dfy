/** The renderer (`StructureDrawer`): canvas sizing from the bounding box, the
    world-to-pixel projection, the background grid, and the per-element decoding of
    the shape table into draw commands. Drawing itself is modelled as the list of
    commands issued, in order. */
module Drawer {
  import opened Results
  import opened Geometry
  import opened Element
  import opened Loader
  import opened ShapeTable

  const ImageScale: real := 30.0
  const MinImageWidth: int := 300
  const MaxImageWidth: int := 1024
  const MinImageHeight: int := 300
  const MaxImageHeight: int := 768
  const GridStep: int := 20

  /** The geometry fixed at construction: pixel size, pivot (canvas centre) and the
      world offset that re-centres the bounding box. */
  datatype Canvas = Canvas(width: int, height: int, pivotX: real, pivotY: real, offset: Vector)

  /** A point in image space; y grows downwards. */
  datatype Pixel = Pixel(px: real, py: real)

  /** One drawing call for an element: a filled, outlined polygon or a stroked line. */
  datatype DrawCommand =
    | Polygon(width: int, points: seq<Pixel>)
    | Line(width: int, points: seq<Pixel>)

  /** One background grid line from `(x0, y0)` to `(x1, y1)`. */
  datatype GridLine = GridLine(x0: int, y0: int, x1: int, y1: int)

  /** The two adjustments of the constructor, in their order: raise to `lo`, then cut
      to `hi`. */
  function Clamp(raw: int, lo: int, hi: int): int
  {
    var raised := if raw < lo then lo else raw;
    if raised > hi then hi else raised
  }

  /** The canvas width for an X extent: `int(extent * 30)` kept inside [300, 1024]. */
  function CanvasWidth(extent: real): (w: int)
    ensures MinImageWidth <= w <= MaxImageWidth
    ensures MinImageWidth <= Trunc(extent * ImageScale) <= MaxImageWidth ==>
              w == Trunc(extent * ImageScale)
    ensures Trunc(extent * ImageScale) < MinImageWidth ==> w == MinImageWidth
    ensures Trunc(extent * ImageScale) > MaxImageWidth ==> w == MaxImageWidth
  {
    Clamp(Trunc(extent * ImageScale), MinImageWidth, MaxImageWidth)
  }

  /** The canvas height for a Z extent: `int(extent * 30)` kept inside [300, 768]. */
  function CanvasHeight(extent: real): (h: int)
    ensures MinImageHeight <= h <= MaxImageHeight
    ensures MinImageHeight <= Trunc(extent * ImageScale) <= MaxImageHeight ==>
              h == Trunc(extent * ImageScale)
    ensures Trunc(extent * ImageScale) < MinImageHeight ==> h == MinImageHeight
    ensures Trunc(extent * ImageScale) > MaxImageHeight ==> h == MaxImageHeight
  {
    Clamp(Trunc(extent * ImageScale), MinImageHeight, MaxImageHeight)
  }

  /** `offset = -(max + min) / 2`: it moves the box so that its ends lie symmetrically
      about the origin. */
  function CentringOffset(lo: Vector, hi: Vector): (o: Vector)
    ensures Add(lo, o) == Neg(Add(hi, o))
  {
    Vector(-0.5 * (hi.x + lo.x), -0.5 * (hi.y + lo.y), -0.5 * (hi.z + lo.z))
  }

  /** The constructor's sizing for a bounding box `lo`..`hi`. */
  function Layout(lo: Vector, hi: Vector): (c: Canvas)
    ensures MinImageWidth <= c.width <= MaxImageWidth
    ensures MinImageHeight <= c.height <= MaxImageHeight
    ensures MinImageWidth <= Trunc((hi.x - lo.x) * ImageScale) <= MaxImageWidth ==>
              c.width == Trunc((hi.x - lo.x) * ImageScale)
    ensures MinImageHeight <= Trunc((hi.z - lo.z) * ImageScale) <= MaxImageHeight ==>
              c.height == Trunc((hi.z - lo.z) * ImageScale)
    ensures c.pivotX == c.width as real / 2.0 && c.pivotY == c.height as real / 2.0
    ensures Add(lo, c.offset) == Neg(Add(hi, c.offset))
  {
    var width := CanvasWidth(hi.x - lo.x);
    var height := CanvasHeight(hi.z - lo.z);
    Canvas(width, height, width as real * 0.5, height as real * 0.5, CentringOffset(lo, hi))
  }

  /** The vertical extent of the box never changes the canvas size. */
  lemma LayoutIgnoresY(lo: Vector, hi: Vector, y0: real, y1: real)
    ensures Layout(lo.(y := y0), hi.(y := y1)).width == Layout(lo, hi).width
    ensures Layout(lo.(y := y0), hi.(y := y1)).height == Layout(lo, hi).height
  {
  }

  /** The canvas of a scene, from the bounding box of its element positions. */
  function SceneCanvas(es: seq<Element>): Canvas
  {
    Layout(MinCorner(es), MaxCorner(es))
  }

  /** A box of zero extent, such as a scene of one element, gets the minimum
      canvas, and its offset cancels the point. */
  lemma PointCanvas(p: Vector)
    ensures Layout(p, p) == Canvas(MinImageWidth, MinImageHeight, 150.0, 150.0, Neg(p))
  {
    assert p.x - p.x == 0.0 && p.z - p.z == 0.0;
    assert Trunc(0.0 * ImageScale) == 0;
    assert CanvasWidth(0.0) == MinImageWidth;
    assert CanvasHeight(0.0) == MinImageHeight;
  }

  /** An empty scene gets the minimum canvas centred on the origin. */
  lemma EmptySceneCanvas()
    ensures SceneCanvas([]) == Canvas(MinImageWidth, MinImageHeight, 150.0, 150.0, Origin)
  {
    PointCanvas(Origin);
  }

  /** `toImageCoords`: X to the right, Z upwards (image Y inverted), scaled by 30 and
      shifted to the pivot. */
  function ToImageCoords(c: Canvas, v: Vector): (p: Pixel)
    ensures FromImageCoords(c, p) == v.(y := 0.0)
  {
    Pixel(v.x * ImageScale + c.pivotX, -v.z * ImageScale + c.pivotY)
  }

  /** The inverse of the projection on the ground plane (y = 0). */
  function FromImageCoords(c: Canvas, p: Pixel): Vector
  {
    Vector((p.px - c.pivotX) / ImageScale, 0.0, -(p.py - c.pivotY) / ImageScale)
  }

  /** The origin lands on the pivot, which is the canvas centre. */
  lemma ProjectOrigin(lo: Vector, hi: Vector)
    ensures var c := Layout(lo, hi);
      ToImageCoords(c, Origin) == Pixel(c.width as real / 2.0, c.height as real / 2.0)
  {
  }

  /** The projection ignores elevation and turns a rise in Z into a strict fall in
      image Y, a rise in X into a strict rise in image X. */
  lemma ProjectOrientation(c: Canvas, a: Vector, b: Vector)
    ensures ToImageCoords(c, a.(y := b.y)) == ToImageCoords(c, a)
    ensures a.z < b.z ==> ToImageCoords(c, b).py < ToImageCoords(c, a).py
    ensures a.x < b.x ==> ToImageCoords(c, a).px < ToImageCoords(c, b).px
  {
  }

  /** The projection is affine: a displacement moves the pixel by 30 times its X and
      minus 30 times its Z. */
  lemma ProjectAffine(c: Canvas, a: Vector, d: Vector)
    ensures ToImageCoords(c, Add(a, d))
         == Pixel(ToImageCoords(c, a).px + ImageScale * d.x, ToImageCoords(c, a).py - ImageScale * d.z)
  {
  }

  /** Projection and its inverse undo each other: pixels exactly, points up to the
      elevation they lose. */
  lemma ProjectRoundTrip(c: Canvas, p: Pixel, v: Vector)
    ensures ToImageCoords(c, FromImageCoords(c, p)) == p
    ensures FromImageCoords(c, ToImageCoords(c, v)) == v.(y := 0.0)
  {
  }

  /** `range(start, stop, 20)`. */
  function GridRange(start: int, stop: int): (r: seq<int>)
    decreases stop - start
    ensures forall k :: 0 <= k < |r| ==> r[k] == start + GridStep * k && r[k] < stop
    ensures start < stop ==> |r| > 0 && stop <= start + GridStep * |r|
  {
    if start >= stop then [] else [start] + GridRange(start + GridStep, stop)
  }

  /** The grid positions `range(0, limit, 20)`: multiples of 20 strictly below `limit`,
      `ceil(limit / 20)` of them. */
  lemma GridPositions(limit: int, x: int)
    requires limit > 0
    ensures |GridRange(0, limit)| == (limit + GridStep - 1) / GridStep
    ensures x in GridRange(0, limit) <==> 0 <= x < limit && x % GridStep == 0
  {
    var r := GridRange(0, limit);
    var n := |r|;
    assert r[n - 1] == GridStep * (n - 1) < limit <= GridStep * n;
    if 0 <= x < limit && x % GridStep == 0 {
      var k := x / GridStep;
      assert GridStep * k == x;
      assert k < n;
      assert r[k] == x;
    }
    if x in r {
      var k :| 0 <= k < n && r[k] == x;
      assert x == GridStep * k;
    }
  }

  function VerticalLines(xs: seq<int>, height: int): (r: seq<GridLine>)
    ensures |r| == |xs| && forall k :: 0 <= k < |xs| ==> r[k] == GridLine(xs[k], 0, xs[k], height)
  {
    if |xs| == 0 then [] else [GridLine(xs[0], 0, xs[0], height)] + VerticalLines(xs[1..], height)
  }

  function HorizontalLines(ys: seq<int>, width: int): (r: seq<GridLine>)
    ensures |r| == |ys| && forall k :: 0 <= k < |ys| ==> r[k] == GridLine(0, ys[k], width, ys[k])
  {
    if |ys| == 0 then [] else [GridLine(0, ys[0], width, ys[0])] + HorizontalLines(ys[1..], width)
  }

  /** `drawBackground`: full-height vertical lines at x = 0, 20, ... below the width,
      then full-width horizontal lines at y = 0, 20, ... below the height. */
  function Background(c: Canvas): (r: seq<GridLine>)
    ensures var nx := |GridRange(0, c.width)|;
      && |r| == nx + |GridRange(0, c.height)|
      && (forall k :: 0 <= k < nx ==> r[k] == GridLine(GridStep * k, 0, GridStep * k, c.height))
      && (forall k :: nx <= k < |r| ==>
            r[k] == GridLine(0, GridStep * (k - nx), c.width, GridStep * (k - nx)))
  {
    VerticalLines(GridRange(0, c.width), c.height) + HorizontalLines(GridRange(0, c.height), c.width)
  }

  /** One table vertex carried to the image: local `(x, 0, z)`, rotated by the element's
      matrix, moved by the element position plus the canvas offset, then projected. */
  function PlaceVertex(c: Canvas, e: Element, l: Local): Pixel
  {
    ToImageCoords(c, Add(Rotate(e.rotation.Matrix(), Vector(l.x, 0.0, l.z)), Add(e.pos, c.offset)))
  }

  function PlaceAll(c: Canvas, e: Element, vs: seq<Local>): (r: seq<Pixel>)
    ensures |r| == |vs| && forall k :: 0 <= k < |vs| ==> r[k] == PlaceVertex(c, e, vs[k])
  {
    if |vs| == 0 then [] else [PlaceVertex(c, e, vs[0])] + PlaceAll(c, e, vs[1..])
  }

  /** The command for one decoded record: figure 0 a polygon, figure 1 a line, any
      other figure nothing. */
  function FigureCommand(c: Canvas, e: Element, f: Figure): (r: seq<DrawCommand>)
    ensures |r| <= 1
    ensures |r| == 1 <==> f.kind == PolygonFigure || f.kind == LineFigure
    ensures |r| == 1 ==> && (r[0].Polygon? <==> f.kind == PolygonFigure)
                         && r[0].width == f.width
                         && r[0].points == PlaceAll(c, e, f.verts)
  {
    if f.kind == PolygonFigure then [Polygon(f.width, PlaceAll(c, e, f.verts))]
    else if f.kind == LineFigure then [Line(f.width, PlaceAll(c, e, f.verts))]
    else []
  }

  function FigureCommands(c: Canvas, e: Element, fs: seq<Figure>): seq<DrawCommand>
  {
    if |fs| == 0 then [] else FigureCommand(c, e, fs[0]) + FigureCommands(c, e, fs[1..])
  }

  /** `drawElement`: nothing for a shape key the table lacks, otherwise the commands of
      its draw list in list order; a malformed draw list fails. */
  function DrawElement(table: map<string, seq<real>>, c: Canvas, e: Element)
    : (r: Result<seq<DrawCommand>, DecodeError>)
    ensures e.shortname !in table ==> r == Ok([])
    ensures e.shortname in table ==> (r.Ok? <==> Decode(table[e.shortname]).Ok?)
  {
    if e.shortname !in table then Ok([])
    else match Decode(table[e.shortname])
      case Err(err) => Err(err)
      case Ok(fs) => Ok(FigureCommands(c, e, fs))
  }

  /** The per-element outcomes concatenated in order; the first failure ends the walk. */
  function Collect(rs: seq<Result<seq<DrawCommand>, DecodeError>>)
    : (r: Result<seq<DrawCommand>, DecodeError>)
    ensures r.Ok? <==> forall i :: 0 <= i < |rs| ==> rs[i].Ok?
  {
    if |rs| == 0 then Ok([])
    else match rs[0]
      case Err(err) => Err(err)
      case Ok(first) =>
        match Collect(rs[1..])
        case Err(err) =>
          assert forall i :: 1 <= i < |rs| ==> rs[1..][i - 1] == rs[i];
          Err(err)
        case Ok(more) =>
          assert forall i :: 1 <= i < |rs| ==> rs[1..][i - 1] == rs[i];
          Ok(first + more)
  }

  lemma {:induction false} CollectAppend(a: seq<Result<seq<DrawCommand>, DecodeError>>,
                                         b: seq<Result<seq<DrawCommand>, DecodeError>>)
    ensures Collect(a).Ok? && Collect(b).Ok? ==>
              Collect(a + b) == Ok(Collect(a).value + Collect(b).value)
    ensures Collect(a).Err? ==> Collect(a + b) == Collect(a)
    ensures Collect(a).Ok? ==> Collect(a + b) == (match Collect(b)
                                                   case Err(err) => Err(err)
                                                   case Ok(v) => Ok(Collect(a).value + v))
  {
    if |a| > 0 {
      assert (a + b)[1..] == a[1..] + b;
      assert (a + b)[0] == a[0];
      CollectAppend(a[1..], b);
      if a[0].Ok? && Collect(a[1..]).Ok? && Collect(b).Ok? {
        var first, restA, vb := a[0].value, Collect(a[1..]).value, Collect(b).value;
        assert first + (restA + vb) == (first + restA) + vb;
      }
    } else {
      assert a + b == b;
      if Collect(b).Ok? {
        assert [] + Collect(b).value == Collect(b).value;
      }
    }
  }

  /** The outcome of drawing each element, in element order. */
  function ElementResults(table: map<string, seq<real>>, c: Canvas, es: seq<Element>)
    : (rs: seq<Result<seq<DrawCommand>, DecodeError>>)
    ensures |rs| == |es| && forall i :: 0 <= i < |es| ==> rs[i] == DrawElement(table, c, es[i])
  {
    if |es| == 0 then [] else [DrawElement(table, c, es[0])] + ElementResults(table, c, es[1..])
  }

  /** `drawElements`: every element drawn in order, the commands concatenated. */
  function DrawElements(table: map<string, seq<real>>, c: Canvas, es: seq<Element>)
    : (r: Result<seq<DrawCommand>, DecodeError>)
    ensures r.Ok? <==> forall i :: 0 <= i < |es| ==> DrawElement(table, c, es[i]).Ok?
  {
    Collect(ElementResults(table, c, es))
  }

  /** One outcome collects to itself. */
  lemma CollectSingle(x: Result<seq<DrawCommand>, DecodeError>)
    ensures Collect([x]) == x
  {
    assert [x][1..] == [];
    if x.Ok? {
      assert x.value + [] == x.value;
    }
  }

  /** Drawing a one-element list is drawing that element. */
  lemma DrawSingle(table: map<string, seq<real>>, c: Canvas, e: Element)
    ensures DrawElements(table, c, [e]) == DrawElement(table, c, e)
  {
    assert ElementResults(table, c, [e]) == [DrawElement(table, c, e)];
    CollectSingle(DrawElement(table, c, e));
  }

  lemma {:induction false} ElementResultsAppend(table: map<string, seq<real>>, c: Canvas,
                                                 a: seq<Element>, b: seq<Element>)
    ensures ElementResults(table, c, a + b) == ElementResults(table, c, a) + ElementResults(table, c, b)
  {
    if |a| == 0 {
      assert a + b == b;
    } else {
      assert (a + b)[1..] == a[1..] + b;
      assert (a + b)[0] == a[0];
      ElementResultsAppend(table, c, a[1..], b);
      var h := [DrawElement(table, c, a[0])];
      var ra, rb := ElementResults(table, c, a[1..]), ElementResults(table, c, b);
      assert h + (ra + rb) == (h + ra) + rb;
    }
  }

  /** Draw order is element order: the commands of `a + b` are those of `a`, then
      those of `b`. */
  lemma DrawElementsAppend(table: map<string, seq<real>>, c: Canvas, a: seq<Element>, b: seq<Element>)
    requires DrawElements(table, c, a).Ok? && DrawElements(table, c, b).Ok?
    ensures DrawElements(table, c, a + b)
         == Ok(DrawElements(table, c, a).value + DrawElements(table, c, b).value)
  {
    ElementResultsAppend(table, c, a, b);
    CollectAppend(ElementResults(table, c, a), ElementResults(table, c, b));
  }

  /** An element whose shape key is missing from the table adds no commands and
      causes no failure, wherever it stands. */
  lemma UnknownShapeDrawsNothing(table: map<string, seq<real>>, c: Canvas,
                                 a: seq<Element>, e: Element, b: seq<Element>)
    requires e.shortname !in table
    ensures DrawElements(table, c, a + [e] + b) == DrawElements(table, c, a + b)
  {
    var ra, rb := ElementResults(table, c, a), ElementResults(table, c, b);
    var re := ElementResults(table, c, [e]);
    ElementResultsAppend(table, c, a, [e]);
    ElementResultsAppend(table, c, a + [e], b);
    ElementResultsAppend(table, c, a, b);
    assert re == [Ok([])];
    CollectSingle(Ok([]));
    CollectAppend(ra, re);
    CollectAppend(ra + re, rb);
    CollectAppend(ra, rb);
    if Collect(ra).Ok? {
      assert Collect(ra).value + [] == Collect(ra).value;
    }
  }

  /** With the built-in table, drawing never fails. */
  lemma TableDrawsWithoutFailure(c: Canvas, es: seq<Element>)
    ensures DrawElements(Table, c, es).Ok?
  {
    forall i | 0 <= i < |es|
      ensures DrawElement(Table, c, es[i]).Ok?
    {
      if es[i].shortname in Table {
        TableWellFormed(es[i].shortname);
      }
    }
  }

  /** A foundation draws one outlined polygon through its four corners, in table order. */
  lemma FoundationCommands(c: Canvas, e: Element)
    requires e.shortname == "foundation.prefab"
    ensures DrawElement(Table, c, e) == Ok([Polygon(1, [
      PlaceVertex(c, e, Local(-1.5, -1.5)), PlaceVertex(c, e, Local(1.5, -1.5)),
      PlaceVertex(c, e, Local(1.5, 1.5)), PlaceVertex(c, e, Local(-1.5, 1.5))])])
  {
    FoundationEntry();
    var fs := Decode(Table["foundation.prefab"]).value;
    assert fs[1..] == [];
    var vs := fs[0].verts;
    var pts := PlaceAll(c, e, vs);
    assert pts == [PlaceVertex(c, e, vs[0]), PlaceVertex(c, e, vs[1]),
                   PlaceVertex(c, e, vs[2]), PlaceVertex(c, e, vs[3])];
    assert FigureCommand(c, e, fs[0]) == [Polygon(1, pts)];
    assert FigureCommands(c, e, fs[1..]) == [];
    assert FigureCommands(c, e, fs) == [Polygon(1, pts)];
    assert DrawElement(Table, c, e) == Ok(FigureCommands(c, e, fs));
  }

  /** A triangular foundation draws one outlined polygon through its three corners. */
  lemma TriangleCommands(c: Canvas, e: Element)
    requires e.shortname == "foundation.triangle.prefab"
    ensures DrawElement(Table, c, e) == Ok([Polygon(1, [
      PlaceVertex(c, e, Local(-1.5, 0.0)), PlaceVertex(c, e, Local(1.5, 0.0)),
      PlaceVertex(c, e, Local(0.0, 2.62))])])
  {
    TriangleEntry();
    var fs := Decode(Table["foundation.triangle.prefab"]).value;
    assert fs[1..] == [];
    var vs := fs[0].verts;
    var pts := PlaceAll(c, e, vs);
    assert pts == [PlaceVertex(c, e, vs[0]), PlaceVertex(c, e, vs[1]), PlaceVertex(c, e, vs[2])];
    assert FigureCommand(c, e, fs[0]) == [Polygon(1, pts)];
    assert FigureCommands(c, e, fs[1..]) == [];
    assert FigureCommands(c, e, fs) == [Polygon(1, pts)];
    assert DrawElement(Table, c, e) == Ok(FigureCommands(c, e, fs));
  }

  /** A wall draws one line of width 5 along its length. */
  lemma WallCommands(c: Canvas, e: Element)
    requires e.shortname == "wall.prefab"
    ensures DrawElement(Table, c, e) == Ok([
      Line(5, [PlaceVertex(c, e, Local(0.0, -1.5)), PlaceVertex(c, e, Local(0.0, 1.5))])])
  {
    WallEntry();
    var fs := Decode(Table["wall.prefab"]).value;
    assert fs[1..] == [];
    var vs := fs[0].verts;
    var pts := PlaceAll(c, e, vs);
    assert pts == [PlaceVertex(c, e, vs[0]), PlaceVertex(c, e, vs[1])];
    assert FigureCommand(c, e, fs[0]) == [Line(5, pts)];
    assert FigureCommands(c, e, fs[1..]) == [];
    assert FigureCommands(c, e, fs) == [Line(5, pts)];
    assert DrawElement(Table, c, e) == Ok(FigureCommands(c, e, fs));
  }

  /** A doorway draws two lines of width 5 either side of the opening. */
  lemma DoorwayCommands(c: Canvas, e: Element)
    requires e.shortname == "wall.doorway.prefab"
    ensures DrawElement(Table, c, e) == Ok([
      Line(5, [PlaceVertex(c, e, Local(0.0, -1.5)), PlaceVertex(c, e, Local(0.0, -0.7))]),
      Line(5, [PlaceVertex(c, e, Local(0.0, 0.7)), PlaceVertex(c, e, Local(0.0, 1.5))])])
  {
    DoorwayEntry();
    var fs := Decode(Table["wall.doorway.prefab"]).value;
    assert fs[1..] == [fs[1]] && fs[1..][1..] == [];
    var p0 := PlaceAll(c, e, fs[0].verts);
    var p1 := PlaceAll(c, e, fs[1].verts);
    assert p0 == [PlaceVertex(c, e, fs[0].verts[0]), PlaceVertex(c, e, fs[0].verts[1])];
    assert p1 == [PlaceVertex(c, e, fs[1].verts[0]), PlaceVertex(c, e, fs[1].verts[1])];
    assert FigureCommand(c, e, fs[0]) == [Line(5, p0)];
    assert FigureCommand(c, e, fs[1]) == [Line(5, p1)];
    assert FigureCommands(c, e, fs[1..][1..]) == [];
    assert FigureCommands(c, e, fs[1..]) == [Line(5, p1)];
    assert FigureCommands(c, e, fs) == [Line(5, p0), Line(5, p1)];
    assert DrawElement(Table, c, e) == Ok(FigureCommands(c, e, fs));
  }

  /** The whole picture: canvas, grid, then the element commands in draw order. */
  datatype Picture = Picture(width: int, height: int, grid: seq<GridLine>, shapes: seq<DrawCommand>)

  /** The script's rendering of a parsed scene with a shape table. */
  function Render(scene: Scene, table: map<string, seq<real>>): (r: Result<Picture, DecodeError>)
    ensures r.Ok? <==> DrawElements(table, SceneCanvas(scene.elements), scene.elements).Ok?
    ensures r.Ok? ==> MinImageWidth <= r.value.width <= MaxImageWidth
                      && MinImageHeight <= r.value.height <= MaxImageHeight
    ensures r.Ok? ==>
      var c := SceneCanvas(scene.elements);
      && r.value.width == c.width && r.value.height == c.height
      && r.value.grid == Background(c)
      && r.value.shapes == DrawElements(table, c, scene.elements).value
  {
    var c := SceneCanvas(scene.elements);
    match DrawElements(table, c, scene.elements)
    case Err(err) => Err(err)
    case Ok(shapes) => Ok(Picture(c.width, c.height, Background(c), shapes))
  }

  /** A lone element sits at the centre of the minimum canvas wherever it is placed:
      the offset cancels its position. */
  lemma LoneElementCanvas(e: Element)
    ensures SceneCanvas([e]) == Canvas(MinImageWidth, MinImageHeight, 150.0, 150.0, Neg(e.pos))
  {
    assert e in [e];
    assert MinCorner([e]) == e.pos;
    assert MaxCorner([e]) == e.pos;
    PointCanvas(e.pos);
  }

  /** A single unrotated foundation, placed anywhere, renders on the minimum 300 x 300
      canvas as the square whose corners lie 45 pixels either side of the centre. */
  lemma SingleFoundationScene(data: RawEntity, cos: real -> real, sin: real -> real)
    requires cos(0.0) == 1.0 && sin(0.0) == 0.0
    requires data.ownerid.Some? && data.skinid.Some?
    requires data.prefabname == Some("foundation.prefab")
    requires data.rot.None?
    ensures MakeElement(data, cos, sin).Ok?
    ensures var r := Render(Scene(Origin, [MakeElement(data, cos, sin).value]), Table);
      && r.Ok?
      && r.value.width == MinImageWidth && r.value.height == MinImageHeight
      && r.value.shapes == [Polygon(1, [Pixel(105.0, 195.0), Pixel(195.0, 195.0),
                                        Pixel(195.0, 105.0), Pixel(105.0, 105.0)])]
  {
    var e := MakeElement(data, cos, sin).value;
    FoundationKey();
    assert e.rotation == FromEuler(Origin, cos, sin);
    FromEulerZero(cos, sin);
    LoneFoundationRender(e, Origin);
  }

  /** The picture of a scene holding one unrotated foundation. */
  lemma LoneFoundationRender(e: Element, origin: Vector)
    requires e.shortname == "foundation.prefab"
    requires e.rotation.Matrix() == Identity
    ensures var r := Render(Scene(origin, [e]), Table);
      && r.Ok?
      && r.value.width == MinImageWidth && r.value.height == MinImageHeight
      && r.value.shapes == [Polygon(1, [Pixel(105.0, 195.0), Pixel(195.0, 195.0),
                                        Pixel(195.0, 105.0), Pixel(105.0, 105.0)])]
  {
    LoneFoundationDraws(e);
    LoneElementCanvas(e);
  }

  lemma FoundationKey()
    ensures ShortName("foundation.prefab") == "foundation.prefab"
  {
    assert '/' !in "foundation.prefab";
  }

  /** The commands of a lone unrotated foundation: the square 45 pixels either side of
      the centre of the minimum canvas. */
  lemma LoneFoundationDraws(e: Element)
    requires e.shortname == "foundation.prefab"
    requires e.rotation.Matrix() == Identity
    ensures DrawElements(Table, SceneCanvas([e]), [e])
         == Ok([Polygon(1, [Pixel(105.0, 195.0), Pixel(195.0, 195.0),
                            Pixel(195.0, 105.0), Pixel(105.0, 105.0)])])
  {
    var c := SceneCanvas([e]);
    LoneElementCanvas(e);
    CentredUnrotatedVertex(c, e, Local(-1.5, -1.5));
    CentredUnrotatedVertex(c, e, Local(1.5, -1.5));
    CentredUnrotatedVertex(c, e, Local(1.5, 1.5));
    CentredUnrotatedVertex(c, e, Local(-1.5, 1.5));
    FoundationCommands(c, e);
    DrawSingle(Table, c, e);
  }

  /** An unrotated element on a canvas whose offset cancels its position places a
      local vertex 30 pixels per unit from the pivot, with z pointing up the image. */
  lemma CentredUnrotatedVertex(c: Canvas, e: Element, l: Local)
    requires e.rotation.Matrix() == Identity
    requires c.offset == Neg(e.pos)
    ensures PlaceVertex(c, e, l) == Pixel(l.x * ImageScale + c.pivotX, -l.z * ImageScale + c.pivotY)
  {
    var local := Vector(l.x, 0.0, l.z);
    RotateIdentity(local);
    assert Add(e.pos, c.offset) == Origin;
    assert Add(local, Origin) == local;
  }
}
