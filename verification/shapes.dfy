/** The static shape table (`drawElementsTable`) and the decoder for its packed
    draw lists `[figure, count, width, x0, z0, x1, z1, ...]`, walked with the cursor
    step `i += 3 + count`. */
module ShapeTable {
  import opened Results
  import opened Geometry

  /** A vertex in element-local space, on the X/Z plane. */
  datatype Local = Local(x: real, z: real)

  /** One decoded record of a draw list: figure code (0 polygon, 1 line), the raw
      number count, the stroke width and the vertices read. */
  datatype Figure = Figure(kind: int, count: int, width: int, verts: seq<Local>)

  /** Why a draw list cannot be walked: a read past its end (the script raises
      `IndexError`), or a count of -3 or below, after which `i += 3 + count` leaves the
      cursor in place (-3) or moves it back (below -3), so the script loops or re-reads
      earlier numbers. Counts of -1 and -2 still advance the cursor and are walked. */
  datatype DecodeError = Truncated | CursorStuck

  const PolygonFigure: int := 0
  const LineFigure: int := 1

  /** The shape table: shape key to packed draw list. */
  const Table: map<string, seq<real>> := map[
    "foundation.prefab" := [0.0, 8.0, 1.0, -1.5, -1.5, 1.5, -1.5, 1.5, 1.5, -1.5, 1.5],
    "foundation.triangle.prefab" := [0.0, 6.0, 1.0, -1.5, 0.0, 1.5, 0.0, 0.0, 2.62],
    "wall.prefab" := [1.0, 4.0, 5.0, 0.0, -1.5, 0.0, 1.5],
    "wall.doorway.prefab" := [1.0, 4.0, 5.0, 0.0, -1.5, 0.0, -0.7,
                              1.0, 4.0, 5.0, 0.0, 0.7, 0.0, 1.5]
  ]

  /** How many pairs `while j < count: ... j += 2` visits while `remaining = count - j`. */
  function Pairs(remaining: int): nat
    decreases remaining
  {
    if remaining <= 0 then 0 else 1 + Pairs(remaining - 2)
  }

  /** Counted from zero, the loop visits `ceil(count / 2)` pairs. */
  lemma {:induction false} PairsHalf(remaining: int)
    requires remaining >= 0
    ensures Pairs(remaining) == (remaining + 1) / 2
    decreases remaining
  {
    if remaining > 1 {
      PairsHalf(remaining - 2);
    }
  }

  /** The inner loop `while j < count: ... j += 2` of one record. `xs` is the list from
      the record's first coordinate on (`dl[i + 3 + j..]`) and `remaining` is
      `count - j`; each step reads the pair `(xs[0], xs[1])`. It fails exactly when the
      last pair lies past the end of the list. */
  function ReadVerts(xs: seq<real>, remaining: int): (r: Result<seq<Local>, DecodeError>)
    decreases remaining
    ensures r.Err? <==> |xs| < 2 * Pairs(remaining)
    ensures r.Ok? ==> |r.value| == Pairs(remaining)
    ensures r.Ok? && remaining > 0 ==> remaining <= |xs|
  {
    if remaining <= 0 then Ok([])
    else if |xs| < 2 then Err(Truncated)
    else match ReadVerts(xs[2..], remaining - 2)
      case Err(e) => Err(e)
      case Ok(rest) =>
        Ok([Local(xs[0], xs[1])] + rest)
  }

  /** The k-th vertex read is the k-th coordinate pair, in list order. */
  lemma {:induction false} ReadVertsInOrder(xs: seq<real>, remaining: int, k: nat)
    requires ReadVerts(xs, remaining).Ok? && k < |ReadVerts(xs, remaining).value|
    ensures 2 * k + 1 < |xs|
    ensures ReadVerts(xs, remaining).value[k] == Local(xs[2 * k], xs[2 * k + 1])
    decreases remaining
  {
    if k > 0 {
      ReadVertsInOrder(xs[2..], remaining - 2, k - 1);
      assert xs[2..][2 * (k - 1)] == xs[2 * k];
      assert xs[2..][2 * (k - 1) + 1] == xs[2 * k + 1];
    }
  }

  /** The number of table entries a sequence of records occupies: `3 + count` each. */
  function Span(fs: seq<Figure>): int
  {
    if |fs| == 0 then 0 else 3 + fs[0].count + Span(fs[1..])
  }

  /** A decoded record advances the cursor (count at least -2) and holds
      `ceil(count / 2)` vertices, none when the count is not positive. */
  predicate WellCounted(f: Figure)
  {
    f.count >= -2 && |f.verts| == (if f.count <= 0 then 0 else (f.count + 1) / 2)
  }

  /** The outer loop of `drawElement` over one draw list. When it succeeds the cursor
      lands exactly on the end of the list and each record holds `ceil(count/2)`
      vertices. A count of -1 or -2 gives a record without vertices and moves the
      cursor on by 2 or 1, so the walk goes on from inside the record. */
  function Decode(dl: seq<real>): (r: Result<seq<Figure>, DecodeError>)
    decreases |dl|
    ensures r.Ok? ==> Span(r.value) == |dl|
    ensures r.Ok? ==> forall k :: 0 <= k < |r.value| ==> WellCounted(r.value[k])
    ensures 0 < |dl| < 3 ==> r == Err(Truncated)
  {
    if |dl| == 0 then Ok([])
    else if |dl| < 3 then Err(Truncated)
    else
      var count := Trunc(dl[1]);
      if count < -2 then Err(CursorStuck)
      else match ReadVerts(dl[3..], count)
        case Err(e) => Err(e)
        case Ok(vs) =>
          match Decode(dl[3 + count..])
          case Err(e) => Err(e)
          case Ok(rest) =>
            var f := Figure(Trunc(dl[0]), count, Trunc(dl[2]), vs);
            PairsHalf(if count >= 0 then count else 0);
            assert ([f] + rest)[1..] == rest;
            Ok([f] + rest)
  }

  /** The vertices laid out as `x0, z0, x1, z1, ...`. */
  function Flat(vs: seq<Local>): (r: seq<real>)
    ensures |r| == 2 * |vs|
  {
    if |vs| == 0 then [] else [vs[0].x, vs[0].z] + Flat(vs[1..])
  }

  /** A record in the form the table writes: an even count naming every coordinate. */
  predicate Canonical(f: Figure)
  {
    f.count == 2 * |f.verts|
  }

  /** Packs records into a flat draw list. */
  function Encode(fs: seq<Figure>): seq<real>
  {
    if |fs| == 0 then []
    else [fs[0].kind as real, fs[0].count as real, fs[0].width as real] + Flat(fs[0].verts)
         + Encode(fs[1..])
  }

  lemma {:induction false} ReadFlat(vs: seq<Local>, rest: seq<real>)
    ensures ReadVerts(Flat(vs) + rest, 2 * |vs|) == Ok(vs)
  {
    if |vs| > 0 {
      assert (Flat(vs) + rest)[2..] == Flat(vs[1..]) + rest;
      ReadFlat(vs[1..], rest);
      assert [vs[0]] + vs[1..] == vs;
    }
  }

  /** One record in table form decodes back to itself, and the walk goes on with
      whatever follows it. */
  lemma DecodeStep(f: Figure, tail: seq<real>)
    requires Canonical(f)
    ensures Decode([f.kind as real, f.count as real, f.width as real] + Flat(f.verts) + tail)
         == match Decode(tail)
            case Err(e) => Err(e)
            case Ok(rest) => Ok([f] + rest)
  {
    var head: seq<real> := [f.kind as real, f.count as real, f.width as real];
    var dl := head + Flat(f.verts) + tail;
    assert dl[0] == f.kind as real && dl[1] == f.count as real && dl[2] == f.width as real;
    TruncOfInt(f.count);
    TruncOfInt(f.kind);
    TruncOfInt(f.width);
    assert dl[3..] == Flat(f.verts) + tail;
    ReadFlat(f.verts, tail);
    assert dl[3 + f.count..] == tail;
  }

  /** Decoding inverts encoding for records in table form. */
  lemma {:induction false} DecodeEncode(fs: seq<Figure>)
    requires forall k :: 0 <= k < |fs| ==> Canonical(fs[k])
    ensures Decode(Encode(fs)) == Ok(fs)
  {
    if |fs| > 0 {
      var f := fs[0];
      assert Encode(fs) == [f.kind as real, f.count as real, f.width as real] + Flat(f.verts)
                           + Encode(fs[1..]);
      DecodeStep(f, Encode(fs[1..]));
      DecodeEncode(fs[1..]);
      assert [f] + fs[1..] == fs;
    }
  }

  /** The foundation is one 4-vertex polygon of stroke width 1. */
  lemma FoundationEntry()
    ensures Decode(Table["foundation.prefab"]) == Ok([Figure(PolygonFigure, 8, 1,
      [Local(-1.5, -1.5), Local(1.5, -1.5), Local(1.5, 1.5), Local(-1.5, 1.5)])])
  {
    var fs := [Figure(PolygonFigure, 8, 1,
      [Local(-1.5, -1.5), Local(1.5, -1.5), Local(1.5, 1.5), Local(-1.5, 1.5)])];
    assert Encode(fs) == Table["foundation.prefab"];
    DecodeEncode(fs);
  }

  /** The triangle foundation is one 3-vertex polygon of stroke width 1. */
  lemma TriangleEntry()
    ensures Decode(Table["foundation.triangle.prefab"]) == Ok([Figure(PolygonFigure, 6, 1,
      [Local(-1.5, 0.0), Local(1.5, 0.0), Local(0.0, 2.62)])])
  {
    var fs := [Figure(PolygonFigure, 6, 1, [Local(-1.5, 0.0), Local(1.5, 0.0), Local(0.0, 2.62)])];
    assert Encode(fs) == Table["foundation.triangle.prefab"];
    DecodeEncode(fs);
  }

  /** The wall is one 2-vertex line of stroke width 5. */
  lemma WallEntry()
    ensures Decode(Table["wall.prefab"]) == Ok([Figure(LineFigure, 4, 5,
      [Local(0.0, -1.5), Local(0.0, 1.5)])])
  {
    var fs := [Figure(LineFigure, 4, 5, [Local(0.0, -1.5), Local(0.0, 1.5)])];
    assert Encode(fs) == Table["wall.prefab"];
    DecodeEncode(fs);
  }

  /** The doorway is two 2-vertex lines of stroke width 5, leaving the gap open. */
  lemma DoorwayEntry()
    ensures Decode(Table["wall.doorway.prefab"]) == Ok([
      Figure(LineFigure, 4, 5, [Local(0.0, -1.5), Local(0.0, -0.7)]),
      Figure(LineFigure, 4, 5, [Local(0.0, 0.7), Local(0.0, 1.5)])])
  {
    var fs := [
      Figure(LineFigure, 4, 5, [Local(0.0, -1.5), Local(0.0, -0.7)]),
      Figure(LineFigure, 4, 5, [Local(0.0, 0.7), Local(0.0, 1.5)])];
    assert Encode(fs[1..]) == [1.0, 4.0, 5.0, 0.0, 0.7, 0.0, 1.5];
    assert Encode(fs) == Table["wall.doorway.prefab"];
    DecodeEncode(fs);
  }

  /** Every draw list of the table decodes, and its walk ends exactly at its length. */
  lemma TableWellFormed(key: string)
    requires key in Table
    ensures Decode(Table[key]).Ok? && Span(Decode(Table[key]).value) == |Table[key]|
  {
    if key == "foundation.prefab" {
      FoundationEntry();
    } else if key == "foundation.triangle.prefab" {
      TriangleEntry();
    } else if key == "wall.prefab" {
      WallEntry();
    } else {
      DoorwayEntry();
    }
  }

  /** A count of -1 moves the cursor on by 2 only, so the next record starts at the
      width of the first: `[0, -1, 1, 0, 5]` walks as a polygon with no vertices and
      then a line of width 5 with no vertices. */
  lemma ShortStepWalk()
    ensures Decode([0.0, -1.0, 1.0, 0.0, 5.0])
         == Ok([Figure(PolygonFigure, -1, 1, []), Figure(LineFigure, 0, 5, [])])
  {
    var dl := [0.0, -1.0, 1.0, 0.0, 5.0];
    var rest: seq<real> := [1.0, 0.0, 5.0];
    TruncOfInt(-1);
    TruncOfInt(0);
    TruncOfInt(1);
    TruncOfInt(5);
    assert ReadVerts(dl[3..], -1) == Ok([]);
    assert dl[3 + -1..] == rest;
    assert rest[3..] == [] && Decode(rest[3..]) == Ok([]);
    assert Trunc(rest[0]) == 1 && Trunc(rest[1]) == 0 && Trunc(rest[2]) == 5;
    assert ReadVerts(rest[3..], 0) == Ok([]);
    assert rest[3 + 0..] == [];
    assert [Figure(LineFigure, 0, 5, [])] + [] == [Figure(LineFigure, 0, 5, [])];
    assert Decode(rest) == Ok([Figure(LineFigure, 0, 5, [])]);
    assert Trunc(dl[0]) == 0 && Trunc(dl[1]) == -1 && Trunc(dl[2]) == 1;
    assert [Figure(PolygonFigure, -1, 1, [])] + [Figure(LineFigure, 0, 5, [])]
        == [Figure(PolygonFigure, -1, 1, []), Figure(LineFigure, 0, 5, [])];
  }
}
