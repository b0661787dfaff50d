# Structure preview: the geometric pipeline

This project models `drawcopypaste.py`, a script that turns a JSON list of placed
building pieces (foundations, walls, doorways) into a top-down PNG preview. It
covers the geometry between the parsed document and the drawing calls:

- `Geometry` holds vectors, 3x3 matrices and the Euler rotation `rx * ry * rz`.
  Cosine and sine are parameters, so no trigonometry is evaluated.
- `Element` models `StructureElement`. It derives the shape key from the prefab
  path, defaults `pos` and `rot` to the origin, and fails on a missing identity
  field.
- `Loader` models `StructureLoader`. It parses the default position and the
  entities, applies the stable foundation-first sort, and computes
  `getMin`/`getMax`.
- `ShapeTable` holds the packed `drawElementsTable` and its decoder. The decoder
  walks each draw list with the cursor step `i += 3 + count`.
- `Drawer` models `StructureDrawer`:
  - canvas sizing, the centring offset and the pivot
  - `toImageCoords`
  - the background grid
  - per-element drawing, as the ordered list of draw commands issued
- `CommandLine` covers the choice of output file name only.

Coordinates are exact reals. Python's `int()` on a float is `Geometry.Trunc`, which
truncates toward zero.

The methods `getMin`, `getMax` and `drawElements` read the module-global `loader`
instead of `self` (drawcopypaste.py:108-112, 122-126, 192). The script has exactly
one loader, so they are modelled as functions of the element sequence.

`rx * ry * rz` is applied to a column vector, so the Z rotation acts first and X
last (`Geometry.FromEulerOrder`).

## Model

| member | source | states |
|---|---|---|
| `Geometry.Trunc` | drawcopypaste.py:142-143 | `int()` truncates toward zero: for a non-negative argument the result is the floor, for a negative one the ceiling |
| `Geometry.Add` | drawcopypaste.py:41-42 | `__add__` is undone by subtracting either summand |
| `Geometry.Rotate` | drawcopypaste.py:44-47 | `rotate` by the identity matrix returns the vector unchanged |
| `Geometry.RotateByColumns` | drawcopypaste.py:44-47 | `rotate` weights the matrix columns by the vector's components and sums them |
| `Geometry.FromEuler` | drawcopypaste.py:63-72 | `rx` turns about X, `ry` about Y and `rz` about Z: each keeps its own axis as both row and column |
| `Geometry.RotateAdd` | drawcopypaste.py:41-47 | `rotate` is the matrix-vector product and distributes over `__add__` |
| `Geometry.RotateMul` | drawcopypaste.py:44-47 | rotating by a matrix product applies the right factor first, then the left |
| `Geometry.FromEulerOrder` | drawcopypaste.py:63-72 | the element rotation `rx * ry * rz` acts on a local point as Z first, then Y, then X |
| `Geometry.FromEulerZero` | drawcopypaste.py:57-72 | zero Euler angles give the identity matrix, given cos 0 = 1 and sin 0 = 0 |
| `Geometry.ElementaryRotationsPreserveLength` | drawcopypaste.py:63-71 | each elementary rotation keeps squared length when c^2 + s^2 = 1 |
| `Element.ShortName` | drawcopypaste.py:53 | the shape key is a `/`-free suffix of the prefab path; a `/` precedes it when it is shorter; it is the whole path when there is no `/` |
| `Element.ShortNameAfterSlash` | drawcopypaste.py:53 | whatever precedes the last `/` does not affect the shape key |
| `Element.ContainsIffOccurs` | drawcopypaste.py:105 | the substring test `"foundation" in shortname` holds exactly when the pattern occurs at some position |
| `Element.MakeElement` | drawcopypaste.py:49-72 | succeeds exactly when `ownerid`, `prefabname` and `skinid` are present; a missing `ownerid` is reported first; `ownerid`, `prefabname` and `skinid` are kept; `pos`/`rot` default to the origin; the rotation is built from `rot` |
| `Element.MissingRotationIsIdentity` | drawcopypaste.py:57-72 | an element without `rot` leaves every local vector unrotated |
| `Loader.MakeElements` | drawcopypaste.py:102-104 | the entities build exactly when every record does; the i-th element comes from the i-th record |
| `Loader.ParseScene` | drawcopypaste.py:92-105 | the default position falls back to the origin; a document without `entities` has no elements; otherwise the elements are a permutation of the built ones, foundations first, each group in input order |
| `Loader.SortFoundationFirst` | drawcopypaste.py:105 | the sort keeps the number of elements (its ordering and permutation properties are in the next three rows) |
| `Loader.SortFoundationFirstSpec` | drawcopypaste.py:105 | the stable reverse sort on the foundation flag permutes its input, puts every foundation first and keeps each group's relative order |
| `Loader.SortIsPartition` | drawcopypaste.py:105 | the insertion sort equals the independent definition "foundations, then the rest, each in input order" |
| `Loader.FoundationsAreFoundations` | drawcopypaste.py:105 | the two groups are homogeneous and together hold exactly the input |
| `Loader.SortKeepsOrderedInput` | drawcopypaste.py:105 | an input already in foundation-first order is left unchanged |
| `Loader.LowerAll` | drawcopypaste.py:112-118 | the `getMin` scan is below the accumulator and every position, each component being the accumulator's or some element's |
| `Loader.UpperAll` | drawcopypaste.py:126-132 | the `getMax` scan is above the accumulator and every position, each component being the accumulator's or some element's |
| `Loader.MinCorner` | drawcopypaste.py:107-119 | `getMin`: the origin for no elements; otherwise below every position, each component attained by some element |
| `Loader.MaxCorner` | drawcopypaste.py:121-133 | `getMax`: the origin for no elements; otherwise above every position, each component attained by some element |
| `Loader.MinBelowMax` | drawcopypaste.py:107-133 | for a non-empty scene the box is not inverted |
| `Loader.BoxExample` | drawcopypaste.py:107-133 | positions (1,0,2), (-3,0,5), (0,0,-1) give the box (-3,0,-1) to (1,0,5) |
| `ShapeTable.ReadVerts` | drawcopypaste.py:178-183 | the inner loop reads ceil(count/2) pairs and fails exactly when the last pair lies past the end of the list |
| `ShapeTable.ReadVertsInOrder` | drawcopypaste.py:180 | the k-th vertex is the pair at offsets 2k and 2k+1, in list order |
| `ShapeTable.PairsHalf` | drawcopypaste.py:178-183 | the inner loop runs (count + 1) / 2 times |
| `ShapeTable.Decode` | drawcopypaste.py:172-188 | a successful walk lands exactly on the end of the list, and each record has a count of at least -2 and ceil(count/2) vertices, none for a count below 1; a list of 1 or 2 numbers fails |
| `ShapeTable.DecodeStep` | drawcopypaste.py:172-188 | a record whose count names every coordinate decodes back to itself, and the walk continues right after it |
| `ShapeTable.ShortStepWalk` | drawcopypaste.py:172-188 | a count of -1 advances the cursor by 2 only: `[0, -1, 1, 0, 5]` walks as an empty polygon followed by an empty line of width 5 |
| `ShapeTable.DecodeEncode` | drawcopypaste.py:20-26 | decoding inverts packing for records whose count names every coordinate |
| `ShapeTable.FoundationEntry` | drawcopypaste.py:21 | the foundation entry is one polygon of width 1 with 4 corners |
| `ShapeTable.TriangleEntry` | drawcopypaste.py:22 | the triangle entry is one polygon of width 1 with 3 corners |
| `ShapeTable.WallEntry` | drawcopypaste.py:23 | the wall entry is one line of width 5 with 2 points |
| `ShapeTable.DoorwayEntry` | drawcopypaste.py:24-25 | the doorway entry is two lines of width 5 with 2 points each |
| `ShapeTable.TableWellFormed` | drawcopypaste.py:20-26 | every table entry decodes, and its walk ends exactly at its length |
| `Drawer.CanvasWidth` | drawcopypaste.py:142-151 | the width lies in [300, 1024]; the truncated scaled extent is kept when in range, otherwise raised to 300 or cut to 1024 |
| `Drawer.CanvasHeight` | drawcopypaste.py:143-151 | the height lies in [300, 768]; the truncated scaled Z extent is kept when in range, otherwise raised to 300 or cut to 768 |
| `Drawer.CentringOffset` | drawcopypaste.py:141 | `min + offset = -(max + offset)`: the offset centres the box on the origin |
| `Drawer.Layout` | drawcopypaste.py:136-153 | the constructor's canvas: size ranges and pass-through, pivot at half the size, centring offset |
| `Drawer.LayoutIgnoresY` | drawcopypaste.py:140-143 | the vertical extent never changes the canvas size |
| `Drawer.PointCanvas` | drawcopypaste.py:140-153 | a box of zero extent gets the 300 x 300 canvas with pivot (150, 150), and its offset cancels the point |
| `Drawer.EmptySceneCanvas` | drawcopypaste.py:107-109 | an empty scene gets the 300 x 300 canvas with zero offset |
| `Drawer.ProjectOrigin` | drawcopypaste.py:152-153 | the origin projects to the canvas centre |
| `Drawer.ToImageCoords` | drawcopypaste.py:165-166 | the ground-plane inverse recovers the projected vector with its elevation dropped |
| `Drawer.ProjectOrientation` | drawcopypaste.py:165-166 | the projection ignores y; a larger z gives a strictly smaller pixel Y; a larger x a strictly larger pixel X |
| `Drawer.ProjectAffine` | drawcopypaste.py:165-166 | a displacement moves the pixel by 30 times its x and minus 30 times its z |
| `Drawer.ProjectRoundTrip` | drawcopypaste.py:165-166 | the ground-plane inverse undoes the projection in both directions, losing only elevation |
| `Drawer.GridRange` | drawcopypaste.py:160 | `range(start, stop, 20)`: the k-th entry is start + 20k, below stop, and the range reaches stop |
| `Drawer.GridPositions` | drawcopypaste.py:160-162 | grid positions are the multiples of 20 in [0, limit), ceil(limit/20) of them |
| `Drawer.Background` | drawcopypaste.py:158-163 | full-height vertical lines at x = 20k, then full-width horizontal lines at y = 20k |
| `Drawer.PlaceAll` | drawcopypaste.py:179-182 | each vertex is rotated, moved by position plus offset, and projected, keeping table order |
| `Drawer.FigureCommand` | drawcopypaste.py:184-187 | figure 0 issues one polygon and figure 1 one line, with the record's width through its placed vertices; any other figure issues nothing |
| `Drawer.DrawElement` | drawcopypaste.py:168-189 | a shape key missing from the table draws nothing without error; otherwise drawing succeeds exactly when the draw list decodes |
| `Drawer.DrawElements` | drawcopypaste.py:191-193 | drawing all elements succeeds exactly when each element draws |
| `Drawer.CollectAppend` | drawcopypaste.py:191-193 | collected commands of two runs concatenate, and the first failure wins |
| `Drawer.DrawElementsAppend` | drawcopypaste.py:191-193 | draw order is element order: the commands of `a + b` are those of `a`, then those of `b` |
| `Drawer.UnknownShapeDrawsNothing` | drawcopypaste.py:170 | an element with an unknown shape key can be removed from any position without changing the commands |
| `Drawer.TableDrawsWithoutFailure` | drawcopypaste.py:20-26 | with the built-in table, drawing never fails |
| `Drawer.FoundationCommands` | drawcopypaste.py:21 | a foundation issues one polygon of width 1 through its four placed corners, in table order |
| `Drawer.TriangleCommands` | drawcopypaste.py:22 | a triangular foundation issues one polygon of width 1 through three placed corners |
| `Drawer.WallCommands` | drawcopypaste.py:23 | a wall issues one line of width 5 between two placed points |
| `Drawer.DoorwayCommands` | drawcopypaste.py:24-25 | a doorway issues two lines of width 5, either side of the opening |
| `Drawer.Render` | drawcopypaste.py:218-220 | the picture succeeds exactly when every element draws; it then has the scene canvas's size, within the canvas ranges, the background grid of that canvas, and the elements' commands in draw order |
| `Drawer.LoneElementCanvas` | drawcopypaste.py:138-153 | a single element gets the minimum canvas with an offset cancelling its position |
| `Drawer.CentredUnrotatedVertex` | drawcopypaste.py:169-181 | for an unrotated element whose position is cancelled by the offset, a local vertex lands 30 pixels per unit from the pivot |
| `Drawer.LoneFoundationDraws` | drawcopypaste.py:168-193 | a lone unrotated foundation issues one polygon: the square 45 pixels either side of the centre of the 300 x 300 canvas |
| `Drawer.LoneFoundationRender` | drawcopypaste.py:218-220 | a scene of one unrotated foundation renders at 300 x 300 with that square as its only shape |
| `Drawer.SingleFoundationScene` | drawcopypaste.py:218-220 | one unrotated foundation, placed anywhere, renders as the square from (105, 105) to (195, 195) on a 300 x 300 canvas |
| `CommandLine.AsWrittenIgnoresOutputArgument` | drawcopypaste.py:221 | as written, a second argument other than `new.png` is ignored: the saved name differs from the one the usage text promises |
| `CommandLine.OutputName` | drawcopypaste.py:199 | the name from the usage text: the second argument when given, otherwise a `.png` name that differs from the input's |

## Left out

- PIL is left out: image creation, `polygon`/`line` rasterisation, fill and outline
  colours, and the PNG save (drawcopypaste.py:9-13, 154-155, 161, 163, 185, 187, 195-196).
  Drawing is modelled as the ordered list of commands issued.
- JSON reading and the `try`/`finally` around the file (drawcopypaste.py:75-89) are
  left out. The document comes in already parsed as `RawScene`, with absent fields
  as `None`.
- An unreadable file, and the unbound `f` in that `finally`, are not modelled. Nor
  is the `valid` flag.
- The command-line body and its `print` diagnostics are left out
  (drawcopypaste.py:156, 198-217), apart from the output-name choice in
  `CommandLine`.
- `math.cos`/`math.sin` are not evaluated (drawcopypaste.py:63-71). They are
  function parameters, and the lemmas that need them state `cos 0 = 1`,
  `sin 0 = 0` or `c^2 + s^2 = 1` as assumptions on those parameters.
- IEEE float rounding is not modelled. Arithmetic is exact on reals, and
  `float(...)` conversions are the identity.
- `Vector.__array__` and `__str__`, `StructureLoader.__str__` and `save` are
  left out. They are printing, numpy and file plumbing.
- JSON values are not typed dynamically. `ownerid` and `skinid` are integers and
  `prefabname` is a string. A JSON value of another type is not modelled.
- A `pos`/`rot` record or a `default.position` missing a component
  (drawcopypaste.py:56-61, 98-100) raises `KeyError` in the script; this is not
  modelled, since each is parsed as a complete `Vector`.
- A missing `ownerid`, `prefabname` or `skinid` raises `KeyError`, which ends the
  script. The model reports it as `Err(MissingField(..))`.
- Counts of -1 and -2 in a draw list are modelled as written: a figure without
  points is issued and the cursor `i += 3 + count` moves on by 2 or 1
  (`ShapeTable.ShortStepWalk`). A count of -3 leaves the cursor in place, so the
  script loops forever; a count of -4 or below moves it back, re-reading earlier
  numbers. The model reports every count below -2 as `CursorStuck` instead. No
  entry of the built-in table has a negative count.
- `ShapeTable.DecodeEncode` covers only records whose count is twice their
  vertex number. An odd count is decoded as written: the last pair reads one
  number past the record.
- The default position parsed into `Scene.origin` is printed by the script but
  never used in drawing, so the picture does not depend on it.

## Findings

| source | as written | input that shows it | evidently intended | confidence | as-written member | corrected member |
|---|---|---|---|---|---|---|
| drawcopypaste.py:221 | the image is always saved as `new.png`; `sys.argv[2]` is never read | `python drawcopypaste.py base.json base.png` writes `new.png`, not `base.png` | the usage text at line 199 offers an optional output name: use it when given, otherwise derive a name from the input | not executed; high that the argument is ignored, low on the exact default name | `CommandLine.AsWrittenIgnoresOutputArgument` | `CommandLine.OutputName` |
