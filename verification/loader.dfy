/** The scene (`StructureLoader`): parsing the entity list into elements, the
    foundation-first ordering, and the bounding box of element positions. */
module Loader {
  import opened Results
  import opened Geometry
  import opened Element

  /** The parts of the input document the loader reads. */
  datatype RawDefault = RawDefault(position: Option<Vector>)
  datatype RawScene = RawScene(default: Option<RawDefault>, entities: Option<seq<RawEntity>>)

  datatype Scene = Scene(origin: Vector, elements: seq<Element>)

  /** The sort key: the shape key contains "foundation". */
  predicate IsFoundation(e: Element)
  {
    Contains(e.shortname, "foundation")
  }

  /** The foundations of `es`, in their original relative order. */
  function Foundations(es: seq<Element>): seq<Element>
  {
    if |es| == 0 then []
    else Foundations(es[..|es| - 1]) + (if IsFoundation(es[|es| - 1]) then [es[|es| - 1]] else [])
  }

  /** The other elements of `es`, in their original relative order. */
  function Others(es: seq<Element>): seq<Element>
  {
    if |es| == 0 then []
    else Others(es[..|es| - 1]) + (if IsFoundation(es[|es| - 1]) then [] else [es[|es| - 1]])
  }

  /** `int(key)` of the sort key, so that reverse order puts foundations first. */
  function Key(e: Element): int
  {
    if IsFoundation(e) then 1 else 0
  }

  /** Inserts `e` into `sorted` (keys non-increasing) after every entry whose key is
      not below its own, which keeps equal keys in arrival order. */
  function InsertStable(sorted: seq<Element>, e: Element): (r: seq<Element>)
    ensures |r| == |sorted| + 1
  {
    if |sorted| == 0 then [e]
    else if Key(sorted[|sorted| - 1]) >= Key(e) then sorted + [e]
    else
      InsertStable(sorted[..|sorted| - 1], e) + [sorted[|sorted| - 1]]
  }

  /** `elements.sort(reverse=True, key=...)`: a stable sort on the foundation flag,
      true first. */
  function SortFoundationFirst(es: seq<Element>): (r: seq<Element>)
    ensures |r| == |es|
  {
    if |es| == 0 then []
    else
      InsertStable(SortFoundationFirst(es[..|es| - 1]), es[|es| - 1])
  }

  predicate AllFoundations(es: seq<Element>)
  {
    forall i :: 0 <= i < |es| ==> IsFoundation(es[i])
  }

  predicate NoFoundations(es: seq<Element>)
  {
    forall i :: 0 <= i < |es| ==> !IsFoundation(es[i])
  }

  /** Every foundation precedes every other element. */
  predicate FoundationsFirst(es: seq<Element>)
  {
    forall i, j :: 0 <= i < j < |es| && IsFoundation(es[j]) ==> IsFoundation(es[i])
  }

  lemma {:induction false} FoundationsAreFoundations(es: seq<Element>)
    ensures AllFoundations(Foundations(es))
    ensures NoFoundations(Others(es))
    ensures multiset(Foundations(es)) + multiset(Others(es)) == multiset(es)
  {
    GroupsAreHomogeneous(es);
    GroupsSplitInput(es);
  }

  lemma {:induction false} GroupsAreHomogeneous(es: seq<Element>)
    ensures AllFoundations(Foundations(es))
    ensures NoFoundations(Others(es))
  {
    if |es| > 0 {
      GroupsAreHomogeneous(es[..|es| - 1]);
    }
  }

  lemma {:induction false} GroupsSplitInput(es: seq<Element>)
    ensures multiset(Foundations(es)) + multiset(Others(es)) == multiset(es)
  {
    if |es| > 0 {
      var p, x := es[..|es| - 1], es[|es| - 1];
      GroupsSplitInput(p);
      assert es == p + [x];
      assert multiset(es) == multiset(p) + multiset{x};
    }
  }

  lemma {:induction false} InsertIntoPartition(fs: seq<Element>, os: seq<Element>, e: Element)
    requires AllFoundations(fs) && NoFoundations(os)
    ensures InsertStable(fs + os, e) == if IsFoundation(e) then fs + [e] + os else fs + os + [e]
    decreases |os|
  {
    if |os| == 0 {
      assert fs + os == fs;
      if |fs| > 0 {
        assert IsFoundation(fs[|fs| - 1]);
      }
    } else {
      var s := fs + os;
      assert s[|s| - 1] == os[|os| - 1];
      if IsFoundation(e) {
        assert s[..|s| - 1] == fs + os[..|os| - 1];
        InsertIntoPartition(fs, os[..|os| - 1], e);
        assert fs + [e] + os[..|os| - 1] + [os[|os| - 1]] == fs + [e] + os;
      }
    }
  }

  /** The stable sort equals the partition into foundations followed by the rest. */
  lemma {:induction false} SortIsPartition(es: seq<Element>)
    ensures SortFoundationFirst(es) == Foundations(es) + Others(es)
  {
    if |es| > 0 {
      var p := es[..|es| - 1];
      var x := es[|es| - 1];
      SortIsPartition(p);
      GroupsAreHomogeneous(p);
      assert SortFoundationFirst(es) == InsertStable(Foundations(p) + Others(p), x);
      InsertIntoPartition(Foundations(p), Others(p), x);
    }
  }

  lemma {:induction false} FoundationsOfConcat(a: seq<Element>, b: seq<Element>)
    ensures Foundations(a + b) == Foundations(a) + Foundations(b)
    ensures Others(a + b) == Others(a) + Others(b)
  {
    if |b| == 0 {
      assert a + b == a;
    } else {
      assert (a + b)[..|a + b| - 1] == a + b[..|b| - 1];
      FoundationsOfConcat(a, b[..|b| - 1]);
    }
  }

  lemma {:induction false} FoundationsOfAll(fs: seq<Element>)
    requires AllFoundations(fs)
    ensures Foundations(fs) == fs && Others(fs) == []
  {
    if |fs| > 0 {
      FoundationsOfAll(fs[..|fs| - 1]);
      assert fs == fs[..|fs| - 1] + [fs[|fs| - 1]];
    }
  }

  lemma {:induction false} FoundationsOfNone(os: seq<Element>)
    requires NoFoundations(os)
    ensures Foundations(os) == [] && Others(os) == os
  {
    if |os| > 0 {
      FoundationsOfNone(os[..|os| - 1]);
      assert os == os[..|os| - 1] + [os[|os| - 1]];
    }
  }

  /** The three guarantees of the foundation-first sort: a permutation of the input,
      foundations ahead of the rest, and each group in its original relative order. */
  lemma SortFoundationFirstSpec(es: seq<Element>)
    ensures multiset(SortFoundationFirst(es)) == multiset(es)
    ensures FoundationsFirst(SortFoundationFirst(es))
    ensures Foundations(SortFoundationFirst(es)) == Foundations(es)
    ensures Others(SortFoundationFirst(es)) == Others(es)
  {
    var fs, os := Foundations(es), Others(es);
    SortIsPartition(es);
    FoundationsAreFoundations(es);
    FoundationsOfConcat(fs, os);
    FoundationsOfAll(fs);
    FoundationsOfNone(os);
    PartitionOrdered(fs, os);
  }

  lemma PartitionOrdered(fs: seq<Element>, os: seq<Element>)
    requires AllFoundations(fs) && NoFoundations(os)
    ensures FoundationsFirst(fs + os)
  {
    var r := fs + os;
    assert forall k :: 0 <= k < |fs| ==> r[k] == fs[k];
    assert forall k :: |fs| <= k < |r| ==> r[k] == os[k - |fs|];
  }

  /** An input already in foundation-first order is left unchanged. */
  lemma {:induction false} SortKeepsOrderedInput(es: seq<Element>)
    requires FoundationsFirst(es)
    ensures SortFoundationFirst(es) == es
  {
    SortIsPartition(es);
    PartitionOfOrdered(es);
  }

  lemma {:induction false} PartitionOfOrdered(es: seq<Element>)
    requires FoundationsFirst(es)
    ensures Foundations(es) + Others(es) == es
  {
    if |es| > 0 {
      var p, x := es[..|es| - 1], es[|es| - 1];
      assert FoundationsFirst(p);
      PartitionOfOrdered(p);
      if IsFoundation(x) {
        assert AllFoundations(p);
        FoundationsOfAll(p);
      }
    }
  }

  /** The outcome of building each record, in record order. */
  function BuildEach(rs: seq<RawEntity>, cos: real -> real, sin: real -> real)
    : (bs: seq<Result<Element, ElementError>>)
    ensures |bs| == |rs| && forall i :: 0 <= i < |rs| ==> bs[i] == MakeElement(rs[i], cos, sin)
  {
    if |rs| == 0 then [] else [MakeElement(rs[0], cos, sin)] + BuildEach(rs[1..], cos, sin)
  }

  /** Builds every element, failing on the first malformed record as the script does;
      otherwise the i-th element is built from the i-th record. */
  function MakeElements(rs: seq<RawEntity>, cos: real -> real, sin: real -> real)
    : (r: Result<seq<Element>, ElementError>)
    ensures r.Ok? <==> forall i :: 0 <= i < |rs| ==> MakeElement(rs[i], cos, sin).Ok?
    ensures r.Ok? ==> |r.value| == |rs|
                      && forall i :: 0 <= i < |rs| ==> r.value[i] == MakeElement(rs[i], cos, sin).value
  {
    AllOk(BuildEach(rs, cos, sin))
  }

  /** `parseData`: the optional default position, then the entities built and sorted
      foundation-first. A document without `entities` gives an empty scene. */
  function ParseScene(raw: RawScene, cos: real -> real, sin: real -> real)
    : (r: Result<Scene, ElementError>)
    ensures raw.entities.None? ==> r.Ok? && r.value.elements == []
    ensures r.Ok? ==>
      r.value.origin == (if raw.default.Some? && raw.default.value.position.Some?
                         then raw.default.value.position.value else Origin)
    ensures r.Ok? && raw.entities.Some? ==>
      var built := MakeElements(raw.entities.value, cos, sin);
      built.Ok? && multiset(r.value.elements) == multiset(built.value)
      && FoundationsFirst(r.value.elements)
      && Foundations(r.value.elements) == Foundations(built.value)
      && Others(r.value.elements) == Others(built.value)
    ensures raw.entities.Some? ==> (r.Ok? <==> MakeElements(raw.entities.value, cos, sin).Ok?)
  {
    var origin :=
      if raw.default.Some? && raw.default.value.position.Some? then raw.default.value.position.value
      else Origin;
    if raw.entities.None? then Ok(Scene(origin, []))
    else match MakeElements(raw.entities.value, cos, sin)
      case Err(err) => Err(err)
      case Ok(es) =>
        SortFoundationFirstSpec(es);
        Ok(Scene(origin, SortFoundationFirst(es)))
  }

  /** Componentwise `if min.c > p.c: min.c = p.c`. */
  function Lower(a: Vector, b: Vector): Vector
  {
    Vector(if a.x > b.x then b.x else a.x, if a.y > b.y then b.y else a.y,
           if a.z > b.z then b.z else a.z)
  }

  /** Componentwise `if max.c < p.c: max.c = p.c`. */
  function Upper(a: Vector, b: Vector): Vector
  {
    Vector(if a.x < b.x then b.x else a.x, if a.y < b.y then b.y else a.y,
           if a.z < b.z then b.z else a.z)
  }

  /** The scan loop of `getMin` from accumulator `acc` over `es`. */
  function LowerAll(acc: Vector, es: seq<Element>): (m: Vector)
    decreases |es|
    ensures m.x <= acc.x && m.y <= acc.y && m.z <= acc.z
    ensures forall e :: e in es ==> m.x <= e.pos.x && m.y <= e.pos.y && m.z <= e.pos.z
    ensures m.x == acc.x || exists e :: e in es && m.x == e.pos.x
    ensures m.y == acc.y || exists e :: e in es && m.y == e.pos.y
    ensures m.z == acc.z || exists e :: e in es && m.z == e.pos.z
  {
    if |es| == 0 then acc
    else
      var m := LowerAll(Lower(acc, es[0].pos), es[1..]);
      assert forall e :: e in es[1..] ==> e in es;
      assert forall e :: e in es ==> e == es[0] || e in es[1..];
      m
  }

  /** The scan loop of `getMax` from accumulator `acc` over `es`. */
  function UpperAll(acc: Vector, es: seq<Element>): (m: Vector)
    decreases |es|
    ensures m.x >= acc.x && m.y >= acc.y && m.z >= acc.z
    ensures forall e :: e in es ==> m.x >= e.pos.x && m.y >= e.pos.y && m.z >= e.pos.z
    ensures m.x == acc.x || exists e :: e in es && m.x == e.pos.x
    ensures m.y == acc.y || exists e :: e in es && m.y == e.pos.y
    ensures m.z == acc.z || exists e :: e in es && m.z == e.pos.z
  {
    if |es| == 0 then acc
    else
      var m := UpperAll(Upper(acc, es[0].pos), es[1..]);
      assert forall e :: e in es[1..] ==> e in es;
      assert forall e :: e in es ==> e == es[0] || e in es[1..];
      m
  }

  /** `getMin`: the componentwise least position, each component attained by some
      element; the origin for an empty scene. */
  function MinCorner(es: seq<Element>): (m: Vector)
    ensures |es| == 0 ==> m == Origin
    ensures forall e :: e in es ==> m.x <= e.pos.x && m.y <= e.pos.y && m.z <= e.pos.z
    ensures |es| > 0 ==>
      && (exists e :: e in es && m.x == e.pos.x)
      && (exists e :: e in es && m.y == e.pos.y)
      && (exists e :: e in es && m.z == e.pos.z)
  {
    if |es| == 0 then Origin else LowerAll(es[0].pos, es)
  }

  /** `getMax`: the componentwise greatest position, each component attained by some
      element; the origin for an empty scene. */
  function MaxCorner(es: seq<Element>): (m: Vector)
    ensures |es| == 0 ==> m == Origin
    ensures forall e :: e in es ==> m.x >= e.pos.x && m.y >= e.pos.y && m.z >= e.pos.z
    ensures |es| > 0 ==>
      && (exists e :: e in es && m.x == e.pos.x)
      && (exists e :: e in es && m.y == e.pos.y)
      && (exists e :: e in es && m.z == e.pos.z)
  {
    if |es| == 0 then Origin else UpperAll(es[0].pos, es)
  }

  /** For a non-empty scene the box is not inverted. */
  lemma MinBelowMax(es: seq<Element>)
    requires |es| > 0
    ensures MinCorner(es).x <= MaxCorner(es).x
    ensures MinCorner(es).y <= MaxCorner(es).y
    ensures MinCorner(es).z <= MaxCorner(es).z
  {
    assert es[0] in es;
  }

  /** Elements at (1, 0, 2), (-3, 0, 5) and (0, 0, -1) span the box from (-3, 0, -1)
      to (1, 0, 5). */
  lemma BoxExample(a: Element, b: Element, c: Element)
    requires a.pos == Vector(1.0, 0.0, 2.0)
    requires b.pos == Vector(-3.0, 0.0, 5.0)
    requires c.pos == Vector(0.0, 0.0, -1.0)
    ensures MinCorner([a, b, c]) == Vector(-3.0, 0.0, -1.0)
    ensures MaxCorner([a, b, c]) == Vector(1.0, 0.0, 5.0)
  {
    var es := [a, b, c];
    assert es[1..] == [b, c] && es[1..][1..] == [c] && es[1..][1..][1..] == [];
  }
}
