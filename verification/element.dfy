/** One placed structure piece (`StructureElement`): its shape key derived from the
    prefab path, its position and Euler angles with their zero defaults, and the
    cached rotation matrix. */
module Element {
  import opened Results
  import opened Geometry

  /** One JSON entity as already parsed; a field absent from the record is `None`. */
  datatype RawEntity = RawEntity(
    ownerid: Option<int>,
    prefabname: Option<string>,
    skinid: Option<int>,
    pos: Option<Vector>,
    rot: Option<Vector>)

  /** The field a record lacked; the script raises `KeyError` and stops. */
  datatype ElementError = MissingField(field: string)

  datatype Element = Element(
    ownerid: int,
    prefabname: string,
    shortname: string,
    skinid: int,
    pos: Vector,
    rot: Vector,
    rotation: EulerRotation)

  /** `prefabname.rsplit('/', 1)[-1]`: the text after the last '/', or the whole
      string when it has none. */
  function ShortName(prefab: string): (r: string)
    ensures '/' !in r
    ensures |r| <= |prefab| && r == prefab[|prefab| - |r|..]
    ensures |r| < |prefab| ==> prefab[|prefab| - |r| - 1] == '/'
    ensures '/' !in prefab ==> r == prefab
  {
    if |prefab| == 0 then ""
    else if prefab[|prefab| - 1] == '/' then ""
    else ShortName(prefab[..|prefab| - 1]) + [prefab[|prefab| - 1]]
  }

  /** Whatever precedes the last '/' does not matter to the shape key. */
  lemma {:induction false} ShortNameAfterSlash(dir: string, name: string)
    ensures ShortName(dir + "/" + name) == ShortName(name)
  {
    if |name| == 0 {
      assert (dir + "/" + name)[|dir + "/" + name| - 1] == '/';
    } else {
      var last := name[|name| - 1];
      assert (dir + "/" + name)[..|dir + "/" + name| - 1] == dir + "/" + name[..|name| - 1];
      if last != '/' {
        ShortNameAfterSlash(dir, name[..|name| - 1]);
      }
    }
  }

  /** Python's `pat in s` on strings. */
  predicate Contains(s: string, pat: string)
    decreases |s|
  {
    (|pat| <= |s| && s[..|pat|] == pat) || (|s| > 0 && Contains(s[1..], pat))
  }

  predicate OccursAt(s: string, pat: string, i: int)
  {
    0 <= i && i + |pat| <= |s| && s[i..i + |pat|] == pat
  }

  /** `Contains` holds exactly when `pat` occurs at some position of `s`. */
  lemma {:induction false} ContainsIffOccurs(s: string, pat: string)
    ensures Contains(s, pat) <==> exists i :: OccursAt(s, pat, i)
    decreases |s|
  {
    if |s| > 0 {
      ContainsIffOccurs(s[1..], pat);
      if |pat| <= |s| && s[..|pat|] == pat {
        assert s[0..|pat|] == s[..|pat|];
        assert OccursAt(s, pat, 0);
      }
      if Contains(s[1..], pat) {
        var i :| OccursAt(s[1..], pat, i);
        assert s[1..][i..i + |pat|] == s[i + 1..i + 1 + |pat|];
        assert OccursAt(s, pat, i + 1);
      }
      if i :| OccursAt(s, pat, i) {
        if i > 0 {
          assert s[1..][i - 1..i - 1 + |pat|] == s[i..i + |pat|];
          assert OccursAt(s[1..], pat, i - 1);
        } else {
          assert s[..|pat|] == s[i..i + |pat|];
        }
      }
    } else {
      if Contains(s, pat) {
        assert s[0..|pat|] == s[..|pat|];
        assert OccursAt(s, pat, 0);
      }
      if i :| OccursAt(s, pat, i) {
        assert |pat| == 0;
        assert pat == [] == s[..|pat|];
      }
    }
  }

  /** Builds an element from one record: missing identity fields fail in the order
      the script reads them; `pos` and `rot` default to the origin. */
  function MakeElement(data: RawEntity, cos: real -> real, sin: real -> real)
    : (r: Result<Element, ElementError>)
    ensures r.Ok? <==> data.ownerid.Some? && data.prefabname.Some? && data.skinid.Some?
    ensures data.ownerid.None? ==> r == Err(MissingField("ownerid"))
    ensures r.Ok? ==> r.value.ownerid == data.ownerid.value
                      && r.value.prefabname == data.prefabname.value
                      && r.value.skinid == data.skinid.value
    ensures r.Ok? ==> r.value.shortname == ShortName(data.prefabname.value)
    ensures r.Ok? ==> r.value.pos == (if data.pos.Some? then data.pos.value else Origin)
    ensures r.Ok? ==> r.value.rot == (if data.rot.Some? then data.rot.value else Origin)
    ensures r.Ok? ==> r.value.rotation == FromEuler(r.value.rot, cos, sin)
  {
    if data.ownerid.None? then Err(MissingField("ownerid"))
    else if data.prefabname.None? then Err(MissingField("prefabname"))
    else if data.skinid.None? then Err(MissingField("skinid"))
    else
      var pos := if data.pos.Some? then data.pos.value else Origin;
      var rot := if data.rot.Some? then data.rot.value else Origin;
      Ok(Element(data.ownerid.value, data.prefabname.value, ShortName(data.prefabname.value),
                 data.skinid.value, pos, rot, FromEuler(rot, cos, sin)))
  }

  /** A record without `rot` gets the identity rotation, given cos 0 = 1 and sin 0 = 0. */
  lemma MissingRotationIsIdentity(data: RawEntity, cos: real -> real, sin: real -> real, v: Vector)
    requires cos(0.0) == 1.0 && sin(0.0) == 0.0
    requires data.rot.None?
    requires data.ownerid.Some? && data.prefabname.Some? && data.skinid.Some?
    ensures Rotate(MakeElement(data, cos, sin).value.rotation.Matrix(), v) == v
  {
    var e := MakeElement(data, cos, sin).value;
    assert e.rotation == FromEuler(Origin, cos, sin);
    FromEulerZero(cos, sin);
    RotateIdentity(v);
  }
}
