/** The objects the 2DFX exporters read: a selected Blender object with its
    type, name, location and `sdfx_` custom properties, the rule that picks
    the effect kind, and the `add_*_info` operators that fill in defaults. */
module Effects {
  import opened Wrappers
  import opened Bytes
  import opened PyStr

  /** A 32-bit float, kept opaque: the four bytes `struct.pack("f", x)`
      produces and the single token `str(x)` produces. */
  datatype Float = Float(packed: seq<byte>, text: string)

  type Float32 = f: Float | |f.packed| == 4 && IsToken(f.text)
    witness Float([0, 0, 0, 0], "0.0")

  /** The text of one number in the text stream. */
  type Token = s: string | IsToken(s) witness "0"

  datatype Vec3 = Vec3(x: Float32, y: Float32, z: Float32)

  /** The values of `obj.type` the add-on tests for; every other type is `OtherType`. */
  datatype ObjectType = LIGHT | EMPTY | MESH | OtherType

  datatype Rgba = Rgba(r: int, g: int, b: int, a: int)

  /** The fifteen `sdfx_` properties `export_light_info` reads before it
      writes anything. */
  datatype LightProps = LightProps(
    color: Rgba,               // sdfx_color
    drawDis: Float32,          // sdfx_drawdis: corona far clip
    outerRange: Float32,       // sdfx_outerrange: point-light range
    size: Float32,             // sdfx_size: corona size
    innerRange: Float32,       // sdfx_innerrange: shadow size
    showMode: int,             // sdfx_showmode
    reflection: int,           // sdfx_reflection
    flareType: int,            // sdfx_flaretype
    shadColorMp: int,          // sdfx_shadcolormp
    onAllDay: int,             // sdfx_OnAllDay: flags1
    corona: AsciiString,       // sdfx_corona: corona texture name
    shad: AsciiString,         // sdfx_shad: shadow texture name
    shadowZDist: int,          // sdfx_shadowzdist
    flags2: int,               // sdfx_flags2
    viewVector: (Token, Token, Token))  // sdfx_viewvector

  /** sdfx_text1 .. sdfx_text4 */
  datatype TextProps = TextProps(text1: AsciiString, text2: AsciiString, text3: AsciiString, text4: AsciiString)

  /** A selected object. `light` is present when all fifteen light keys are,
      `psys` is sdfx_psys and `texts` is present when all four text keys are;
      `otherKeys` names every other custom property, including the keys of an
      incomplete group. */
  datatype SceneObject = SceneObject(
    name: string,
    objType: ObjectType,
    location: Vec3,
    light: Option<LightProps>,
    psys: Option<AsciiString>,
    texts: Option<TextProps>,
    otherKeys: set<string>)

  datatype EffectKind = Light | Particle | Text

  /** The exporters' dispatch: a LIGHT object is a Light, an EMPTY a
      Particle, a MESH whose name contains "Plane" a Text; anything else gets
      no record. */
  function KindOf(o: SceneObject): (k: Option<EffectKind>)
    ensures k == Some(Light) <==> o.objType == LIGHT
    ensures k == Some(Particle) <==> o.objType == EMPTY
    ensures k == Some(Text) <==> o.objType == MESH && Contains(o.name, "Plane")
  {
    match o.objType
    case LIGHT => Some(Light)
    case EMPTY => Some(Particle)
    case MESH => if Contains(o.name, "Plane") then Some(Text) else None
    case OtherType => None
  }

  /** `any(key.startswith("sdfx_") for key in keys)` */
  predicate AnySdfx(keys: set<string>) {
    exists k :: k in keys && StartsWith(k, "sdfx_")
  }

  /** The fifteen custom properties `export_light_info` reads. */
  const LightKeys: set<string> := {
    "sdfx_color", "sdfx_drawdis", "sdfx_outerrange", "sdfx_size", "sdfx_innerrange",
    "sdfx_showmode", "sdfx_reflection", "sdfx_flaretype", "sdfx_shadcolormp", "sdfx_OnAllDay",
    "sdfx_corona", "sdfx_shad", "sdfx_shadowzdist", "sdfx_flags2", "sdfx_viewvector"}

  /** The four custom properties `export_text_info` reads. */
  const TextKeys: set<string> := {"sdfx_text1", "sdfx_text2", "sdfx_text3", "sdfx_text4"}

  /** `obj.keys()`: the names of the object's custom properties. */
  function Keys(o: SceneObject): set<string> {
    (if o.light.Some? then LightKeys else {})
    + (if o.psys.Some? then {"sdfx_psys"} else {})
    + (if o.texts.Some? then TextKeys else {})
    + o.otherKeys
  }

  /** `any(key.startswith("sdfx_") for key in obj.keys())`, read off the
      property groups; `HasSdfxKeyOfKeys` proves it agrees with `Keys`. */
  predicate HasSdfxKey(o: SceneObject) {
    o.light.Some? || o.psys.Some? || o.texts.Some? || AnySdfx(o.otherKeys)
  }

  /** An object has an `sdfx_` key exactly when one of its custom
      properties' names starts with "sdfx_". */
  lemma HasSdfxKeyOfKeys(o: SceneObject)
    ensures HasSdfxKey(o) <==> AnySdfx(Keys(o))
  {
    if o.light.Some? {
      assert "sdfx_color" in Keys(o) && StartsWith("sdfx_color", "sdfx_");
    } else if o.psys.Some? {
      assert "sdfx_psys" in Keys(o) && StartsWith("sdfx_psys", "sdfx_");
    } else if o.texts.Some? {
      assert "sdfx_text1" in Keys(o) && StartsWith("sdfx_text1", "sdfx_");
    } else {
      assert Keys(o) == o.otherKeys;
    }
  }

  /** `obj_to_exp`: the selected objects that carry an `sdfx_` key, in
      selection order. */
  function Exported(selected: seq<SceneObject>): (r: seq<SceneObject>)
    ensures |r| <= |selected|
    ensures forall o :: o in r <==> o in selected && HasSdfxKey(o)
    decreases |selected|
  {
    if selected == [] then []
    else
      var init, last := selected[..|selected| - 1], selected[|selected| - 1];
      assert selected == init + [last];
      Exported(init) + if HasSdfxKey(last) then [last] else []
  }

  /** The positions in `selected` of the objects with an `sdfx_` key, in
      increasing order. */
  function KeyedPositions(selected: seq<SceneObject>): seq<nat>
    decreases |selected|
  {
    if selected == [] then []
    else
      var n := |selected| - 1;
      KeyedPositions(selected[..n]) + if HasSdfxKey(selected[n]) then [n] else []
  }

  /** The positions of the selected objects with an `sdfx_` key. */
  function KeyedSet(selected: seq<SceneObject>): set<nat> {
    set i: nat | i < |selected| && HasSdfxKey(selected[i])
  }

  /** The keyed positions increase, lie inside the selection, and include
      every position whose object carries an `sdfx_` key. */
  lemma {:induction false} KeyedPositionsSorted(selected: seq<SceneObject>)
    ensures forall k :: 0 <= k < |KeyedPositions(selected)| ==> KeyedPositions(selected)[k] < |selected|
    ensures forall k, m :: 0 <= k < m < |KeyedPositions(selected)| ==>
      KeyedPositions(selected)[k] < KeyedPositions(selected)[m]
    ensures forall i :: 0 <= i < |selected| && HasSdfxKey(selected[i]) ==> i in KeyedPositions(selected)
    decreases |selected|
  {
    if selected != [] {
      var n := |selected| - 1;
      var init := selected[..n];
      KeyedPositionsSorted(init);
      assert |init| == n;
      var idx0 := KeyedPositions(init);
      var tail: seq<nat> := if HasSdfxKey(selected[n]) then [n] else [];
      var idx := KeyedPositions(selected);
      assert idx == idx0 + tail;
      forall k | 0 <= k < |idx|
        ensures idx[k] < |selected|
      {
        if k < |idx0| {
          assert idx[k] == idx0[k] < n;
        } else {
          assert tail == [n] && idx[k] == tail[k - |idx0|];
        }
      }
      forall k, m | 0 <= k < m < |idx|
        ensures idx[k] < idx[m]
      {
        assert idx[k] == idx0[k] < n;
        if m < |idx0| {
          assert idx[m] == idx0[m] && idx0[k] < idx0[m];
        } else {
          assert tail == [n] && idx[m] == n;
        }
      }
      forall i | 0 <= i < |selected| && HasSdfxKey(selected[i])
        ensures i in idx
      {
        if i < n {
          assert HasSdfxKey(init[i]) by { assert init[i] == selected[i]; }
          assert i in idx0;
        } else {
          assert i == n && tail == [n];
        }
      }
    }
  }

  /** The k-th exported object is the one at the k-th keyed position. */
  lemma {:induction false} ExportedAtPositions(selected: seq<SceneObject>)
    ensures var r, idx := Exported(selected), KeyedPositions(selected);
      && |r| == |idx|
      && (forall k :: 0 <= k < |idx| ==> idx[k] < |selected| && r[k] == selected[idx[k]])
    decreases |selected|
  {
    if selected != [] {
      var n := |selected| - 1;
      var init, last := selected[..n], selected[n];
      ExportedAtPositions(init);
      var r0, idx0 := Exported(init), KeyedPositions(init);
      var r, idx := Exported(selected), KeyedPositions(selected);
      assert idx == idx0 + if HasSdfxKey(last) then [n] else [];
      assert r == r0 + if HasSdfxKey(last) then [last] else [];
      forall k | 0 <= k < |idx|
        ensures idx[k] < |selected| && r[k] == selected[idx[k]]
      {
        if k < |idx0| {
          assert idx[k] == idx0[k] && r[k] == r0[k];
        }
      }
    }
  }

  /** `obj_to_exp` keeps the keyed objects in selection order: its k-th
      object is the one at the k-th keyed position, the positions increase,
      and every keyed position is among them. */
  lemma ExportedInOrder(selected: seq<SceneObject>)
    ensures var r, idx := Exported(selected), KeyedPositions(selected);
      && |r| == |idx|
      && (forall k :: 0 <= k < |idx| ==> idx[k] < |selected| && r[k] == selected[idx[k]])
      && (forall k, m :: 0 <= k < m < |idx| ==> idx[k] < idx[m])
      && (forall i :: 0 <= i < |selected| && HasSdfxKey(selected[i]) ==> i in idx)
  {
    ExportedAtPositions(selected);
    KeyedPositionsSorted(selected);
  }

  /** The number of exported objects is the number of selected objects that
      carry an `sdfx_` key. */
  lemma {:induction false} ExportedCount(selected: seq<SceneObject>)
    ensures |Exported(selected)| == |KeyedSet(selected)|
    decreases |selected|
  {
    if selected != [] {
      var n := |selected| - 1;
      var init := selected[..n];
      ExportedCount(init);
      assert n !in KeyedSet(init);
      var tail: set<nat> := if HasSdfxKey(selected[n]) then {n} else {};
      forall i: nat
        ensures i in KeyedSet(selected) <==> i in KeyedSet(init) + tail
      {
        if i < n {
          assert selected[i] == init[i];
          assert i in KeyedSet(selected) <==> HasSdfxKey(init[i]);
          assert i !in tail;
        } else if i == n {
          assert i !in KeyedSet(init);
        } else {
          assert i !in KeyedSet(selected) && i !in KeyedSet(init) && i !in tail;
        }
      }
      assert KeyedSet(selected) == KeyedSet(init) + tail;
    }
  }

  const DefaultCorona: AsciiString := "coronastar"
  const DefaultShadow: AsciiString := "shad_exp"
  /** fx_psystems[0] */
  const DefaultParticleSystem: AsciiString := "prt_blood"

  /** The values `add_light_info` assigns; the floats carry the little-endian
      IEEE-754 single encodings of 100.0, 18.0, 1.0 and 8.0. */
  const DefaultLight: LightProps := LightProps(
    Rgba(15, 230, 0, 200),
    Float([0, 0, 200, 66], "100.0"),
    Float([0, 0, 144, 65], "18.0"),
    Float([0, 0, 128, 63], "1.0"),
    Float([0, 0, 0, 65], "8.0"),
    4, 0, 0, 40, 1,
    DefaultCorona, DefaultShadow,
    0, 0,
    ("0", "156", "0"))

  /** One object after `add_light_info`: every light key set, plus sdfx_lighttype. */
  function WithLightDefaults(o: SceneObject): (r: SceneObject)
    ensures r.light == Some(DefaultLight) && HasSdfxKey(r)
    ensures KindOf(r) == KindOf(o) && r.location == o.location
  {
    o.(light := Some(DefaultLight), otherKeys := o.otherKeys + {"sdfx_lighttype"})
  }

  /** One object after `add_particle_info`. */
  function WithParticleDefaults(o: SceneObject): (r: SceneObject)
    ensures r.psys == Some(DefaultParticleSystem) && HasSdfxKey(r)
    ensures KindOf(r) == KindOf(o) && r.location == o.location
  {
    o.(psys := Some(DefaultParticleSystem))
  }

  /** One object after `add_text_info`: four empty texts. */
  function WithTextDefaults(o: SceneObject): (r: SceneObject)
    ensures r.texts == Some(TextProps("", "", "", "")) && HasSdfxKey(r)
    ensures KindOf(r) == KindOf(o) && r.location == o.location
  {
    o.(texts := Some(TextProps("", "", "", "")))
  }

  /** `add_light_info`: defaults on every selected LIGHT, nothing else touched. */
  method AddLightInfo(selected: array<SceneObject>)
    modifies selected
    ensures forall i :: 0 <= i < selected.Length ==>
      selected[i] == if KindOf(old(selected[i])) == Some(Light) then WithLightDefaults(old(selected[i])) else old(selected[i])
  {
    for i := 0 to selected.Length
      invariant forall j :: 0 <= j < i ==>
        selected[j] == if KindOf(old(selected[j])) == Some(Light) then WithLightDefaults(old(selected[j])) else old(selected[j])
      invariant forall j :: i <= j < selected.Length ==> selected[j] == old(selected[j])
    {
      if selected[i].objType == LIGHT {
        selected[i] := WithLightDefaults(selected[i]);
      }
    }
  }

  /** `add_particle_info`: the default particle system on every selected EMPTY. */
  method AddParticleInfo(selected: array<SceneObject>)
    modifies selected
    ensures forall i :: 0 <= i < selected.Length ==>
      selected[i] == if KindOf(old(selected[i])) == Some(Particle) then WithParticleDefaults(old(selected[i])) else old(selected[i])
  {
    for i := 0 to selected.Length
      invariant forall j :: 0 <= j < i ==>
        selected[j] == if KindOf(old(selected[j])) == Some(Particle) then WithParticleDefaults(old(selected[j])) else old(selected[j])
      invariant forall j :: i <= j < selected.Length ==> selected[j] == old(selected[j])
    {
      if selected[i].objType == EMPTY {
        selected[i] := WithParticleDefaults(selected[i]);
      }
    }
  }

  /** `add_text_info`: empty texts on exactly the objects the exporters treat
      as Text (a MESH whose name contains "Plane"). */
  method AddTextInfo(selected: array<SceneObject>)
    modifies selected
    ensures forall i :: 0 <= i < selected.Length ==>
      selected[i] == if KindOf(old(selected[i])) == Some(Text) then WithTextDefaults(old(selected[i])) else old(selected[i])
  {
    for i := 0 to selected.Length
      invariant forall j :: 0 <= j < i ==>
        selected[j] == if KindOf(old(selected[j])) == Some(Text) then WithTextDefaults(old(selected[j])) else old(selected[j])
      invariant forall j :: i <= j < selected.Length ==> selected[j] == old(selected[j])
    {
      if selected[i].objType == MESH && Contains(selected[i].name, "Plane") {
        selected[i] := WithTextDefaults(selected[i]);
      }
    }
  }
}
