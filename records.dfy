/** One 2DFX record in each of the two streams: the binary layouts of a
    Light, a Particle and a Text, their text blocks, and the methods that
    write them field by field. Both exporters share these writers. */
module Records {
  import opened Wrappers
  import opened Bytes
  import opened PyStr
  import opened Effects
  import opened Streams

  /** The three `struct.pack("f", ...)` of `obj.location`. */
  function PackVec(p: Vec3): (r: seq<byte>)
    ensures |r| == 12
  {
    p.x.packed + p.y.packed + p.z.packed
  }

  predicate ColorInRange(c: Rgba) {
    IsByte(c.r) && IsByte(c.g) && IsByte(c.b) && IsByte(c.a)
  }

  predicate AllBytes(vs: seq<int>) {
    forall i :: 0 <= i < |vs| ==> IsByte(vs[i])
  }

  /** The five single-byte fields after the floats. */
  function FlagBytes(l: LightProps): seq<int> {
    [l.showMode, l.reflection, l.flareType, l.shadColorMp, l.onAllDay]
  }

  /** The shadow Z distance, the second flags byte and the zero pad byte. */
  function TailBytes(l: LightProps): seq<int> {
    [l.shadowZDist, l.flags2, 0]
  }

  /** Every field a Light packs with "B" or "4B" is in 0..255. */
  predicate LightBytesInRange(l: LightProps) {
    ColorInRange(l.color) && AllBytes(FlagBytes(l)) && AllBytes(TailBytes(l))
  }

  /** Successive `struct.pack("B", v)` writes: each value in turn until the
      first one outside 0..255, which raises struct.error. */
  function PackBytes(vs: seq<int>): (o: Output<byte>)
    ensures o.complete <==> AllBytes(vs)
    ensures |o.data| <= |vs| && o.data == vs[..|o.data|]
  {
    if vs == [] then Output([], true)
    else if !IsByte(vs[0]) then Output([], false)
    else
      var rest := PackBytes(vs[1..]);
      assert forall i :: 1 <= i < |vs| ==> vs[i] == vs[1..][i - 1];
      Output([vs[0]] + rest.data, rest.complete)
  }

  /** The writes stop exactly at the first value out of range. */
  lemma {:induction false} PackBytesStop(vs: seq<int>, k: nat)
    requires k < |vs| && !IsByte(vs[k])
    requires forall i :: 0 <= i < k ==> IsByte(vs[i])
    ensures PackBytes(vs) == Output(vs[..k], false)
  {
    if k > 0 {
      PackBytesStop(vs[1..], k - 1);
      assert vs[..k] == [vs[0]] + vs[1..][..k - 1];
    }
  }

  /** With every value in range, all of them are written. */
  lemma PackBytesAll(vs: seq<int>)
    requires AllBytes(vs)
    ensures PackBytes(vs) == Output(vs, true)
  {
    TakeAll(vs);
  }

  /** A texture name as written: UTF-8 bytes, `ljust(24, b'\0')`. */
  function NameField(n: AsciiString): (r: seq<byte>)
    ensures |r| == if |n| < 24 then 24 else |n|
  {
    Ljust(Encode(n), 24)
  }

  /** A name of up to 24 characters is padded with zero bytes to 24; a
      longer one is written whole, never truncated. */
  lemma NameFieldLayout(n: AsciiString)
    ensures NameField(n)[..|n|] == Encode(n)
    ensures forall i :: |n| <= i < |NameField(n)| ==> NameField(n)[i] == 0
    ensures |n| >= 24 ==> NameField(n) == Encode(n)
  {
  }

  /** Position, colour and the four floats: 32 bytes, or only the position
      when a colour channel is out of range. */
  function LightHead(pos: Vec3, l: LightProps): (o: Output<byte>)
    ensures o.complete <==> ColorInRange(l.color)
    ensures o.complete ==> |o.data| == 32
    ensures !o.complete ==> o.data == PackVec(pos)
    ensures |o.data| >= 12 && o.data[..12] == PackVec(pos)
  {
    if ColorInRange(l.color) then
      Output(PackVec(pos) + [l.color.r, l.color.g, l.color.b, l.color.a]
             + l.drawDis.packed + l.outerRange.packed + l.size.packed + l.innerRange.packed, true)
    else Output(PackVec(pos), false)
  }

  /** What `export_light_info` writes to the binary stream, in source order:
      position, colour, four floats, five bytes, two names, two bytes, a
      zero pad byte. */
  function LightRecord(pos: Vec3, l: LightProps): (o: Output<byte>)
    ensures o.complete <==> LightBytesInRange(l)
    ensures |o.data| >= 12 && o.data[..12] == PackVec(pos)
    ensures !ColorInRange(l.color) ==> o.data == PackVec(pos)
  {
    Then(LightHead(pos, l), LightBody(l))
  }

  /** Everything after the four floats: five bytes, the two names and the
      last three bytes. */
  function LightBody(l: LightProps): (o: Output<byte>)
    ensures o.complete <==> AllBytes(FlagBytes(l)) && AllBytes(TailBytes(l))
  {
    Then(PackBytes(FlagBytes(l)), Then(Output(LightNames(l), true), PackBytes(TailBytes(l))))
  }

  /** The corona and shadow texture names, each at least 24 bytes. */
  function LightNames(l: LightProps): (r: seq<byte>)
    ensures |r| == |NameField(l.corona)| + |NameField(l.shad)|
  {
    NameField(l.corona) + NameField(l.shad)
  }

  /** `len(s).to_bytes(4, 'little')` followed by `s.encode('utf-8')`;
      OverflowError, and nothing written, from 2^32 characters on. */
  function LengthField(s: AsciiString): (o: Output<byte>)
    ensures o.complete <==> |s| < U32_LIMIT
    ensures o.complete ==> |o.data| == 4 + |s|
    ensures !o.complete ==> o.data == []
  {
    if |s| < U32_LIMIT then Output(U32LE(|s|) + Encode(s), true) else Output([], false)
  }

  /** What `export_particle_info` writes to the binary stream; a missing
      sdfx_psys raises KeyError after the position. */
  function ParticleRecord(pos: Vec3, psys: Option<AsciiString>): (o: Output<byte>)
    ensures o.complete <==> psys.Some? && |psys.value| < U32_LIMIT
    ensures |o.data| >= 12 && o.data[..12] == PackVec(pos)
    ensures !o.complete ==> o.data == PackVec(pos)
  {
    if psys.None? then Output(PackVec(pos), false)
    else
      var f := LengthField(psys.value);
      Output(PackVec(pos) + f.data, f.complete)
  }

  /** A complete Particle record is the position, the length of the
      particle system name as a little-endian 32-bit count, and the name. */
  lemma ParticleRecordLayout(pos: Vec3, name: AsciiString)
    requires ParticleRecord(pos, Some(name)).complete
    ensures var o := ParticleRecord(pos, Some(name));
      && |o.data| == 16 + |name|
      && LEValue(o.data[12..16]) == |name|
      && o.data[16..] == Encode(name)
  {
    var o := ParticleRecord(pos, Some(name));
    assert o.data == PackVec(pos) + U32LE(|name|) + Encode(name);
    assert o.data[12..16] == U32LE(|name|);
  }

  /** text1 + text2 + text3 + text4 */
  function Payload(t: TextProps): (r: AsciiString)
    ensures |r| == |t.text1| + |t.text2| + |t.text3| + |t.text4|
  {
    AsciiConcat(t.text1, t.text2);
    AsciiConcat(t.text1 + t.text2, t.text3);
    AsciiConcat(t.text1 + t.text2 + t.text3, t.text4);
    t.text1 + t.text2 + t.text3 + t.text4
  }

  /** What `export_text_info` writes to the binary stream; a missing text
      key raises KeyError after the position. */
  function TextRecord(pos: Vec3, texts: Option<TextProps>): (o: Output<byte>)
    ensures o.complete <==> texts.Some? && |Payload(texts.value)| < U32_LIMIT
    ensures |o.data| >= 12 && o.data[..12] == PackVec(pos)
    ensures !o.complete ==> o.data == PackVec(pos)
  {
    if texts.None? then Output(PackVec(pos), false)
    else
      var f := LengthField(Payload(texts.value));
      Output(PackVec(pos) + f.data, f.complete)
  }

  /** A complete Text record is the position, the length of the four texts
      together, and the four texts one after the other with no separator. */
  lemma TextRecordLayout(pos: Vec3, t: TextProps)
    requires TextRecord(pos, Some(t)).complete
    ensures var o := TextRecord(pos, Some(t));
      && |o.data| == 16 + |t.text1| + |t.text2| + |t.text3| + |t.text4|
      && o.data[..12] == PackVec(pos)
      && LEValue(o.data[12..16]) == |t.text1| + |t.text2| + |t.text3| + |t.text4|
      && o.data[16..] == Encode(t.text1) + Encode(t.text2) + Encode(t.text3) + Encode(t.text4)
  {
    var o := TextRecord(pos, Some(t));
    var p := Payload(t);
    assert o.data == PackVec(pos) + U32LE(|p|) + Encode(p);
    assert o.data[12..16] == U32LE(|p|);
    assert o.data[16..] == Encode(p);
    EncodeConcat(t.text1, t.text2);
    EncodeConcat(t.text1 + t.text2, t.text3);
    EncodeConcat(t.text1 + t.text2 + t.text3, t.text4);
  }


  /** The text `export_light_info` writes in front of each value of a
      Light block: the field name padded with blanks to seventeen columns. */
  const LightPrefixes: seq<string> := [
    TypePrefix, PositionPrefix, "Color            ",
    "CoronaFarClip    ", "PointlightRange  ", "CoronaSize       ",
    "ShadowSize       ", "CoronaShowMode   ", "CoronaReflection ",
    "CoronaFlareType  ", "ShadowColorMP    ", "ShadowZDistance  ",
    "CoronaTexName    ", "ShadowTexName    ", "Flags1           ",
    "Flags2           ", "ViewVector       "]

  /** The nine blanks that pad an eight-letter field name to seventeen
      columns. */
  const Pad9 := "         "
  const TypePrefix := "2dfxType" + Pad9
  const PositionPrefix := "Position" + Pad9
  const ParticleSystemPrefix := "ParticleSystem   "
  const TextDataPrefix := "TextData" + Pad9

  function PositionText(p: Vec3): string {
    Unwords([p.x.text, p.y.text, p.z.text])
  }

  /** The values of a Light block: the colour channels and the byte fields
      through `str(int(...))`, the floats as their text token, the names as
      they are, the position and the view vector space-separated. */
  function LightValues(pos: Vec3, l: LightProps): (r: seq<string>)
    ensures |r| == 17
  {
    [ "LIGHT",
      PositionText(pos),
      Unwords([IntToStr(l.color.r), IntToStr(l.color.g), IntToStr(l.color.b), IntToStr(l.color.a)]),
      l.drawDis.text, l.outerRange.text, l.size.text, l.innerRange.text,
      IntToStr(l.showMode), IntToStr(l.reflection), IntToStr(l.flareType),
      IntToStr(l.shadColorMp), IntToStr(l.shadowZDist),
      l.corona, l.shad,
      IntToStr(l.onAllDay), IntToStr(l.flags2),
      Unwords([l.viewVector.0, l.viewVector.1, l.viewVector.2]) ]
  }

  /** Each prefix followed by its value. */
  function Prefixed(prefixes: seq<string>, values: seq<string>): (r: seq<string>)
    requires |prefixes| == |values|
    ensures |r| == |prefixes|
    ensures forall i :: 0 <= i < |r| ==> r[i] == prefixes[i] + values[i]
  {
    if prefixes == [] then []
    else [prefixes[0] + values[0]] + Prefixed(prefixes[1..], values[1..])
  }

  /** What `export_light_info` writes to the text stream: seventeen lines,
      each a prefix followed by its value. */
  function LightLines(pos: Vec3, l: LightProps): (r: seq<string>)
    ensures |r| == 17
  {
    Prefixed(LightPrefixes, LightValues(pos, l))
  }

  /** What `export_particle_info` writes to the text stream; a missing
      sdfx_psys raises KeyError after two lines. */
  function ParticleLines(pos: Vec3, psys: Option<AsciiString>): (o: Output<string>)
    ensures o.complete <==> psys.Some?
    ensures |o.data| == if o.complete then 3 else 2
    ensures o.data[0] == TypePrefix + "PARTICLE"
  {
    var o := Output([TypePrefix + "PARTICLE", PositionPrefix + PositionText(pos)], true);
    if psys.None? then Output(o.data, false)
    else Append(o, [ParticleSystemPrefix + psys.value])
  }

  /** The TextData value: the four texts joined by single spaces. */
  function TextDataValue(t: TextProps): string {
    Unwords([t.text1, t.text2, t.text3, t.text4])
  }

  /** What `export_text_info` writes to the text stream; a missing text key
      raises KeyError after two lines. */
  function TextLines(pos: Vec3, texts: Option<TextProps>): (o: Output<string>)
    ensures o.complete <==> texts.Some?
    ensures |o.data| == if o.complete then 3 else 2
    ensures o.data[0] == TypePrefix + "TEXT"
  {
    var o := Output([TypePrefix + "TEXT", PositionPrefix + PositionText(pos)], true);
    if texts.None? then Output(o.data, false)
    else Append(o, [TextDataPrefix + TextDataValue(texts.value)])
  }

  /** The binary record of one exported object; a Light whose properties are
      incomplete raises KeyError before writing anything. */
  function BinaryEntry(o: SceneObject): Output<byte> {
    match KindOf(o)
    case Some(Light) => if o.light.None? then Output([], false) else LightRecord(o.location, o.light.value)
    case Some(Particle) => ParticleRecord(o.location, o.psys)
    case Some(Text) => TextRecord(o.location, o.texts)
    case None => Output([], true)
  }

  /** The text block of one exported object. */
  function TextEntry(o: SceneObject): Output<string> {
    match KindOf(o)
    case Some(Light) => if o.light.None? then Output([], false) else Output(LightLines(o.location, o.light.value), true)
    case Some(Particle) => ParticleLines(o.location, o.psys)
    case Some(Text) => TextLines(o.location, o.texts)
    case None => Output([], true)
  }

  /** The byte properties and the particle or text payload an object of
      kind `k` must carry for its binary record to be written in full. */
  predicate RecordWritable(o: SceneObject, k: EffectKind) {
    match k
    case Light => o.light.Some? && LightBytesInRange(o.light.value)
    case Particle => o.psys.Some? && |o.psys.value| < U32_LIMIT
    case Text => o.texts.Some? && |Payload(o.texts.value)| < U32_LIMIT
  }

  /** An exported object that is no Light, Particle or Text writes no bytes
      and raises nothing; a Light without its properties raises before its
      first byte; every other record starts with the packed position. */
  lemma BinaryEntryShape(o: SceneObject)
    ensures KindOf(o).None? <==> BinaryEntry(o) == Output([], true)
    ensures BinaryEntry(o).data == [] <==> KindOf(o).None? || (KindOf(o) == Some(Light) && o.light.None?)
    ensures BinaryEntry(o).data != [] ==>
      |BinaryEntry(o).data| >= 12 && BinaryEntry(o).data[..12] == PackVec(o.location)
    ensures BinaryEntry(o).complete <==> KindOf(o).None? || RecordWritable(o, KindOf(o).value)
  {
  }

  /** The word `export_text` writes after "2dfxType" for each kind. */
  function KindName(k: EffectKind): string {
    match k
    case Light => "LIGHT"
    case Particle => "PARTICLE"
    case Text => "TEXT"
  }

  /** A text block is empty exactly when the binary record is; otherwise it
      opens with the "2dfxType" line naming the object's kind; only a
      missing property group stops it. */
  lemma TextEntryShape(o: SceneObject)
    ensures TextEntry(o).data == [] <==> KindOf(o).None? || (KindOf(o) == Some(Light) && o.light.None?)
    ensures TextEntry(o).data != [] ==> TextEntry(o).data[0] == TypePrefix + KindName(KindOf(o).value)
    ensures TextEntry(o).complete <==>
      KindOf(o).None? || (KindOf(o) == Some(Light) && o.light.Some?) ||
      (KindOf(o) == Some(Particle) && o.psys.Some?) || (KindOf(o) == Some(Text) && o.texts.Some?)
  {
    if KindOf(o) == Some(Light) && o.light.Some? {
      assert LightLines(o.location, o.light.value)[0] == LightPrefixes[0] + "LIGHT";
    }
  }

  method WriteLightRecord(s: ByteStream, pos: Vec3, l: LightProps) returns (ok: bool)
    modifies s
    ensures s.bytes == old(s.bytes) + LightRecord(pos, l).data
    ensures ok == LightRecord(pos, l).complete
  {
    ok := WriteLightHead(s, pos, l);
    if !ok { return; }
    ok := WriteLightBody(s, l);
    ThenWritten(old(s.bytes), LightHead(pos, l), LightBody(l), s.bytes);
  }

  method WriteLightBody(s: ByteStream, l: LightProps) returns (ok: bool)
    modifies s
    ensures s.bytes == old(s.bytes) + LightBody(l).data
    ensures ok == LightBody(l).complete
  {
    ok := WriteLightFlags(s, l);
    if !ok { return; }
    WriteLightNames(s, l);
    ok := WriteLightTail(s, l);
    JoinThree(old(s.bytes), PackBytes(FlagBytes(l)), LightNames(l), PackBytes(TailBytes(l)), s.bytes);
  }

  /** The two texture names, each `ljust(24, b'\0')`. */
  method WriteLightNames(s: ByteStream, l: LightProps)
    modifies s
    ensures s.bytes == old(s.bytes) + LightNames(l)
  {
    s.Write(NameField(l.corona));
    AppendAssoc(old(s.bytes), NameField(l.corona), NameField(l.shad));
    s.Write(NameField(l.shad));
  }

  /** Bookkeeping for `WriteLightBody`: three runs written one after the
      other, the first complete. */
  lemma JoinThree(s0: seq<byte>, f: Output<byte>, names: seq<byte>, t: Output<byte>, s1: seq<byte>)
    requires f.complete && s1 == s0 + f.data + names + t.data
    ensures s1 == s0 + Then(f, Then(Output(names, true), t)).data
  {
  }

  /** Position, colour (one "4B" write) and the four floats. */
  method WriteLightHead(s: ByteStream, pos: Vec3, l: LightProps) returns (ok: bool)
    modifies s
    ensures s.bytes == old(s.bytes) + LightHead(pos, l).data
    ensures ok == LightHead(pos, l).complete
  {
    WritePosition(s, pos);
    ok := s.PackColor(l.color);
    if !ok {
      return;
    }
    ghost var w := PackVec(pos) + [l.color.r, l.color.g, l.color.b, l.color.a];
    AppendAssoc(old(s.bytes), PackVec(pos), [l.color.r, l.color.g, l.color.b, l.color.a]);
    s.PackFloat(l.drawDis);
    AppendAssoc(old(s.bytes), w, l.drawDis.packed);
    w := w + l.drawDis.packed;
    s.PackFloat(l.outerRange);
    AppendAssoc(old(s.bytes), w, l.outerRange.packed);
    w := w + l.outerRange.packed;
    s.PackFloat(l.size);
    AppendAssoc(old(s.bytes), w, l.size.packed);
    w := w + l.size.packed;
    s.PackFloat(l.innerRange);
    AppendAssoc(old(s.bytes), w, l.innerRange.packed);
  }

  /** The three `struct.pack("f", ...)` of `obj.location`. */
  method WritePosition(s: ByteStream, pos: Vec3)
    modifies s
    ensures s.bytes == old(s.bytes) + PackVec(pos)
  {
    s.PackFloat(pos.x);
    AppendAssoc(old(s.bytes), pos.x.packed, pos.y.packed);
    s.PackFloat(pos.y);
    AppendAssoc(old(s.bytes), pos.x.packed + pos.y.packed, pos.z.packed);
    s.PackFloat(pos.z);
  }

  /** `struct.pack("B", ...)` of the five single-byte fields after the floats. */
  method WriteLightFlags(s: ByteStream, l: LightProps) returns (ok: bool)
    modifies s
    ensures s.bytes == old(s.bytes) + PackBytes(FlagBytes(l)).data
    ensures ok == PackBytes(FlagBytes(l)).complete
  {
    ok := WritePackBytes(s, FlagBytes(l));
  }

  /** The shadow Z distance, the second flags byte and the zero pad byte. */
  method WriteLightTail(s: ByteStream, l: LightProps) returns (ok: bool)
    modifies s
    ensures s.bytes == old(s.bytes) + PackBytes(TailBytes(l)).data
    ensures ok == PackBytes(TailBytes(l)).complete
  {
    ok := WritePackBytes(s, TailBytes(l));
  }

  /** One `struct.pack("B", v)` write per value, in order, stopping at the
      first that raises. */
  method WritePackBytes(s: ByteStream, vs: seq<int>) returns (ok: bool)
    modifies s
    ensures s.bytes == old(s.bytes) + PackBytes(vs).data
    ensures ok == PackBytes(vs).complete
  {
    for k := 0 to |vs|
      invariant s.bytes == old(s.bytes) + vs[..k]
      invariant forall i :: 0 <= i < k ==> IsByte(vs[i])
    {
      ok := s.PackByte(vs[k]);
      if !ok {
        PackBytesStop(vs, k);
        return;
      }
      TakeSnoc(vs, k);
    }
    TakeAll(vs);
    PackBytesAll(vs);
    ok := true;
  }

  /** The seventeen `text_stream.write` calls of `export_light_info`, one
      line each, in order. */
  method WriteLightLines(t: TextStream, pos: Vec3, l: LightProps)
    modifies t
    ensures t.lines == old(t.lines) + LightLines(pos, l)
  {
    t.WriteLines(LightLines(pos, l));
  }

  /** The length prefix and the bytes of `s`. */
  method WriteLengthField(st: ByteStream, s: AsciiString) returns (ok: bool)
    modifies st
    ensures st.bytes == old(st.bytes) + LengthField(s).data
    ensures ok == LengthField(s).complete
  {
    ok := st.WriteU32(|s|);
    if ok {
      st.Write(Encode(s));
    }
  }

  method WriteParticleRecord(st: ByteStream, pos: Vec3, psys: Option<AsciiString>) returns (ok: bool)
    modifies st
    ensures st.bytes == old(st.bytes) + ParticleRecord(pos, psys).data
    ensures ok == ParticleRecord(pos, psys).complete
  {
    WritePosition(st, pos);
    if psys.None? {
      return false;
    }
    ghost var f := LengthField(psys.value);
    ok := WriteLengthField(st, psys.value);
    assert st.bytes == old(st.bytes) + (PackVec(pos) + f.data);
  }

  method WriteParticleLines(t: TextStream, pos: Vec3, psys: Option<AsciiString>) returns (ok: bool)
    modifies t
    ensures t.lines == old(t.lines) + ParticleLines(pos, psys).data
    ensures ok == ParticleLines(pos, psys).complete
  {
    t.WriteLine(TypePrefix + "PARTICLE");
    t.WriteLine(PositionPrefix + PositionText(pos));
    if psys.None? {
      return false;
    }
    t.WriteLine(ParticleSystemPrefix + psys.value);
    ok := true;
  }

  method WriteTextRecord(st: ByteStream, pos: Vec3, texts: Option<TextProps>) returns (ok: bool)
    modifies st
    ensures st.bytes == old(st.bytes) + TextRecord(pos, texts).data
    ensures ok == TextRecord(pos, texts).complete
  {
    WritePosition(st, pos);
    if texts.None? {
      return false;
    }
    var payload := Payload(texts.value);
    ghost var f := LengthField(payload);
    ok := WriteLengthField(st, payload);
    assert st.bytes == old(st.bytes) + (PackVec(pos) + f.data);
  }

  method WriteTextLines(t: TextStream, pos: Vec3, texts: Option<TextProps>) returns (ok: bool)
    modifies t
    ensures t.lines == old(t.lines) + TextLines(pos, texts).data
    ensures ok == TextLines(pos, texts).complete
  {
    t.WriteLine(TypePrefix + "TEXT");
    t.WriteLine(PositionPrefix + PositionText(pos));
    if texts.None? {
      return false;
    }
    t.WriteLine(TextDataPrefix + TextDataValue(texts.value));
    ok := true;
  }

  /** The `obj.type` dispatch of `export_info` with the binary stream only. */
  method WriteBinaryEntry(s: ByteStream, o: SceneObject) returns (ok: bool)
    modifies s
    ensures s.bytes == old(s.bytes) + BinaryEntry(o).data
    ensures ok == BinaryEntry(o).complete
  {
    var kind := KindOf(o);
    match kind
    case Some(Light) =>
      if o.light.None? {
        return false;
      }
      ok := WriteLightRecord(s, o.location, o.light.value);
    case Some(Particle) =>
      ok := WriteParticleRecord(s, o.location, o.psys);
    case Some(Text) =>
      ok := WriteTextRecord(s, o.location, o.texts);
    case None =>
      ok := true;
  }

  /** The `obj.type` dispatch of `export_text`, with the text stream only. */
  method WriteTextEntry(t: TextStream, o: SceneObject) returns (ok: bool)
    modifies t
    ensures t.lines == old(t.lines) + TextEntry(o).data
    ensures ok == TextEntry(o).complete
  {
    var kind := KindOf(o);
    match kind
    case Some(Light) =>
      if o.light.None? {
        return false;
      }
      WriteLightLines(t, o.location, o.light.value);
      ok := true;
    case Some(Particle) =>
      ok := WriteParticleLines(t, o.location, o.psys);
    case Some(Text) =>
      ok := WriteTextLines(t, o.location, o.texts);
    case None =>
      ok := true;
  }
}
