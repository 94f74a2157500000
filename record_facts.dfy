/** Facts about the records both exporters write: the fixed offsets of a
    binary Light record, its 88-byte size for short names, the layouts of a
    defaulted Light and Text, and how the text blocks split into tokens. */
module RecordFacts {
  import opened Wrappers
  import opened Bytes
  import opened PyStr
  import opened Effects
  import opened Streams
  import opened Records

  /** A complete Light record, field after field. */
  lemma LightRecordFields(pos: Vec3, l: LightProps)
    requires LightBytesInRange(l)
    ensures LightRecord(pos, l).data
      == PackVec(pos) + [l.color.r, l.color.g, l.color.b, l.color.a]
         + l.drawDis.packed + l.outerRange.packed + l.size.packed + l.innerRange.packed
         + FlagBytes(l) + NameField(l.corona) + NameField(l.shad) + TailBytes(l)
  {
    PackBytesAll(FlagBytes(l));
    PackBytesAll(TailBytes(l));
  }

  /** The offsets of every field of a complete Light record. The names sit at
      37 and at 37 plus the length of the first name field; the last three
      bytes are the shadow Z distance, flags2 and a zero. */
  lemma LightRecordLayout(pos: Vec3, l: LightProps)
    requires LightBytesInRange(l)
    ensures var d := LightRecord(pos, l).data;
      var n1 := |NameField(l.corona)|;
      var n2 := |NameField(l.shad)|;
      && |d| == 40 + n1 + n2
      && d[..12] == PackVec(pos)
      && d[12..16] == [l.color.r, l.color.g, l.color.b, l.color.a]
      && d[16..20] == l.drawDis.packed && d[20..24] == l.outerRange.packed
      && d[24..28] == l.size.packed && d[28..32] == l.innerRange.packed
      && d[32..37] == FlagBytes(l)
      && d[37..37 + n1] == NameField(l.corona)
      && d[37 + n1..37 + n1 + n2] == NameField(l.shad)
      && d[37 + n1 + n2..] == [l.shadowZDist, l.flags2, 0]
  {
    LightRecordFields(pos, l);
    var head := PackVec(pos) + [l.color.r, l.color.g, l.color.b, l.color.a]
         + l.drawDis.packed + l.outerRange.packed + l.size.packed + l.innerRange.packed;
    HeadSlices(head, PackVec(pos), [l.color.r, l.color.g, l.color.b, l.color.a],
      l.drawDis.packed, l.outerRange.packed, l.size.packed, l.innerRange.packed);
    BodySlices(LightRecord(pos, l).data, head, FlagBytes(l), NameField(l.corona), NameField(l.shad), TailBytes(l));
  }

  /** Where the five parts of a record with a 32-byte head and five flag
      bytes sit. */
  lemma BodySlices(d: seq<byte>, head: seq<byte>, flags: seq<byte>, n1: seq<byte>, n2: seq<byte>, tail: seq<byte>)
    requires |head| == 32 && |flags| == 5
    requires d == head + flags + n1 + n2 + tail
    ensures |d| == 37 + |n1| + |n2| + |tail|
    ensures d[..32] == head && d[32..37] == flags
    ensures d[37..37 + |n1|] == n1 && d[37 + |n1|..37 + |n1| + |n2|] == n2
    ensures d[37 + |n1| + |n2|..] == tail
  {
    assert d[..32] == head;
    assert d[32..37] == flags;
    assert d[37..37 + |n1|] == n1;
    assert d[37 + |n1|..37 + |n1| + |n2|] == n2;
    assert d[37 + |n1| + |n2|..] == tail;
  }

  /** Where the position, the colour and the four floats sit in the 32-byte
      head of a Light record. */
  lemma HeadSlices(head: seq<byte>, p: seq<byte>, c: seq<byte>, f1: seq<byte>, f2: seq<byte>, f3: seq<byte>, f4: seq<byte>)
    requires |p| == 12 && |c| == 4 && |f1| == 4 && |f2| == 4 && |f3| == 4 && |f4| == 4
    requires head == p + c + f1 + f2 + f3 + f4
    ensures |head| == 32
    ensures head[..12] == p && head[12..16] == c && head[16..20] == f1
    ensures head[20..24] == f2 && head[24..28] == f3 && head[28..32] == f4
  {
    assert head[..12] == p;
    assert head[12..16] == c;
    assert head[16..20] == f1;
    assert head[20..24] == f2;
    assert head[24..28] == f3;
    assert head[28..32] == f4;
  }

  /** With both names at most 24 characters the record is 88 bytes: the
      corona name field is bytes 37..60, the shadow name field 61..84 (each
      the name's bytes then zeros, by `NameFieldLayout`), the shadow Z
      distance byte 85, flags2 byte 86, and byte 87 is zero. */
  lemma LightRecordStandardSize(pos: Vec3, l: LightProps)
    requires LightBytesInRange(l)
    requires |l.corona| <= 24 && |l.shad| <= 24
    ensures var d := LightRecord(pos, l).data;
      && |d| == 88
      && d[37..61] == NameField(l.corona)
      && d[61..85] == NameField(l.shad)
      && d[85] == l.shadowZDist && d[86] == l.flags2 && d[87] == 0
  {
    LightRecordLayout(pos, l);
    var d := LightRecord(pos, l).data;
    assert d[85..] == [l.shadowZDist, l.flags2, 0];
  }

  /** `ljust` never truncates: a corona name longer than 24 characters is
      written whole and the record grows past 88 bytes. */
  lemma LongCoronaNameGrowsRecord(pos: Vec3, l: LightProps)
    requires LightBytesInRange(l)
    requires |l.corona| > 24
    ensures |LightRecord(pos, l).data| > 88
    ensures LightRecord(pos, l).data[37..37 + |l.corona|] == Encode(l.corona)
  {
    LightRecordLayout(pos, l);
    NameFieldLayout(l.corona);
  }

  /** A Light with the defaults `add_light_info` assigns encodes, without
      error, to exactly 88 bytes. */
  lemma DefaultLightRecordSize(pos: Vec3)
    ensures LightRecord(pos, DefaultLight).complete
    ensures |LightRecord(pos, DefaultLight).data| == 88
  {
    assert LightBytesInRange(DefaultLight) by {
      assert FlagBytes(DefaultLight) == [4, 0, 0, 40, 1];
      assert TailBytes(DefaultLight) == [0, 0, 0];
    }
    LightRecordStandardSize(pos, DefaultLight);
  }

  /** A Text with the four empty texts `add_text_info` assigns encodes to the
      position and a zero length: 16 bytes. */
  lemma DefaultTextRecordSize(pos: Vec3)
    ensures var o := TextRecord(pos, Some(TextProps("", "", "", "")));
      o.complete && |o.data| == 16 && LEValue(o.data[12..16]) == 0
  {
    var t := TextProps("", "", "", "");
    assert Payload(t) == "";
    TextRecordLayout(pos, t);
  }

  /** A Particle with the default system "prt_blood" encodes to 16 + 9 bytes. */
  lemma DefaultParticleRecordSize(pos: Vec3)
    ensures var o := ParticleRecord(pos, Some(DefaultParticleSystem));
      o.complete && |o.data| == 25 && LEValue(o.data[12..16]) == 9
  {
    ParticleRecordLayout(pos, DefaultParticleSystem);
  }

  /** The first line of every block splits into "2dfxType" and the kind,
      two tokens only. */
  lemma TypeLine(kind: string)
    requires IsToken(kind)
    ensures Split(TypePrefix + kind) == ["2dfxType", kind]
  {
    SplitLabelled("2dfxType", Pad9, kind);
    SplitToken(kind);
  }

  /** The type line of a Light splits into "2dfxType" and "LIGHT". */
  lemma LightTypeLineSplit()
    ensures Split(TypePrefix + "LIGHT") == ["2dfxType", "LIGHT"]
  {
    assert IsToken("LIGHT");
    TypeLine("LIGHT");
  }

  /** The Position line splits into the field name and the three coordinate
      tokens. */
  lemma PositionLine(pos: Vec3)
    ensures Split(PositionPrefix + PositionText(pos)) == ["Position", pos.x.text, pos.y.text, pos.z.text]
  {
    var ws := [pos.x.text, pos.y.text, pos.z.text];
    SplitLabelled("Position", Pad9, Unwords(ws));
    SplitUnwords(ws);
  }

  /** A line that starts with a character other than a blank, '2' or '#'
      splits into a first token that is neither "2dfxType" nor starts with
      '#'. */
  lemma NotTypeLine(p: string, v: string)
    requires p != [] && !IsSpace(p[0]) && p[0] != '2' && p[0] != '#'
    ensures Split(p + v) != [] && Split(p + v)[0][0] != '#' && Split(p + v)[0] != "2dfxType"
  {
    assert (p + v)[0] == p[0];
    SplitFirst(p + v);
    assert "2dfxType"[0] == '2';
  }

  /** No line of a Light block after the first has "2dfxType" as its first
      token, or a first token that starts with '#', whatever the values. */
  lemma {:induction false} OtherLinesSplit(v: seq<string>)
    requires |v| == 17
    ensures forall i :: 1 <= i < 17 ==>
              var line := Prefixed(LightPrefixes, v)[i];
              Split(line) != [] && Split(line)[0][0] != '#' && Split(line)[0] != "2dfxType"
  {
    var lines := Prefixed(LightPrefixes, v);
    forall i | 1 <= i < 17
      ensures Split(lines[i]) != [] && Split(lines[i])[0][0] != '#' && Split(lines[i])[0] != "2dfxType"
    {
      PrefixInitial(i);
      NotTypeLine(LightPrefixes[i], v[i]);
    }
  }

  /** Every prefix of a Light block after the first starts with a capital
      letter. */
  lemma PrefixInitial(i: nat)
    requires 1 <= i < 17
    ensures LightPrefixes[i] != [] && 'A' <= LightPrefixes[i][0] <= 'Z'
  {
    var p := LightPrefixes[i];
    if i < 3 {
      assert i == 1 || i == 2;
    } else if i < 7 {
      assert p[0] in {'C', 'P', 'S'};
    } else if i < 12 {
      assert p[0] in {'C', 'S'};
    } else {
      assert p[0] in {'C', 'S', 'F', 'V'};
    }
  }

  /** The Light block the exporters write: its first line splits into
      "2dfxType" and "LIGHT" only, its Position line into the field name and
      the coordinates, and no later line starts with the token "2dfxType". */
  lemma LightLinesSplit(pos: Vec3, l: LightProps)
    ensures Split(LightLines(pos, l)[0]) == ["2dfxType", "LIGHT"]
    ensures Split(LightLines(pos, l)[1]) == ["Position", pos.x.text, pos.y.text, pos.z.text]
    ensures forall i :: 1 <= i < 17 ==>
              var line := LightLines(pos, l)[i];
              Split(line) != [] && Split(line)[0][0] != '#' && Split(line)[0] != "2dfxType"
  {
    var v := LightValues(pos, l);
    LightTypeLineSplit();
    PositionLine(pos);
    OtherLinesSplit(v);
  }

  /** When the four texts are single tokens, the TextData line splits into
      the field name and the four texts. */
  lemma TextDataLine(t: TextProps)
    requires IsToken(t.text1) && IsToken(t.text2) && IsToken(t.text3) && IsToken(t.text4)
    ensures Split(TextDataPrefix + TextDataValue(t)) == ["TextData", t.text1, t.text2, t.text3, t.text4]
  {
    var ws := [t.text1, t.text2, t.text3, t.text4];
    SplitLabelled("TextData", Pad9, Unwords(ws));
    SplitUnwords(ws);
  }

  /** The third line of a Text block carries the texts in the order the
      binary payload concatenates them. */
  lemma TextDataSplit(pos: Vec3, t: TextProps)
    requires IsToken(t.text1) && IsToken(t.text2) && IsToken(t.text3) && IsToken(t.text4)
    ensures var o := TextLines(pos, Some(t));
      Split(o.data[2]) == ["TextData", t.text1, t.text2, t.text3, t.text4]
    ensures var p := Split(TextLines(pos, Some(t)).data[2]);
      Payload(t) == p[1] + p[2] + p[3] + p[4]
  {
    TextDataLine(t);
  }
}
