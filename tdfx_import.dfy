/** The line filter of `import_2dfx`: each line of a 2DFX text file is
    stripped; blank lines and lines starting with '#' are skipped; a line
    whose first two tokens are "2dfxType" and "LIGHT" makes a point light at
    the coordinates in tokens 3 to 5 of that same line. */
module TdfxImport {
  import opened Wrappers
  import opened Bytes
  import opened PyStr
  import opened Effects
  import opened Streams
  import opened Records
  import opened RecordFacts
  import opened TdfxExport
  import opened MenusExport

  /** The three coordinate tokens `light_add` receives. */
  datatype Coords = Coords(x: string, y: string, z: string)

  /** What the loop body does with one line; `IndexError` is raised when a
      token the body reads is missing. */
  datatype LineAction = Skip | NoLight | AddLight(at: Coords) | IndexError

  /** The loop body of `import_2dfx` for one line. */
  function Classify(line: string): LineAction {
    var s := Strip(line);
    if s == [] || StartsWith(s, "#") then Skip
    else
      StripSplit(line);
      Dispatch(Split(s))
  }

  /** The tests on the tokens of a line that is neither blank nor a
      comment; `and` does not read token 1 when token 0 differs. */
  function Dispatch(parts: seq<string>): (a: LineAction)
    requires parts != []
    ensures a.AddLight? <==> |parts| >= 6 && parts[0] == "2dfxType" && parts[1] == "LIGHT"
    ensures a.AddLight? ==> a.at == Coords(parts[3], parts[4], parts[5])
    ensures a == IndexError <==>
      parts[0] == "2dfxType" && (|parts| < 2 || (parts[1] == "LIGHT" && |parts| < 6))
    ensures a != Skip
  {
    if parts[0] != "2dfxType" then NoLight
    else if |parts| < 2 then IndexError
    else if parts[1] != "LIGHT" then NoLight
    else if |parts| < 6 then IndexError
    else AddLight(Coords(parts[3], parts[4], parts[5]))
  }

  /** The action on a line depends only on its tokens: `strip` and the '#'
      test look at nothing `split` does not see. */
  lemma ClassifyByTokens(line: string)
    ensures Split(line) == [] ==> Classify(line) == Skip
    ensures Split(line) != [] && Split(line)[0][0] == '#' ==> Classify(line) == Skip
    ensures Split(line) != [] && Split(line)[0][0] != '#' ==> Classify(line) == Dispatch(Split(line))
  {
    StripSplit(line);
    var s := Strip(line);
    if s != [] {
      HashPrefix(s);
    }
  }

  /** The loop body in terms of the line's fields: no fields or a first
      field starting with '#' skip the line; "2dfxType" then "LIGHT" with at
      least six fields make a light at fields 3 to 5; "2dfxType" alone, or
      "2dfxType LIGHT" with fewer than six fields, raises IndexError. */
  lemma ClassifyFields(line: string)
    ensures var p := Split(line);
      && (Classify(line) == Skip <==> p == [] || p[0][0] == '#')
      && (Classify(line).AddLight? <==> |p| >= 6 && p[0] == "2dfxType" && p[1] == "LIGHT")
      && (Classify(line).AddLight? ==> Classify(line).at == Coords(p[3], p[4], p[5]))
      && (Classify(line) == IndexError <==>
            p != [] && p[0] == "2dfxType" && (|p| < 2 || (p[1] == "LIGHT" && |p| < 6)))
  {
    ClassifyByTokens(line);
    var p := Split(line);
    if p != [] && p[0] == "2dfxType" {
      assert p[0][0] == '2';
    }
  }

  /** `s.startswith("#")` looks at the first character only. */
  lemma HashPrefix(s: string)
    requires s != []
    ensures StartsWith(s, "#") <==> s[0] == '#'
  {
    assert StartsWith(s, "#") ==> s[..1][0] == '#';
    if s[0] == '#' {
      assert s[..1] == "#";
    }
  }

  /** The loop's call for the line at position `i`. */
  function ImportAt(i: nat, line: string): Output<Coords> {
    match Classify(line)
    case AddLight(c) => Output([c], true)
    case IndexError => Output([], false)
    case _ => Output([], true)
  }

  /** The lights `import_2dfx` creates from `lines`, in order, and whether it
      reached the end of the file. */
  function Import(lines: seq<string>): Output<Coords> {
    Run(ImportAt, lines)
  }

  /** `import_2dfx` over the lines of the file. `created` lists the
      coordinates of each light made, including those made before an
      IndexError ended the import. */
  method Import2dfx(lines: seq<string>) returns (created: seq<Coords>, ok: bool)
    ensures created == Import(lines).data
    ensures ok == Import(lines).complete
  {
    created := [];
    for i := 0 to |lines|
      invariant created == Run(ImportAt, lines[..i]).data
      invariant Run(ImportAt, lines[..i]).complete
    {
      ghost var before := created;
      TakeSnoc(lines, i);
      var action := Classify(lines[i]);
      match action {
        case AddLight(c) =>
          assert ImportAt(i, lines[i]) == Output([c], true);
          created := created + [c];
        case IndexError =>
          RunStep(ImportAt, lines[..i], lines[i], [], before, created);
          RunStops(ImportAt, lines, i + 1);
          return created, false;
        case _ =>
          assert ImportAt(i, lines[i]) == Output([], true);
      }
      RunStep(ImportAt, lines[..i], lines[i], [], before, created);
    }
    TakeAll(lines);
    ok := true;
  }

  /** A line on which the loop body does nothing. */
  predicate Quiet(line: string) {
    Classify(line) == Skip || Classify(line) == NoLight
  }

  /** The first line of every Light block the exporters write. */
  const LightTypeLine := TypePrefix + "LIGHT"

  /** The exporters' own Light type line has two tokens only, so reading
      token 3 raises IndexError. */
  lemma LightTypeLineRaises()
    ensures Classify(LightTypeLine) == IndexError
  {
    LightTypeLineSplit();
    ClassifyByTokens(LightTypeLine);
    assert "2dfxType"[0] == '2';
  }

  /** The type line of a Particle or Text block does nothing. */
  lemma OtherTypeLineQuiet(kind: string)
    requires IsToken(kind) && kind != "LIGHT"
    ensures Classify(TypePrefix + kind) == NoLight
  {
    TypeLine(kind);
    ClassifyByTokens(TypePrefix + kind);
    assert "2dfxType"[0] == '2';
  }

  /** A labelled line whose label starts with a letter does nothing. */
  lemma LabelledLineQuiet(p: string, v: string)
    requires p != [] && !IsSpace(p[0]) && p[0] != '2' && p[0] != '#'
    ensures Classify(p + v) == NoLight
  {
    NotTypeLine(p, v);
    ClassifyByTokens(p + v);
  }

  /** A line that starts with '#' is skipped. */
  lemma CommentLineSkipped(p: string, v: string)
    requires p != [] && p[0] == '#'
    ensures Classify(p + v) == Skip
  {
    assert (p + v)[0] == p[0];
    SplitFirst(p + v);
    ClassifyByTokens(p + v);
  }

  /** The separators are skipped. */
  lemma SeparatorSkipped(i: nat)
    ensures Classify(Separator(i)) == Skip
  {
    assert Separator(i) == Hashes + (" " + NatToStr(i) + " " + Hashes);
    CommentLineSkipped(Hashes, " " + NatToStr(i) + " " + Hashes);
  }

  /** The `NumEntries` line does nothing. */
  lemma HeaderQuiet(n: nat)
    ensures Classify(Header(n)) == NoLight
  {
    LabelledLineQuiet("NumEntries ", NatToStr(n));
  }

  /** Every line of a Light block but the first does nothing. */
  lemma LightBlockLines(pos: Vec3, l: LightProps)
    ensures LightLines(pos, l)[0] == LightTypeLine
    ensures forall k :: 1 <= k < 17 ==> Quiet(LightLines(pos, l)[k])
  {
    LightLinesSplit(pos, l);
    forall k | 1 <= k < 17
      ensures Quiet(LightLines(pos, l)[k])
    {
      ClassifyByTokens(LightLines(pos, l)[k]);
    }
  }

  /** A line read back from an exporter: it does nothing, or it is the type
      line of a Light block. */
  predicate Readable(line: string) {
    Quiet(line) || line == LightTypeLine
  }

  /** Reading lines that are all quiet or Light type lines creates no light,
      and reaches the end exactly when no Light type line is among them. */
  lemma ImportReadable(lines: seq<string>)
    requires forall k :: 0 <= k < |lines| ==> Readable(lines[k])
    ensures Import(lines).data == []
    ensures Import(lines).complete <==> LightTypeLine !in lines
  {
    forall k | 0 <= k < |lines|
      ensures ImportAt(k, lines[k]).data == []
      ensures ImportAt(k, lines[k]).complete <==> lines[k] != LightTypeLine
    {
      ReadableLine(k, lines[k]);
    }
    RunSilent(ImportAt, lines);
    RunComplete(ImportAt, lines);
  }

  /** One readable line creates nothing, and raises exactly when it is a
      Light type line. */
  lemma ReadableLine(k: nat, line: string)
    requires Readable(line)
    ensures ImportAt(k, line).data == []
    ensures ImportAt(k, line).complete <==> line != LightTypeLine
  {
    if line == LightTypeLine {
      LightTypeLineRaises();
    }
  }

  /** A block whose first two lines and whose remaining lines do nothing
      does nothing. */
  lemma QuietBlock(d: seq<string>, a: string, b: string, rest: seq<string>)
    requires d == [a, b] + rest && Quiet(a) && Quiet(b)
    requires forall k :: 0 <= k < |rest| ==> Quiet(rest[k])
    ensures forall k :: 0 <= k < |d| ==> Quiet(d[k])
  {
    forall k | 0 <= k < |d|
      ensures Quiet(d[k])
    {
      if k == 0 {
        assert d[k] == a;
      } else if k == 1 {
        assert d[k] == b;
      } else {
        assert d[k] == rest[k - 2];
      }
    }
  }

  /** The line `export_particle_info` writes after the position, if it gets
      that far. */
  function ParticleRest(psys: Option<AsciiString>): seq<string> {
    if psys.Some? then [ParticleSystemPrefix + psys.value] else []
  }

  /** The line `export_text_info` writes after the position, if it gets that
      far. */
  function TextRest(texts: Option<TextProps>): seq<string> {
    if texts.Some? then [TextDataPrefix + TextDataValue(texts.value)] else []
  }

  /** A Particle block: its type line, its position, then its rest. */
  lemma ParticleLinesShape(pos: Vec3, psys: Option<AsciiString>)
    ensures ParticleLines(pos, psys).data
      == [TypePrefix + "PARTICLE", PositionPrefix + PositionText(pos)] + ParticleRest(psys)
  {
  }

  /** A Text block: its type line, its position, then its rest. */
  lemma TextLinesShape(pos: Vec3, texts: Option<TextProps>)
    ensures TextLines(pos, texts).data
      == [TypePrefix + "TEXT", PositionPrefix + PositionText(pos)] + TextRest(texts)
  {
  }

  /** The ParticleSystem line does nothing. */
  lemma ParticleRestQuiet(psys: Option<AsciiString>)
    ensures forall k :: 0 <= k < |ParticleRest(psys)| ==> Quiet(ParticleRest(psys)[k])
  {
    if psys.Some? {
      LabelledLineQuiet(ParticleSystemPrefix, psys.value);
    }
  }

  /** The TextData line does nothing. */
  lemma TextRestQuiet(texts: Option<TextProps>)
    ensures forall k :: 0 <= k < |TextRest(texts)| ==> Quiet(TextRest(texts)[k])
  {
    if texts.Some? {
      LabelledLineQuiet(TextDataPrefix, TextDataValue(texts.value));
    }
  }

  /** The first two lines of a Particle block do nothing. */
  lemma ParticleHeadQuiet(pos: Vec3)
    ensures Quiet(TypePrefix + "PARTICLE") && Quiet(PositionPrefix + PositionText(pos))
  {
    assert IsToken("PARTICLE") && "PARTICLE" != "LIGHT";
    OtherTypeLineQuiet("PARTICLE");
    LabelledLineQuiet(PositionPrefix, PositionText(pos));
  }

  /** The first two lines of a Text block do nothing. */
  lemma TextHeadQuiet(pos: Vec3)
    ensures Quiet(TypePrefix + "TEXT") && Quiet(PositionPrefix + PositionText(pos))
  {
    assert IsToken("TEXT") && "TEXT" != "LIGHT";
    OtherTypeLineQuiet("TEXT");
    LabelledLineQuiet(PositionPrefix, PositionText(pos));
  }

  /** Every line of a Particle block does nothing. */
  lemma ParticleLinesQuiet(pos: Vec3, psys: Option<AsciiString>)
    ensures forall k :: 0 <= k < |ParticleLines(pos, psys).data| ==> Quiet(ParticleLines(pos, psys).data[k])
  {
    ParticleHeadQuiet(pos);
    ParticleRestQuiet(psys);
    ParticleLinesShape(pos, psys);
    QuietBlock(ParticleLines(pos, psys).data, TypePrefix + "PARTICLE", PositionPrefix + PositionText(pos),
      ParticleRest(psys));
  }

  /** Every line of a Text block does nothing. */
  lemma TextLinesQuiet(pos: Vec3, texts: Option<TextProps>)
    ensures forall k :: 0 <= k < |TextLines(pos, texts).data| ==> Quiet(TextLines(pos, texts).data[k])
  {
    TextHeadQuiet(pos);
    TextRestQuiet(texts);
    TextLinesShape(pos, texts);
    QuietBlock(TextLines(pos, texts).data, TypePrefix + "TEXT", PositionPrefix + PositionText(pos),
      TextRest(texts));
  }

  /** Lines of a block that do nothing, or that are the type line of a
      Light when the object is one. */
  predicate BlockOf(o: SceneObject, d: seq<string>) {
    forall line :: line in d ==> Quiet(line) || (line == LightTypeLine && KindOf(o) == Some(Light))
  }

  /** The block of a Light with its properties. */
  lemma LightBlockOf(o: SceneObject)
    requires KindOf(o) == Some(Light) && o.light.Some?
    ensures BlockOf(o, LightLines(o.location, o.light.value))
    ensures LightTypeLine in LightLines(o.location, o.light.value)
  {
    var ls := LightLines(o.location, o.light.value);
    LightBlockLines(o.location, o.light.value);
    forall line | line in ls
      ensures Quiet(line) || line == LightTypeLine
    {
      var k :| 0 <= k < |ls| && ls[k] == line;
    }
  }

  /** A block all of whose lines do nothing. */
  lemma QuietBlockOf(o: SceneObject, d: seq<string>)
    requires forall k :: 0 <= k < |d| ==> Quiet(d[k])
    ensures BlockOf(o, d) && LightTypeLine !in d
  {
    LightTypeLineRaises();
  }

  /** The block `export_text` writes for one object: every line does
      nothing except the type line of a Light, which appears exactly when
      the object is a Light with its properties. */
  lemma TextEntryLines(o: SceneObject)
    ensures BlockOf(o, TextEntry(o).data)
    ensures LightTypeLine in TextEntry(o).data <==> KindOf(o) == Some(Light) && o.light.Some?
  {
    match KindOf(o)
    case Some(Light) =>
      if o.light.Some? {
        LightBlockOf(o);
      }
    case Some(Particle) =>
      ParticleLinesQuiet(o.location, o.psys);
      QuietBlockOf(o, TextEntry(o).data);
    case Some(Text) =>
      TextLinesQuiet(o.location, o.texts);
      QuietBlockOf(o, TextEntry(o).data);
    case None =>
  }

  /** The block the menu exporter writes for one object after its
      separator. */
  lemma MenuTextEntryLines(o: SceneObject)
    ensures BlockOf(o, MenuTextEntry(o).data)
    ensures MenuTextEntry(o).complete ==>
      (LightTypeLine in MenuTextEntry(o).data <==> KindOf(o) == Some(Light))
  {
    if MenuTextEntry(o).complete && KindOf(o) == Some(Light) {
      LightBlockOf(o);
    }
  }

  /** A separator followed by a block. */
  lemma SeparatedBlock(i: nat, o: SceneObject, d: seq<string>)
    requires BlockOf(o, d)
    ensures BlockOf(o, [Separator(i + 1)] + d)
    ensures LightTypeLine in [Separator(i + 1)] + d <==> LightTypeLine in d
  {
    SeparatorSkipped(i + 1);
    SeparatorNotLight(i + 1);
  }

  /** The separator followed by the block of the object. */
  lemma TextAtLines(i: nat, o: SceneObject)
    ensures BlockOf(o, TextAt(i, o).data)
    ensures LightTypeLine in TextAt(i, o).data <==> KindOf(o) == Some(Light) && o.light.Some?
  {
    TextEntryLines(o);
    SeparatedBlock(i, o, TextEntry(o).data);
  }

  /** The menu exporter's separator followed by the object's block. */
  lemma MenuTextAtLines(i: nat, o: SceneObject)
    ensures BlockOf(o, MenuTextAt(i, o).data)
    ensures MenuTextAt(i, o).complete ==>
      (LightTypeLine in MenuTextAt(i, o).data <==> KindOf(o) == Some(Light))
  {
    MenuTextEntryLines(o);
    SeparatedBlock(i, o, MenuTextEntry(o).data);
  }

  /** No separator is a Light type line. */
  lemma SeparatorNotLight(i: nat)
    ensures Separator(i) != LightTypeLine
  {
    SeparatorSkipped(i);
    LightTypeLineRaises();
  }

  /** The header is not a Light type line. */
  lemma HeaderNotLight(n: nat)
    ensures Header(n) != LightTypeLine
  {
    HeaderQuiet(n);
    LightTypeLineRaises();
  }

  /** The Light type line is not a quiet line. */
  lemma LightTypeLineLoud()
    ensures !Quiet(LightTypeLine)
  {
    LightTypeLineRaises();
  }

  /** Lines written by a loop whose every call writes a block each read
      back as nothing or as a Light type line. */
  lemma RunReadable(f: (nat, SceneObject) -> Output<string>, objs: seq<SceneObject>)
    requires forall i :: 0 <= i < |objs| ==> BlockOf(objs[i], f(i, objs[i]).data)
    ensures forall line :: line in Run(f, objs).data ==> Readable(line)
  {
    forall line | line in Run(f, objs).data
      ensures Readable(line)
    {
      RunMembers(f, objs, line);
    }
  }

  /** In such lines, a Light type line comes from a Light. */
  lemma RunLightFrom(f: (nat, SceneObject) -> Output<string>, objs: seq<SceneObject>)
    requires forall i :: 0 <= i < |objs| ==> BlockOf(objs[i], f(i, objs[i]).data)
    requires LightTypeLine in Run(f, objs).data
    ensures exists i :: 0 <= i < |objs| && KindOf(objs[i]) == Some(Light)
  {
    RunMembers(f, objs, LightTypeLine);
    var i :| 0 <= i < |objs| && LightTypeLine in f(i, objs[i]).data;
    LightTypeLineLoud();
    assert KindOf(objs[i]) == Some(Light);
  }

  /** A file made of the header and lines that read back as nothing or as
      a Light type line. */
  lemma FileLines(n: nat, body: seq<string>)
    requires forall line :: line in body ==> Readable(line)
    ensures forall k :: 0 <= k < |[Header(n)] + body| ==> Readable(([Header(n)] + body)[k])
    ensures LightTypeLine in [Header(n)] + body <==> LightTypeLine in body
  {
    HeaderQuiet(n);
    HeaderNotLight(n);
    var d := [Header(n)] + body;
    forall k | 0 <= k < |d|
      ensures Readable(d[k])
    {
      if k > 0 {
        assert d[k] in body;
      }
    }
  }

  /** Every line of the file `export_text` writes reads back as nothing or
      as a Light type line, and a Light type line comes only from a Light;
      in a complete file, from every Light. */
  lemma TextFileLines(objs: seq<SceneObject>)
    ensures forall k :: 0 <= k < |TextFile(objs).data| ==> Readable(TextFile(objs).data[k])
    ensures TextFile(objs).complete ==>
      (LightTypeLine in TextFile(objs).data <==> exists i :: 0 <= i < |objs| && KindOf(objs[i]) == Some(Light))
  {
    forall i | 0 <= i < |objs|
      ensures BlockOf(objs[i], TextAt(i, objs[i]).data)
    {
      TextAtLines(i, objs[i]);
    }
    RunReadable(TextAt, objs);
    FileLines(|objs|, Run(TextAt, objs).data);
    if LightTypeLine in Run(TextAt, objs).data {
      RunLightFrom(TextAt, objs);
    }
    if TextFile(objs).complete && exists i :: 0 <= i < |objs| && KindOf(objs[i]) == Some(Light) {
      var i :| 0 <= i < |objs| && KindOf(objs[i]) == Some(Light);
      RunComplete(TextAt, objs);
      TextAtLines(i, objs[i]);
      RunHolds(TextAt, objs, i, LightTypeLine);
    }
  }

  /** The same for the file the menu exporter writes. */
  lemma MenuTextFileLines(objs: seq<SceneObject>)
    ensures forall k :: 0 <= k < |MenuTextFile(objs).data| ==> Readable(MenuTextFile(objs).data[k])
    ensures MenuTextFile(objs).complete ==>
      (LightTypeLine in MenuTextFile(objs).data <==> exists i :: 0 <= i < |objs| && KindOf(objs[i]) == Some(Light))
  {
    if |objs| < U32_LIMIT {
      forall i | 0 <= i < |objs|
        ensures BlockOf(objs[i], MenuTextAt(i, objs[i]).data)
      {
        MenuTextAtLines(i, objs[i]);
      }
      RunReadable(MenuTextAt, objs);
      FileLines(|objs|, Run(MenuTextAt, objs).data);
      if LightTypeLine in Run(MenuTextAt, objs).data {
        RunLightFrom(MenuTextAt, objs);
      }
      if MenuTextFile(objs).complete && exists i :: 0 <= i < |objs| && KindOf(objs[i]) == Some(Light) {
        var i :| 0 <= i < |objs| && KindOf(objs[i]) == Some(Light);
        RunComplete(MenuTextAt, objs);
        MenuTextAtLines(i, objs[i]);
        RunHolds(MenuTextAt, objs, i, LightTypeLine);
      }
    }
  }
  /** Importing the text file `export_text` wrote creates no light: the
      exporter writes the type and the position of a Light on separate
      lines, so the importer finds no coordinates on the type line. When the
      file is complete, the import raises IndexError exactly when a Light
      was exported. */
  lemma ReimportText(objs: seq<SceneObject>)
    ensures Import(TextFile(objs).data).data == []
    ensures TextFile(objs).complete ==>
      (Import(TextFile(objs).data).complete <==> forall i :: 0 <= i < |objs| ==> KindOf(objs[i]) != Some(Light))
  {
    TextFileLines(objs);
    ImportReadable(TextFile(objs).data);
  }

  /** The same for the text file the menu exporter writes. */
  lemma ReimportMenuText(objs: seq<SceneObject>)
    ensures Import(MenuTextFile(objs).data).data == []
    ensures MenuTextFile(objs).complete ==>
      (Import(MenuTextFile(objs).data).complete <==> forall i :: 0 <= i < |objs| ==> KindOf(objs[i]) != Some(Light))
  {
    MenuTextFileLines(objs);
    ImportReadable(MenuTextFile(objs).data);
  }
}
