/** The exporter of the menu module: `export_info` opens the effect file and
    the text file together and fills both in one pass. Lights get a record
    in each; Particles and Texts get a binary record only, and a separator
    line in the text file like every other exported object. */
module MenusExport {
  import opened Wrappers
  import opened Bytes
  import opened PyStr
  import opened Effects
  import opened Streams
  import opened Records
  import opened TdfxExport

  /** What the text file receives for an object after its separator: a
      Light's block once its binary record is written, nothing for the other
      kinds; a record that raised ends the export here. */
  function MenuTextEntry(o: SceneObject): Output<string> {
    if !BinaryEntry(o).complete then Output([], false)
    else if KindOf(o) == Some(Light) && o.light.Some? then Output(LightLines(o.location, o.light.value), true)
    else Output([], true)
  }

  /** The text loop's call for the object at position `i`; it raises
      exactly where the binary loop does. */
  function MenuTextAt(i: nat, o: SceneObject): (r: Output<string>)
    ensures r.complete == BinaryAt(i, o).complete
  {
    Then(Output([Separator(i + 1)], true), MenuTextEntry(o))
  }

  /** The text file this exporter leaves for a non-empty list of exported
      objects; the binary count is written first, so when it overflows the
      text file stays empty. */
  function MenuTextFile(objs: seq<SceneObject>): Output<string> {
    if |objs| < U32_LIMIT then Then(Output([Header(|objs|)], true), Run(MenuTextAt, objs))
    else Output([], false)
  }

  /** `export_info` of the menu module: with no object to export neither
      file is opened; otherwise the effect file holds the same bytes the
      binary-only exporter writes and the text file holds `MenuTextFile`. */
  method ExportBoth(effect: ByteStream, text: TextStream, selected: seq<SceneObject>) returns (ok: bool)
    modifies effect, text
    ensures Exported(selected) == [] ==>
      ok && effect.bytes == old(effect.bytes) && text.lines == old(text.lines)
    ensures Exported(selected) != [] ==>
      && effect.bytes == BinaryFile(Exported(selected)).data
      && text.lines == MenuTextFile(Exported(selected)).data
      && ok == BinaryFile(Exported(selected)).complete
  {
    var objs := Exported(selected);
    if objs == [] {
      return true;
    }
    effect.Truncate();
    text.Truncate();
    ok := effect.WriteU32(|objs|);
    if !ok {
      return;
    }
    text.WriteLine(Header(|objs|));
    ok := WriteBoth(effect, text, objs);
    ThenWritten([], Output(U32LE(|objs|), true), Run(BinaryAt, objs), effect.bytes);
    ThenWritten([], Output([Header(|objs|)], true), Run(MenuTextAt, objs), text.lines);
  }

  /** The loop of `export_info`: per object its separator, its binary record
      and, for a Light, its text block, until a record raises. */
  method WriteBoth(effect: ByteStream, text: TextStream, objs: seq<SceneObject>) returns (ok: bool)
    modifies effect, text
    ensures effect.bytes == old(effect.bytes) + Run(BinaryAt, objs).data
    ensures text.lines == old(text.lines) + Run(MenuTextAt, objs).data
    ensures ok == Run(BinaryAt, objs).complete
  {
    for i := 0 to |objs|
      invariant effect.bytes == old(effect.bytes) + Run(BinaryAt, objs[..i]).data
      invariant text.lines == old(text.lines) + Run(MenuTextAt, objs[..i]).data
      invariant Run(BinaryAt, objs[..i]).complete && Run(MenuTextAt, objs[..i]).complete
    {
      ghost var bytesBefore, linesBefore := effect.bytes, text.lines;
      ok := WriteObject(effect, text, i, objs[i]);
      RunStep(BinaryAt, objs[..i], objs[i], old(effect.bytes), bytesBefore, effect.bytes);
      RunStep(MenuTextAt, objs[..i], objs[i], old(text.lines), linesBefore, text.lines);
      TakeSnoc(objs, i);
      if !ok {
        RunStops(BinaryAt, objs, i + 1);
        RunStops(MenuTextAt, objs, i + 1);
        return;
      }
    }
    TakeAll(objs);
    ok := true;
  }

  /** One iteration of the loop. */
  method WriteObject(effect: ByteStream, text: TextStream, i: nat, o: SceneObject) returns (ok: bool)
    modifies effect, text
    ensures effect.bytes == old(effect.bytes) + BinaryEntry(o).data
    ensures text.lines == old(text.lines) + MenuTextAt(i, o).data
    ensures ok == BinaryEntry(o).complete
  {
    var sep := Separator(i + 1);
    text.WriteLine(sep);
    ghost var afterSep := text.lines;
    ok := WriteBinaryEntry(effect, o);
    if ok && KindOf(o) == Some(Light) && o.light.Some? {
      WriteLightLines(text, o.location, o.light.value);
    }
    assert text.lines == afterSep + MenuTextEntry(o).data;
    ThenWritten(old(text.lines), Output([sep], true), MenuTextEntry(o), text.lines);
  }

  /** The text file is written to its end exactly when the effect file is. */
  lemma MenuFilesCompleteTogether(objs: seq<SceneObject>)
    ensures MenuTextFile(objs).complete == BinaryFile(objs).complete
  {
    RunComplete(MenuTextAt, objs);
    RunComplete(BinaryAt, objs);
  }

  /** The text file starts like the one `export_text` writes, with the
      count and the first separator; it stays empty exactly when the effect
      file does, which happens when the count does not fit in four bytes. */
  lemma MenuTextFileStart(objs: seq<SceneObject>)
    requires objs != []
    ensures MenuTextFile(objs).data == [] <==> BinaryFile(objs).data == []
    ensures MenuTextFile(objs).data != [] ==>
      |MenuTextFile(objs).data| >= 2
      && MenuTextFile(objs).data[0] == Header(|objs|)
      && MenuTextFile(objs).data[1] == Separator(1)
  {
    if |objs| < U32_LIMIT {
      assert objs[..1] == [] + [objs[0]];
      RunSnoc(MenuTextAt, [], objs[0]);
      RunPrefix(MenuTextAt, objs, 1);
      var all := Run(MenuTextAt, objs).data;
      assert all[0] == Run(MenuTextAt, objs[..1]).data[0] == Separator(1);
      assert MenuTextFile(objs).data == [Header(|objs|)] + all;
      assert |BinaryFile(objs).data| >= 4;
    }
  }

  /** A Particle or a Text gets only its separator in the text file. */
  lemma NonLightHasNoTextBlock(i: nat, o: SceneObject)
    requires KindOf(o) == Some(Particle) || KindOf(o) == Some(Text)
    requires BinaryEntry(o).complete
    ensures MenuTextAt(i, o) == Output([Separator(i + 1)], true)
  {
  }

  /** When every exported object is a Light whose properties are present and
      in byte range, or an object of no 2DFX kind, both exporters write the
      same text file. */
  lemma SameTextForLights(objs: seq<SceneObject>)
    requires |objs| < U32_LIMIT
    requires forall i :: 0 <= i < |objs| ==>
      KindOf(objs[i]) == None
      || (KindOf(objs[i]) == Some(Light) && objs[i].light.Some? && LightBytesInRange(objs[i].light.value))
    ensures MenuTextFile(objs) == TextFile(objs)
  {
    forall i | 0 <= i < |objs|
      ensures MenuTextAt(i, objs[i]) == TextAt(i, objs[i])
    {
      var o := objs[i];
      if KindOf(o) == Some(Light) {
        assert LightRecord(o.location, o.light.value).complete;
      }
    }
    RunSame(MenuTextAt, TextAt, objs);
  }
}
