/** The two exporters of the 2DFX operator: `export_info` writes the binary
    effect file, `export_text` the text file. Both export the selected
    objects that carry an `sdfx_` key, in selection order, and write the
    count of those objects as the header. */
module TdfxExport {
  import opened Wrappers
  import opened Bytes
  import opened PyStr
  import opened Effects
  import opened Streams
  import opened Records

  /** The binary loop's call for the object at position `i`. */
  function BinaryAt(i: nat, o: SceneObject): Output<byte> {
    BinaryEntry(o)
  }

  /** The effect file `export_info` leaves for a non-empty list of exported
      objects: the four-byte count, then one record per object, stopping at
      the first that raised. A count of 2^32 or more raises before anything
      is written. */
  function BinaryFile(objs: seq<SceneObject>): Output<byte> {
    if |objs| < U32_LIMIT then Then(Output(U32LE(|objs|), true), Run(BinaryAt, objs))
    else Output([], false)
  }

  /** Twenty-five hash signs. */
  const Hashes := "#########################"

  /** The line written in front of the i-th exported object (from 1). */
  function Separator(i: nat): string {
    Hashes + " " + NatToStr(i) + " " + Hashes
  }

  /** The first line of the text file. */
  function Header(n: nat): string {
    "NumEntries " + NatToStr(n)
  }

  /** A separator line splits into the two runs of hash signs around the
      object's number, written in decimal without leading zeros. */
  lemma SeparatorFields(i: nat)
    ensures Split(Separator(i)) == [Hashes, NatToStr(i), Hashes]
    ensures DecValue(Split(Separator(i))[1]) == i
  {
    var ts := [Hashes, NatToStr(i), Hashes];
    DigitsAreToken(NatToStr(i));
    assert IsToken(Hashes);
    assert Unwords(ts[2..]) == Hashes;
    assert Unwords(ts[1..]) == NatToStr(i) + " " + Hashes;
    assert Unwords(ts) == Separator(i);
    SplitUnwords(ts);
  }

  /** The first line splits into "NumEntries" and the count in decimal. */
  lemma HeaderFields(n: nat)
    ensures Split(Header(n)) == ["NumEntries", NatToStr(n)]
    ensures DecValue(Split(Header(n))[1]) == n
  {
    var ts := ["NumEntries", NatToStr(n)];
    DigitsAreToken(NatToStr(n));
    assert IsToken("NumEntries");
    assert Unwords(ts[1..]) == NatToStr(n);
    assert Unwords(ts) == Header(n);
    SplitUnwords(ts);
  }

  /** The text loop's call for the object at position `i`: its separator,
      then its block. */
  function TextAt(i: nat, o: SceneObject): Output<string> {
    Then(Output([Separator(i + 1)], true), TextEntry(o))
  }

  /** The text file `export_text` leaves for a non-empty list of exported
      objects. */
  function TextFile(objs: seq<SceneObject>): Output<string> {
    Then(Output([Header(|objs|)], true), Run(TextAt, objs))
  }

  /** `export_info`: with no object to export the file is not opened;
      otherwise it is emptied and holds `BinaryFile`. `ok` is false when an
      exception left the function. */
  method ExportInfo(effect: ByteStream, selected: seq<SceneObject>) returns (ok: bool)
    modifies effect
    ensures Exported(selected) == [] ==> ok && effect.bytes == old(effect.bytes)
    ensures Exported(selected) != [] ==>
      effect.bytes == BinaryFile(Exported(selected)).data && ok == BinaryFile(Exported(selected)).complete
  {
    var objs := Exported(selected);
    if objs == [] {
      return true;
    }
    effect.Truncate();
    ok := effect.WriteU32(|objs|);
    if ok {
      ok := WriteRecords(effect, objs);
      ThenWritten([], Output(U32LE(|objs|), true), Run(BinaryAt, objs), effect.bytes);
    }
  }

  /** The loop of `export_info`: one record per object, in order, until one
      raises. */
  method WriteRecords(effect: ByteStream, objs: seq<SceneObject>) returns (ok: bool)
    modifies effect
    ensures effect.bytes == old(effect.bytes) + Run(BinaryAt, objs).data
    ensures ok == Run(BinaryAt, objs).complete
  {
    for i := 0 to |objs|
      invariant effect.bytes == old(effect.bytes) + Run(BinaryAt, objs[..i]).data
      invariant Run(BinaryAt, objs[..i]).complete
    {
      ghost var before := effect.bytes;
      ok := WriteBinaryEntry(effect, objs[i]);
      RunStep(BinaryAt, objs[..i], objs[i], old(effect.bytes), before, effect.bytes);
      TakeSnoc(objs, i);
      if !ok {
        RunStops(BinaryAt, objs, i + 1);
        return;
      }
    }
    TakeAll(objs);
    ok := true;
  }

  /** `export_text`: with no object to export the file is not opened;
      otherwise it is emptied and holds `TextFile`. */
  method ExportText(text: TextStream, selected: seq<SceneObject>) returns (ok: bool)
    modifies text
    ensures Exported(selected) == [] ==> ok && text.lines == old(text.lines)
    ensures Exported(selected) != [] ==>
      text.lines == TextFile(Exported(selected)).data && ok == TextFile(Exported(selected)).complete
  {
    var objs := Exported(selected);
    if objs == [] {
      return true;
    }
    text.Truncate();
    text.WriteLine(Header(|objs|));
    ok := WriteBlocks(text, objs);
  }

  /** The loop of `export_text`: each object's separator and block, in
      order, until one raises. */
  method WriteBlocks(text: TextStream, objs: seq<SceneObject>) returns (ok: bool)
    modifies text
    ensures text.lines == old(text.lines) + Run(TextAt, objs).data
    ensures ok == Run(TextAt, objs).complete
  {
    for i := 0 to |objs|
      invariant text.lines == old(text.lines) + Run(TextAt, objs[..i]).data
      invariant Run(TextAt, objs[..i]).complete
    {
      ghost var before := text.lines;
      ok := WriteBlock(text, i, objs[i]);
      RunStep(TextAt, objs[..i], objs[i], old(text.lines), before, text.lines);
      TakeSnoc(objs, i);
      if !ok {
        RunStops(TextAt, objs, i + 1);
        return;
      }
    }
    TakeAll(objs);
    ok := true;
  }

  /** One iteration of the loop of `export_text`. */
  method WriteBlock(text: TextStream, i: nat, o: SceneObject) returns (ok: bool)
    modifies text
    ensures text.lines == old(text.lines) + TextAt(i, o).data
    ensures ok == TextAt(i, o).complete
  {
    var sep := Separator(i + 1);
    text.WriteLine(sep);
    ok := WriteTextEntry(text, o);
    ThenWritten(old(text.lines), Output([sep], true), TextEntry(o), text.lines);
  }

  /** The header holds the number of exported objects. */
  lemma BinaryHeaderCount(objs: seq<SceneObject>)
    requires |objs| < U32_LIMIT
    ensures |BinaryFile(objs).data| >= 4
    ensures LEValue(BinaryFile(objs).data[..4]) == |objs|
  {
    assert BinaryFile(objs).data[..4] == U32LE(|objs|);
  }

  /** The effect file is written to its end exactly when the count fits in
      four bytes and no object's record raises. */
  lemma BinaryFileComplete(objs: seq<SceneObject>)
    ensures BinaryFile(objs).complete <==>
      |objs| < U32_LIMIT && forall i :: 0 <= i < |objs| ==> BinaryEntry(objs[i]).complete
  {
    RunComplete(BinaryAt, objs);
  }

  /** The first object whose record raises ends the file: the records after
      it are never written. */
  lemma BinaryFileStops(objs: seq<SceneObject>, k: nat)
    requires k < |objs| < U32_LIMIT
    requires forall j :: 0 <= j < k ==> BinaryEntry(objs[j]).complete
    requires !BinaryEntry(objs[k]).complete
    ensures BinaryFile(objs)
      == Output(U32LE(|objs|) + Run(BinaryAt, objs[..k]).data + BinaryEntry(objs[k]).data, false)
  {
    var pre, entry := Run(BinaryAt, objs[..k]), BinaryEntry(objs[k]);
    assert pre.complete by {
      RunComplete(BinaryAt, objs[..k]);
    }
    var upto := Run(BinaryAt, objs[..k + 1]);
    assert upto == Output(pre.data + entry.data, false) by {
      TakeSnoc(objs, k);
      RunSnoc(BinaryAt, objs[..k], objs[k]);
    }
    RunStops(BinaryAt, objs, k + 1);
    AppendAssoc(U32LE(|objs|), pre.data, entry.data);
  }

  /** The header counts every exported object, also those that get no
      record: a selected camera carrying an `sdfx_` key makes a file that
      announces one entry and holds none. */
  lemma CountIncludesUnrecordedObjects(pos: Vec3)
    ensures var cam := SceneObject("Camera", OtherType, pos, None, None, None, {"sdfx_color"});
      && Exported([cam]) == [cam]
      && BinaryFile([cam]) == Output(U32LE(1), true)
      && LEValue(BinaryFile([cam]).data) == 1
  {
    var cam := SceneObject("Camera", OtherType, pos, None, None, None, {"sdfx_color"});
    assert StartsWith("sdfx_color", "sdfx_");
    assert HasSdfxKey(cam);
    assert Exported([cam]) == [cam] by {
      assert Exported([cam][..0]) == [];
    }
    assert [cam][..0] == [];
    assert Run(BinaryAt, [cam]) == Output([], true);
    assert U32LE(1) + [] == U32LE(1);
  }

  /** The text file starts with the count, and each object's block with its
      separator. */
  lemma TextFileStart(objs: seq<SceneObject>)
    requires objs != []
    ensures |TextFile(objs).data| >= 2
    ensures TextFile(objs).data[0] == Header(|objs|)
    ensures TextFile(objs).data[1] == Separator(1)
  {
    assert objs[..1] == [] + [objs[0]];
    RunSnoc(TextAt, [], objs[0]);
    RunPrefix(TextAt, objs, 1);
    var first := Run(TextAt, objs[..1]).data;
    var all := Run(TextAt, objs).data;
    assert first[0] == Separator(1);
    assert all[0] == first[0];
    assert TextFile(objs).data == [Header(|objs|)] + all;
  }

  /** The text file is written to its end exactly when no object's block
      raises. */
  lemma TextFileComplete(objs: seq<SceneObject>)
    ensures TextFile(objs).complete <==> forall i :: 0 <= i < |objs| ==> TextEntry(objs[i]).complete
  {
    RunComplete(TextAt, objs);
  }

  /** The positions of the objects whose binary record holds at least one byte. */
  function RecordedSet(objs: seq<SceneObject>): set<nat> {
    set i: nat | i < |objs| && BinaryEntry(objs[i]).data != []
  }

  /** The positions of the objects of a 2DFX kind. */
  function KindedSet(objs: seq<SceneObject>): set<nat> {
    set i: nat | i < |objs| && KindOf(objs[i]).Some?
  }

  /** In a complete effect file, the objects that got a record are exactly
      the Lights, Particles and Texts, while the header counts every
      exported object: the two agree iff every exported object has a kind. */
  lemma RecordCount(objs: seq<SceneObject>)
    requires BinaryFile(objs).complete
    ensures RecordedSet(objs) == KindedSet(objs)
    ensures LEValue(BinaryFile(objs).data[..4]) == |objs|
    ensures |KindedSet(objs)| == |objs| <==> forall i :: 0 <= i < |objs| ==> KindOf(objs[i]).Some?
  {
    BinaryFileComplete(objs);
    BinaryHeaderCount(objs);
    forall i: nat | i < |objs|
      ensures BinaryEntry(objs[i]).data != [] <==> KindOf(objs[i]).Some?
    {
      BinaryEntryShape(objs[i]);
    }
    assert RecordedSet(objs) == KindedSet(objs);
    KindedSetSize(objs);
  }

  /** No more positions have a kind than there are objects, and as many iff
      every object has one. */
  lemma {:induction false} KindedSetSize(objs: seq<SceneObject>)
    ensures |KindedSet(objs)| <= |objs|
    ensures |KindedSet(objs)| == |objs| <==> forall i :: 0 <= i < |objs| ==> KindOf(objs[i]).Some?
    decreases |objs|
  {
    if objs != [] {
      var n := |objs| - 1;
      var init := objs[..n];
      KindedSetSize(init);
      assert n !in KindedSet(init);
      var tail: set<nat> := if KindOf(objs[n]).Some? then {n} else {};
      forall i: nat
        ensures i in KindedSet(objs) <==> i in KindedSet(init) + tail
      {
        if i < n {
          assert objs[i] == init[i];
        }
      }
      assert KindedSet(objs) == KindedSet(init) + tail;
      if forall i :: 0 <= i < |objs| ==> KindOf(objs[i]).Some? {
        assert forall i :: 0 <= i < |init| ==> KindOf(init[i]).Some?;
      } else if KindOf(objs[n]).Some? {
        var j :| 0 <= j < |objs| && KindOf(objs[j]).None?;
        assert init[j] == objs[j];
      }
    }
  }
}
