# 2DFX effects, RW versions and mesh joining: a Dafny model

This project models the core of a Blender add-on for GTA San Andreas.
The add-on exports selected Blender objects as 2DFX effects: point lights,
particle emitters and 2D texts. Each exported object goes into a binary
effect file, into a text file, or into both at once. The model covers:

- **Effect kind.** A `LIGHT` object is a Light, an `EMPTY` is a Particle,
  and a `MESH` whose name contains "Plane" is a Text.
- **Export.** An object is exported when it carries an `sdfx_` property.
  Each exported object becomes one record, written field by field.
- **Defaults.** The `add_*_info` operators fill in default properties.
- **Text import.** `import_2dfx` is a line filter that turns
  `2dfxType LIGHT` lines into point lights.
- **RenderWare versions.** The DFF operators validate a custom version
  such as "3.6.0.3" and turn it into a number. On import, the version is
  remembered in the scene.
- **Mesh joining.** `join_similar_named_meshes` groups meshes by the part
  of their name before the first dot, and joins each group of two or more.

Python raises exceptions part-way through a write. The model makes that
failure a value: `Streams.Output` pairs what was written with whether the
writer reached its end. A loop that stops at the first exception is
`Streams.Run`. Each writer is a method on a stream class. Its contract
says the stream grows by exactly the `Output` of a specification
function, and the lemmas state what the file holds.

Modules, one per file:

| file | module | models |
|---|---|---|
| wrappers.dfy | Wrappers | `Option` |
| bytes.dfy | Bytes | bytes, `to_bytes(4, 'little')`, `ljust`, ASCII encoding |
| pystr.dfy | PyStr | `str.split()`, `str.strip()`, `startswith`, `str(int)` |
| streams.dfy | Streams | `Output`, `Run`, and the binary and text stream classes |
| effects.dfy | Effects | scene objects, the effect kind, the `add_*_info` operators |
| records.dfy | Records | the binary record and text block of each effect kind |
| record_facts.dfy | RecordFacts | record layouts, sizes, the tokens of each text line |
| tdfx_export.dfy | TdfxExport | `export_info` and `export_text` of the 2DFX operator module |
| menus_export.dfy | MenusExport | `export_info` of the menu module, which writes both files in one pass |
| tdfx_import.dfy | TdfxImport | `import_2dfx`, and what it does with the exporters' text files |
| rw_version.dfy | RwVersion | the RenderWare version handling of the DFF operators |
| mesh_join.dfy | MeshJoin | `join_similar_named_meshes` |

## Model

| member | source | states |
|---|---|---|
| Effects.KindOf | tdfx_ot.py:67-72 | an object is a Light iff its type is LIGHT, a Particle iff EMPTY, a Text iff a MESH whose name contains "Plane"; everything else has no kind |
| Effects.HasSdfxKeyOfKeys | tdfx_ot.py:55 | an object is exported iff one of the names in `obj.keys()` starts with "sdfx_"; the fifteen light keys, "sdfx_psys" and the four text keys all do |
| Effects.Exported | tdfx_ot.py:55 | the exported objects are exactly the selected objects that carry an `sdfx_` key, and there are no more of them than were selected |
| Effects.ExportedInOrder | tdfx_ot.py:55 | the comprehension keeps selection order: its k-th object is the selected object at the k-th keyed position; those positions strictly increase and include every selected object with an `sdfx_` key |
| Effects.ExportedCount | tdfx_ot.py:55-63 | the number of exported objects, the count the header holds, equals the number of selected positions whose object carries an `sdfx_` key |
| Effects.WithLightDefaults | tdfx_ot.py:16-31 | after the defaults, the object has the default light properties and an `sdfx_` key; its kind and location are unchanged |
| Effects.WithParticleDefaults | tdfx_ot.py:38 | after the defaults, the object has the particle system "prt_blood"; its kind and location are unchanged |
| Effects.WithTextDefaults | tdfx_ot.py:45-48 | after the defaults, the object has four empty texts; its kind and location are unchanged |
| Effects.AddLightInfo | tdfx_ot.py:13-32 | every selected LIGHT gets the defaults; every other selected object is left as it was |
| Effects.AddParticleInfo | tdfx_ot.py:35-39 | every selected EMPTY gets "prt_blood"; every other selected object is left as it was |
| Effects.AddTextInfo | dff_menus.py:93-100 | exactly the objects the exporters treat as Texts get four empty texts |
| Bytes.U32LE | tdfx_ot.py:166 | the four bytes of a count read back, little-endian, as that count |
| Bytes.Ljust | tdfx_ot.py:132 | the padded field keeps the bytes as its prefix, then zeros up to the width, and never truncates |
| Bytes.EncodeConcat | tdfx_ot.py:182-184 | encoding the concatenation of two ASCII strings gives the concatenation of their encodings |
| PyStr.NatToStr | tdfx_ot.py:85 | the decimal text of a count is a non-empty string of digits whose decimal value (`DecValue`) is the count, with no leading zero unless the count is 0 |
| PyStr.Split | tdfx_ot.py:212 | every field `split()` returns is a non-empty run of non-blank characters |
| PyStr.Strip | tdfx_ot.py:208 | the stripped line neither starts nor ends with a blank |
| PyStr.StripSplit | tdfx_ot.py:208-212 | `split()` of the stripped line equals `split()` of the line; the stripped line is empty iff there are no fields, and otherwise starts with the first field's first character |
| PyStr.SplitLabelled | tdfx_ot.py:141 | a label followed by blanks and a value splits into the label and the value's fields |
| PyStr.SplitUnwords | tdfx_ot.py:189 | tokens joined by single spaces split back into those tokens |
| Streams.Then | tdfx_ot.py:61-72 | a write after a completed write appends to it; after an exception nothing more is written |
| Streams.RunStep | tdfx_ot.py:66-72 | one more loop iteration appends its call's output to the stream, and the loop is complete iff that call is |
| Streams.RunComplete | tdfx_ot.py:66-72 | a loop runs to its end iff every call in it does |
| Streams.RunStops | tdfx_ot.py:66-72 | after the first call that raises, no later call writes anything |
| Streams.RunPrefix | tdfx_ot.py:66-72 | what the first k iterations wrote is a prefix of what the whole loop wrote |
| Streams.RunMembers | tdfx_ot.py:88-96 | every line a loop wrote was written by one of its calls |
| Streams.RunHolds | tdfx_ot.py:88-96 | in a loop that ran to its end, every line any call wrote is in the output |
| Streams.ByteStream.PackByte | tdfx_ot.py:127 | `struct.pack("B", v)` appends v when it is in 0..255; otherwise it raises and writes nothing |
| Streams.ByteStream.PackColor | tdfx_ot.py:122 | the "4B" colour pack writes all four channels, or nothing when one is out of range |
| Streams.ByteStream.WriteU32 | tdfx_ot.py:63 | the count is written as four little-endian bytes; from 2^32 on it raises and writes nothing |
| Streams.TextStream.WriteLine | tdfx_ot.py:85 | one `write` call appends one line |
| Records.PackBytes | tdfx_ot.py:127-131 | successive byte packs write a prefix of the values; they complete iff every value is in 0..255 |
| Records.PackBytesStop | tdfx_ot.py:127-131 | the byte packs stop exactly before the first value out of range |
| Records.NameFieldLayout | tdfx_ot.py:132-133 | a texture name of up to 24 characters is padded with zeros to 24 bytes; a longer one is written whole |
| Records.LightHead | tdfx_ot.py:119-126 | position, colour and four floats make 32 bytes; with a colour channel out of range only the 12 position bytes are written |
| Records.LightRecord | tdfx_ot.py:118-136 | a Light record starts with the position and completes iff every byte-packed field is in range |
| Records.LengthField | tdfx_ot.py:166-167 | a length-prefixed string is 4 plus its length bytes; it raises and writes nothing from 2^32 characters on |
| Records.ParticleRecord | tdfx_ot.py:162-167 | a Particle record is the position, then the length field; without `sdfx_psys` it stops after the position |
| Records.ParticleRecordLayout | tdfx_ot.py:163-167 | a complete Particle record is the position, the name's length as a 32-bit count, and the name |
| Records.Payload | tdfx_ot.py:182 | the Text payload is as long as the four texts together |
| Records.TextRecord | tdfx_ot.py:178-184 | a Text record is the position, then the length field; without the text keys it stops after the position |
| Records.TextRecordLayout | tdfx_ot.py:179-184 | a complete Text record is the position, the total length, and the four texts back to back with no separator |
| Records.Prefixed | tdfx_ot.py:140-156 | line i of a block is prefix i followed by value i |
| Records.LightLines | tdfx_ot.py:140-156 | a Light block is seventeen lines |
| Records.ParticleLines | tdfx_ot.py:170-172 | a Particle block starts with its type line; it is three lines, or two when `sdfx_psys` is missing |
| Records.TextLines | tdfx_ot.py:187-189 | a Text block starts with its type line; it is three lines, or two when a text key is missing |
| Records.BinaryEntryShape | tdfx_ot.py:66-72 | an object of no kind writes nothing and raises nothing; a Light without its properties raises before its first byte; every other record starts with the packed position; the record completes iff its kind's properties are present and in range |
| Records.TextEntryShape | tdfx_ot.py:88-96 | a block is empty iff the object has no kind or is a Light without its properties; otherwise its first line is "2dfxType" padded, then LIGHT, PARTICLE or TEXT by kind; it completes unless the kind's properties are missing |
| Records.WriteLightRecord | tdfx_ot.py:118-136 | the binary stream grows by exactly the Light record, and the result says whether it completed |
| Records.WriteLightFlags | tdfx_ot.py:127-131 | the five byte packs after the floats append the `PackBytes` of those fields |
| Records.WriteLightTail | tdfx_ot.py:134-136 | the last three byte packs append the `PackBytes` of those fields |
| Records.WritePackBytes | tdfx_ot.py:127-136 | successive single-byte packs append exactly `PackBytes` of the values: each in turn, stopping at the first outside 0..255 |
| Records.WriteLightLines | tdfx_ot.py:140-156 | the text stream grows by exactly the seventeen lines of the Light block |
| Records.WriteParticleRecord | tdfx_ot.py:162-167 | the binary stream grows by exactly the Particle record |
| Records.WriteParticleLines | tdfx_ot.py:169-172 | the text stream grows by exactly the Particle block |
| Records.WriteTextRecord | tdfx_ot.py:178-184 | the binary stream grows by exactly the Text record |
| Records.WriteTextLines | tdfx_ot.py:186-189 | the text stream grows by exactly the Text block |
| Records.WriteBinaryEntry | tdfx_ot.py:67-72 | the type dispatch appends the record of the object's kind; an object of no kind adds nothing |
| Records.WriteTextEntry | tdfx_ot.py:91-96 | the type dispatch appends the block of the object's kind |
| RecordFacts.LightRecordFields | tdfx_ot.py:119-136 | a complete Light record is its fields in source order, with nothing else in between |
| RecordFacts.LightRecordLayout | tdfx_ot.py:119-136 | the byte offset of every field of a complete Light record |
| RecordFacts.LightRecordStandardSize | tdfx_ot.py:119-136 | with both texture names at most 24 characters, the record is 88 bytes, with the names at 37 and 61 and a zero last byte |
| RecordFacts.LongCoronaNameGrowsRecord | tdfx_ot.py:132 | a corona name longer than 24 characters is written whole, so the record grows past 88 bytes |
| RecordFacts.DefaultLightRecordSize | tdfx_ot.py:16-31 | a Light with the `add_light_info` defaults encodes without error to 88 bytes |
| RecordFacts.DefaultTextRecordSize | tdfx_ot.py:45-48 | a Text with the `add_text_info` defaults encodes to 16 bytes with a zero length |
| RecordFacts.DefaultParticleRecordSize | tdfx_ot.py:38 | a Particle with "prt_blood" encodes to 25 bytes with length 9 |
| RecordFacts.TypeLine | tdfx_ot.py:140 | a type line splits into exactly two fields: "2dfxType" and the kind |
| RecordFacts.PositionLine | tdfx_ot.py:141 | the Position line splits into "Position" and the three coordinates |
| RecordFacts.LightLinesSplit | tdfx_ot.py:140-156 | line 0 of a Light block splits to "2dfxType" and "LIGHT"; every later line is non-blank, is not a comment, and does not start with "2dfxType" |
| RecordFacts.TextDataSplit | tdfx_ot.py:182-189 | when each of the four texts is a single non-empty run of non-blank characters, the TextData line splits into those four texts, whose concatenation is the binary payload |
| TdfxExport.SeparatorFields | tdfx_ot.py:90 | the separator of object i splits into two runs of 25 hash signs around i in decimal, which reads back as i |
| TdfxExport.HeaderFields | tdfx_ot.py:85 | the first text line splits into "NumEntries" and the count in decimal, which reads back as the count |
| TdfxExport.ExportInfo | tdfx_ot.py:52-72 | with nothing to export, the effect file is not touched; otherwise it holds exactly `BinaryFile` of the exported objects, and the result says whether the export finished |
| TdfxExport.WriteRecords | tdfx_ot.py:66-72 | the record loop appends the records of the objects in order, up to and including the first that raised |
| TdfxExport.ExportText | tdfx_ot.py:75-96 | with nothing to export, the text file is not touched; otherwise it holds exactly `TextFile` of the exported objects |
| TdfxExport.WriteBlocks | tdfx_ot.py:88-96 | the block loop appends each object's separator and block, in order, up to the first that raised |
| TdfxExport.WriteBlock | tdfx_ot.py:90-96 | one iteration appends the numbered separator, then the object's block |
| TdfxExport.BinaryHeaderCount | tdfx_ot.py:63 | the first four bytes of the effect file read back as the number of exported objects |
| TdfxExport.BinaryFileComplete | tdfx_ot.py:63-72 | the effect file is complete iff the count fits in four bytes and every record completes |
| TdfxExport.BinaryFileStops | tdfx_ot.py:66-72 | when object k is the first whose record raises, the file is the count, the records before k, and the partial record of k |
| TdfxExport.CountIncludesUnrecordedObjects | tdfx_ot.py:55-72 | the count includes objects with no record: a selected camera with an `sdfx_` key makes a file that announces one entry and holds none |
| TdfxExport.RecordCount | tdfx_ot.py:55-72 | in a complete effect file, the objects that got a record are exactly the Lights, Particles and Texts; the header counts all exported objects, so it equals the number of records iff every exported object has a kind |
| TdfxExport.TextFileStart | tdfx_ot.py:85-90 | the text file starts with "NumEntries n", then the separator numbered 1 |
| TdfxExport.TextFileComplete | tdfx_ot.py:88-96 | the text file is complete iff every object's block completes |
| MenusExport.MenuTextAt | dff_menus.py:120-128 | an iteration of the two-file loop raises in the text file exactly where it raises in the effect file |
| MenusExport.ExportBoth | dff_menus.py:103-128 | with nothing to export, neither file is touched; otherwise the effect file holds the same bytes the binary-only exporter writes, and the text file holds `MenuTextFile` |
| MenusExport.WriteBoth | dff_menus.py:120-128 | the loop appends the records and the separators (plus the Light blocks) in lockstep, up to the first record that raised |
| MenusExport.WriteObject | dff_menus.py:122-128 | one iteration appends the separator, then the binary record, then the Light's text block when the record completed |
| MenusExport.MenuTextFileStart | dff_menus.py:112-122 | the text file starts with "NumEntries n" and the separator numbered 1, and is empty exactly when the effect file is |
| MenusExport.MenuFilesCompleteTogether | dff_menus.py:112-128 | the text file is complete iff the effect file is |
| MenusExport.NonLightHasNoTextBlock | dff_menus.py:125-128 | a Particle or a Text gets only its separator in the text file |
| MenusExport.SameTextForLights | dff_menus.py:118-124 | when every exported object is a writable Light or of no kind, both exporters write the same text file |
| TdfxImport.Dispatch | tdfx_ot.py:212-217 | a line makes a light iff its fields start with "2dfxType" and "LIGHT" and there are at least six; the light is at fields 3 to 5; reading a missing field raises IndexError |
| TdfxImport.ClassifyFields | tdfx_ot.py:208-217 | by the line's fields: no fields or a first field starting with '#' skips the line; "2dfxType" then "LIGHT" with six or more fields makes a light at fields 3 to 5; "2dfxType" alone, or "2dfxType LIGHT" with fewer than six fields, raises IndexError |
| TdfxImport.ClassifyByTokens | tdfx_ot.py:208-213 | what happens to a line depends only on its fields: no fields or a leading '#' means the line is skipped |
| TdfxImport.Import2dfx | tdfx_ot.py:205-222 | the loop creates the lights of `Import` in file order, including those created before an IndexError, and reaches the end iff `Import` does |
| TdfxImport.LightTypeLineRaises | tdfx_ot.py:140 | the exporters' own "2dfxType LIGHT" line has two fields, so the importer raises IndexError on it |
| TdfxImport.SeparatorSkipped | tdfx_ot.py:90 | the numbered separators are skipped as comments |
| TdfxImport.HeaderQuiet | tdfx_ot.py:85 | the NumEntries line creates nothing |
| TdfxImport.LightBlockLines | tdfx_ot.py:140-156 | every line of a Light block but the first creates nothing and raises nothing |
| TdfxImport.ParticleLinesQuiet | tdfx_ot.py:170-172 | no line of a Particle block creates or raises anything |
| TdfxImport.TextLinesQuiet | tdfx_ot.py:187-189 | no line of a Text block creates or raises anything |
| TdfxImport.ImportReadable | tdfx_ot.py:207-217 | lines that are all quiet or Light type lines create no light, and are read to the end iff no Light type line is among them |
| TdfxImport.TextEntryLines | tdfx_ot.py:91-96 | an object's block holds a Light type line iff the object is a Light with its properties; every other line is quiet |
| TdfxImport.TextFileLines | tdfx_ot.py:75-96 | every line `export_text` writes is quiet or a Light type line; in a complete file, a Light type line appears iff a Light was exported |
| TdfxImport.MenuTextFileLines | dff_menus.py:112-128 | the same for the text file the menu exporter writes |
| TdfxImport.ReimportText | tdfx_ot.py:205-217 | importing the text file `export_text` wrote creates no light; when that file is complete, the import raises IndexError iff a Light was exported |
| TdfxImport.ReimportMenuText | dff_menus.py:118-186 | the same for the text file the menu exporter writes |
| RwVersion.RwVersionIsDottedDigits | dff_ot.py:66-76 | a custom version is valid iff it is four digits joined by dots |
| RwVersion.VerifyRwVersion | dff_ot.py:66-76 | `verify_rw_version` returns true exactly for seven characters with digits at 0, 2, 4 and 6 and dots at 1, 3 and 5 |
| RwVersion.IntHexLiteral | dff_ot.py:105 | `int(s, 0)` of a "0x" string gives a value iff at least one character follows the prefix and all of them are hexadecimal digits |
| RwVersion.CustomHex | dff_ot.py:108-113 | the literal built from a custom version is "0x", then characters 0, 2 and 4, a zero, then character 6 |
| RwVersion.SelectedRwVersion | dff_ot.py:103-113 | the preset gives 0x36003; a valid custom version d0.d2.d4.d6 gives d0·16⁴ + d2·16³ + d4·16² + d6; a custom version shorter than seven characters raises |
| RwVersion.HexValueFive | dff_ot.py:108-113 | five hexadecimal digits have the positional value |
| RwVersion.CustomHexValue | dff_ot.py:108-113 | the literal of a valid custom version parses to `CustomValue` |
| RwVersion.PresetIsCustom3603 | dff_ot.py:55 | "3.6.0.3" is valid, and it selects the same number as the preset |
| RwVersion.CustomValueInjective | dff_ot.py:108-113 | different valid custom versions select different numbers |
| RwVersion.ImportedDotted | dff_ot.py:277-279 | the dotted form of an imported version exists iff the version has at least seven characters |
| RwVersion.CustomRoundTrip | dff_ot.py:108-113 | importing the literal a valid custom version was exported as gives back that version |
| RwVersion.ImportedRoundTrip | dff_ot.py:277-279 | "0x" followed by three digits, a zero and a digit is rebuilt from the dotted version it imports as |
| RwVersion.RejectsMalformed | dff_ot.py:66-76 | "36.0.3", "3x6.0.3" and "3.6.0.a" are rejected |
| RwVersion.ExportExecute | dff_ot.py:115-143 | an invalid custom version changes nothing and exports nothing; otherwise the exporter gets the selected version, and the scene remembers the choice and the custom text |
| RwVersion.ImportExecute | dff_ot.py:271-279 | a preset version is stored as it is; any other stores "custom", then its dotted form; when it is shorter than seven characters, it raises after storing "custom" |
| MeshJoin.BaseName | dff_menus.py:19-21 | the base name is the name up to, and not including, its first dot |
| MeshJoin.BaseOrderKeys | dff_menus.py:23-26 | the dictionary's keys are exactly the base names of the meshes, each once |
| MeshJoin.MeshesNamedMembers | dff_menus.py:17-26 | the list under a key holds exactly the meshes with that base name |
| MeshJoin.MeshInOneBucket | dff_menus.py:17-26 | each mesh lands in the list of its own base name and in no other |
| MeshJoin.FirstMember | dff_menus.py:31 | a list's first member is the first mesh in scene order with that base name |
| MeshJoin.BuildBuckets | dff_menus.py:14-26 | the first loop builds the dictionary: keys in first-appearance order, each mapped to its meshes in scene order |
| MeshJoin.JoinSimilarNamedMeshes | __init__.py:57-82 | the join calls are `JoinsFor` the scene, in key order |
| MeshJoin.JoinsAreGroups | dff_menus.py:29-37 | every join selects a whole list of two or more meshes sharing a base name, with the list's first member active; every such list is joined |
| MeshJoin.JoinedIffShared | dff_menus.py:29-37 | an object is selected for a join iff it is a mesh that shares its base name with another mesh |
| MeshJoin.JoinsDisjoint | dff_menus.py:29-37 | no object is selected by two different joins |

## Left out

- Floating point: a float is an opaque pair of its four `struct.pack("f", x)` bytes and its single `str(x)` token. IEEE-754 rounding and the OverflowError of packing a value beyond single range are not modelled.
- Text encoding: names and texts are ASCII strings, so UTF-8 encoding is one byte per character. The file is read back as latin-1; each text line the exporter writes is taken to be read back as that same line.
- `TdfxImport.ReimportText`, `TdfxImport.ReimportMenuText`: a name or text holding '\n' or '\r' would split its line in two when the file is read back; both lemmas take every written line to come back as one line, so they do not cover such names.
- Colour channels and byte-packed light properties (`Rgba`, `LightProps`) are Python ints in the model. The truncation `int(color[i])` applies to floats (tdfx_ot.py:122, 142), and packing a non-int with "B" raises struct.error (tdfx_ot.py:127-136); neither is modelled.
- `PyStr.IsDigitChar`: `str.isdigit` also accepts non-ASCII digits (superscripts, other scripts); the model accepts the ASCII digits only.
- `RwVersion.IntHexLiteral`: `int(s, 0)` is modelled only for strings that start with "0x", the only form the exporter passes it. Underscores, signs, blanks and other bases are not modelled.
- Properties come all or nothing: a Light either has all fifteen light keys or none (`light` is `None`), and likewise for the four text keys. A Light with some of its keys missing raises KeyError before writing, as one with none does; which key is missing is not modelled.
- `TdfxImport.Import2dfx`: the three coordinate fields are kept as text. The ValueError `float()` raises on a non-numeric field is not modelled, and neither are the light it creates, its name, or the `add_light_info` call after it. Scene mutation is a foreign call.
- The join itself (`bpy.ops.object.join`), the active object and the selection flags are Blender state. A join is recorded as the object made active and the objects selected.
- `create_lights_from_omni_frames` creates lights through Blender operators, which is scene mutation, and is left out.
- File I/O: opening the files, the global file paths and `print` are not modelled. A stream starts empty when the file is opened for writing.
- The operators' `draw`, `invoke` and registration code is user-interface code and is left out.
- Blender names are unique, so scene objects are compared as values.
