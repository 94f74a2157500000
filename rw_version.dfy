/** The RenderWare version handling of the DFF operators: the exporter either
    uses its preset version or a custom version typed as "d.d.d.d", which it
    validates and turns into a hexadecimal literal; the importer stores the
    version of the file it read in the scene, as a preset name or as a dotted
    custom version. */
module RwVersion {
  import opened Wrappers
  import opened PyStr

  /** The items of the `export_version` enum. */
  const Samp := "0x36003"
  const CustomItem := "custom"

  predicate IsExportChoice(choice: string) {
    choice == Samp || choice == CustomItem
  }

  /** The versions the importer keeps under their own name. */
  const Presets: seq<string> := ["0x33002", "0x34003", "0x36003"]

  /** What position `j` of a custom version must hold: a digit at even
      positions, a dot at odd ones. */
  predicate SlotOk(v: string, j: nat)
    requires j < |v|
  {
    if j % 2 == 0 then IsDigitChar(v[j]) else v[j] == '.'
  }

  /** A well-formed custom version: seven characters, alternating digit and
      dot. */
  predicate IsRwVersion(v: string) {
    |v| == 7 && forall j :: 0 <= j < 7 ==> SlotOk(v, j)
  }

  /** Four characters joined by dots, as `"{}.{}.{}.{}".format` does. */
  function Dotted(a: char, b: char, c: char, d: char): (r: string)
    ensures |r| == 7 && r[1] == r[3] == r[5] == '.'
    ensures r[0] == a && r[2] == b && r[4] == c && r[6] == d
  {
    [a, '.', b, '.', c, '.', d]
  }

  /** The well-formed custom versions are exactly the dotted digit
      quadruples. */
  lemma RwVersionIsDottedDigits(v: string)
    ensures IsRwVersion(v) <==>
      |v| == 7 && IsDigitChar(v[0]) && IsDigitChar(v[2]) && IsDigitChar(v[4]) && IsDigitChar(v[6])
      && v == Dotted(v[0], v[2], v[4], v[6])
  {
    if |v| == 7 && IsDigitChar(v[0]) && IsDigitChar(v[2]) && IsDigitChar(v[4]) && IsDigitChar(v[6])
      && v == Dotted(v[0], v[2], v[4], v[6])
    {
      forall j | 0 <= j < 7
        ensures SlotOk(v, j)
      {
        assert j in {0, 1, 2, 3, 4, 5, 6};
      }
    }
    if IsRwVersion(v) {
      assert SlotOk(v, 0) && SlotOk(v, 1) && SlotOk(v, 2) && SlotOk(v, 3);
      assert SlotOk(v, 4) && SlotOk(v, 5) && SlotOk(v, 6);
    }
  }

  /** `verify_rw_version`: the length test, then one pass over the
      characters that returns at the first one out of place. */
  method VerifyRwVersion(v: string) returns (ok: bool)
    ensures ok <==> IsRwVersion(v)
  {
    if |v| != 7 {
      return false;
    }
    for i := 0 to |v|
      invariant forall j :: 0 <= j < i ==> SlotOk(v, j)
    {
      if i % 2 == 0 && !IsDigitChar(v[i]) {
        assert !SlotOk(v, i);
        return false;
      }
      if i % 2 == 1 && v[i] != '.' {
        assert !SlotOk(v, i);
        return false;
      }
    }
    return true;
  }

  predicate IsHexDigit(c: char) {
    '0' <= c <= '9' || 'a' <= c <= 'f' || 'A' <= c <= 'F'
  }

  function HexDigitValue(c: char): (d: nat)
    requires IsHexDigit(c)
    ensures d < 16
  {
    if '0' <= c <= '9' then c as int - '0' as int
    else if 'a' <= c <= 'f' then c as int - 'a' as int + 10
    else c as int - 'A' as int + 10
  }

  /** The value of a string of hexadecimal digits, most significant first. */
  function HexValue(ds: string): nat
    requires forall i :: 0 <= i < |ds| ==> IsHexDigit(ds[i])
  {
    if ds == [] then 0 else HexValue(ds[..|ds| - 1]) * 16 + HexDigitValue(ds[|ds| - 1])
  }

  /** `int(s, 0)` on a string that starts with "0x": the value of the
      digits after the prefix, or ValueError (`None`) when there are none or
      one of them is not hexadecimal. */
  function IntHexLiteral(s: string): (r: Option<nat>)
    requires StartsWith(s, "0x")
    ensures r.Some? <==> |s| > 2 && forall i :: 2 <= i < |s| ==> IsHexDigit(s[i])
  {
    var ds := s[2..];
    if ds != [] && forall i :: 0 <= i < |ds| ==> IsHexDigit(ds[i]) then Some(HexValue(ds)) else None
  }

  /** The literal `get_selected_rw_version` builds from a custom version:
      characters 0, 2 and 4, a zero, then character 6. */
  function CustomHex(v: string): (r: string)
    requires |v| >= 7
    ensures |r| == 7 && StartsWith(r, "0x")
    ensures r[2] == v[0] && r[3] == v[2] && r[4] == v[4] && r[5] == '0' && r[6] == v[6]
  {
    "0x" + [v[0], v[2], v[4], '0', v[6]]
  }

  /** The numeric value of a decimal digit. */
  function DigitValue(c: char): (d: nat)
    requires IsDigitChar(c)
    ensures d < 10
  {
    c as int - '0' as int
  }

  /** The version number a well-formed custom version stands for: its
      digits read as hexadecimal digits 4, 3, 2 and 0, digit 1 being zero. */
  function CustomValue(v: string): nat
    requires IsRwVersion(v)
  {
    RwVersionIsDottedDigits(v);
    DigitValue(v[0]) * 0x10000 + DigitValue(v[2]) * 0x1000 + DigitValue(v[4]) * 0x100 + DigitValue(v[6])
  }

  /** The hexadecimal value of five digits. */
  lemma HexValueFive(ds: string)
    requires |ds| == 5 && forall i :: 0 <= i < 5 ==> IsHexDigit(ds[i])
    ensures HexValue(ds) == HexDigitValue(ds[0]) * 0x10000 + HexDigitValue(ds[1]) * 0x1000
      + HexDigitValue(ds[2]) * 0x100 + HexDigitValue(ds[3]) * 0x10 + HexDigitValue(ds[4])
  {
    assert ds[..4][..3] == ds[..3] && ds[..3][..2] == ds[..2] && ds[..2][..1] == ds[..1];
    assert HexValue(ds[..1]) == HexDigitValue(ds[0]) by {
      assert ds[..1][..0] == [];
    }
    assert HexValue(ds[..2]) == HexValue(ds[..1]) * 16 + HexDigitValue(ds[1]);
    assert HexValue(ds[..3]) == HexValue(ds[..2]) * 16 + HexDigitValue(ds[2]);
    assert HexValue(ds[..4]) == HexValue(ds[..3]) * 16 + HexDigitValue(ds[3]);
    assert HexValue(ds) == HexValue(ds[..4]) * 16 + HexDigitValue(ds[4]);
  }

  /** `get_selected_rw_version`: the preset through `int(..., 0)`, or the
      literal built from the custom version, which raises IndexError
      (`None`) when the custom version is shorter than seven characters and
      ValueError when a used character is not a hexadecimal digit. */
  function SelectedRwVersion(choice: string, custom: string): (r: Option<nat>)
    requires IsExportChoice(choice)
    ensures choice == Samp ==> r == Some(0x36003)
    ensures choice == CustomItem && IsRwVersion(custom) ==> r == Some(CustomValue(custom))
    ensures choice == CustomItem && |custom| < 7 ==> r == None
  {
    if choice != CustomItem then
      assert HexValue("36003") == 0x36003 by { HexValueFive("36003"); }
      IntHexLiteral(choice)
    else if |custom| < 7 then None
    else
      CustomHexValue(custom);
      IntHexLiteral(CustomHex(custom))
  }

  /** The literal of a well-formed custom version parses to its value. */
  lemma CustomHexValue(v: string)
    requires |v| >= 7
    ensures IsRwVersion(v) ==> IntHexLiteral(CustomHex(v)) == Some(CustomValue(v))
  {
    if IsRwVersion(v) {
      RwVersionIsDottedDigits(v);
      var ds := CustomHex(v)[2..];
      assert ds == [v[0], v[2], v[4], '0', v[6]];
      HexValueFive(ds);
    }
  }

  /** The preset and the custom version "3.6.0.3" give the same number. */
  lemma PresetIsCustom3603()
    ensures IsRwVersion("3.6.0.3")
    ensures SelectedRwVersion(Samp, "") == SelectedRwVersion(CustomItem, "3.6.0.3")
  {
    assert "3.6.0.3" == Dotted('3', '6', '0', '3');
    RwVersionIsDottedDigits("3.6.0.3");
  }

  /** Different well-formed custom versions give different numbers. */
  lemma CustomValueInjective(u: string, v: string)
    requires IsRwVersion(u) && IsRwVersion(v)
    requires CustomValue(u) == CustomValue(v)
    ensures u == v
  {
    RwVersionIsDottedDigits(u);
    RwVersionIsDottedDigits(v);
    var a, b, c, d := DigitValue(u[0]), DigitValue(u[2]), DigitValue(u[4]), DigitValue(u[6]);
    var a', b', c', d' := DigitValue(v[0]), DigitValue(v[2]), DigitValue(v[4]), DigitValue(v[6]);
    assert a == a' && b == b' && c == c' && d == d';
    assert u[0] == v[0] && u[2] == v[2] && u[4] == v[4] && u[6] == v[6];
  }

  /** The dotted version the importer stores for a non-preset version:
      characters 2, 3, 4 and 6; IndexError (`None`) when the string is
      shorter than seven characters. */
  function ImportedDotted(version: string): (r: Option<string>)
    ensures r.Some? <==> |version| >= 7
  {
    if |version| < 7 then None else Some(Dotted(version[2], version[3], version[4], version[6]))
  }

  /** Exporting a well-formed custom version and importing the literal it
      made gives the version back. */
  lemma CustomRoundTrip(v: string)
    requires IsRwVersion(v)
    ensures ImportedDotted(CustomHex(v)) == Some(v)
  {
    RwVersionIsDottedDigits(v);
  }

  /** Conversely, a literal "0x" followed by three decimal digits, a zero
      and a decimal digit is rebuilt from the dotted version it imports as. */
  lemma ImportedRoundTrip(version: string)
    requires |version| == 7 && StartsWith(version, "0x") && version[5] == '0'
    requires IsDigitChar(version[2]) && IsDigitChar(version[3]) && IsDigitChar(version[4]) && IsDigitChar(version[6])
    ensures ImportedDotted(version).Some?
    ensures IsRwVersion(ImportedDotted(version).value)
    ensures CustomHex(ImportedDotted(version).value) == version
  {
    var v := ImportedDotted(version).value;
    RwVersionIsDottedDigits(v);
    assert version[..2] == "0x";
    assert CustomHex(v) == version;
  }

  /** A version string that is not dotted digits is rejected. */
  lemma RejectsMalformed()
    ensures !IsRwVersion("36.0.3")
    ensures !IsRwVersion("3x6.0.3")
    ensures !IsRwVersion("3.6.0.a")
  {
    assert !SlotOk("3x6.0.3", 1);
    assert !SlotOk("3.6.0.a", 6);
  }

  /** The scene's custom properties, where both operators remember the
      version. */
  class Scene {
    var props: map<string, string>

    constructor(props: map<string, string>)
      ensures this.props == props
    {
      this.props := props;
    }
  }

  const ImportedVersionKey := "custom_imported_version"
  const CustomVersionKey := "custom_custom_version"

  /** `execute` of the exporter: a custom version that fails validation is
      reported and nothing else happens; otherwise the DFF exporter receives
      the selected version (`exported`), and the scene remembers the choice
      and the custom text whether or not the export raised its own
      exception. */
  method ExportExecute(scene: Scene, choice: string, custom: string) returns (exported: Option<nat>)
    requires IsExportChoice(choice)
    modifies scene
    ensures choice == CustomItem && !IsRwVersion(custom) ==>
      exported == None && scene.props == old(scene.props)
    ensures !(choice == CustomItem && !IsRwVersion(custom)) ==>
      && exported == SelectedRwVersion(choice, custom)
      && exported.Some?
      && scene.props == old(scene.props)[ImportedVersionKey := choice][CustomVersionKey := custom]
  {
    if choice == CustomItem {
      var ok := VerifyRwVersion(custom);
      if !ok {
        return None;
      }
    }
    exported := SelectedRwVersion(choice, custom);
    scene.props := scene.props[ImportedVersionKey := choice];
    scene.props := scene.props[CustomVersionKey := custom];
  }

  /** The importer's record of the version of a file it read: a preset is
      stored under its own name; any other version stores "custom" first,
      then its dotted form, and raises IndexError (`ok` false) between the
      two when it is shorter than seven characters. */
  method ImportExecute(scene: Scene, version: string) returns (ok: bool)
    modifies scene
    ensures version in Presets ==>
      ok && scene.props == old(scene.props)[ImportedVersionKey := version]
    ensures version !in Presets ==>
      && ok == ImportedDotted(version).Some?
      && scene.props == if ok
        then old(scene.props)[ImportedVersionKey := CustomItem][CustomVersionKey := ImportedDotted(version).value]
        else old(scene.props)[ImportedVersionKey := CustomItem]
  {
    if version in Presets {
      scene.props := scene.props[ImportedVersionKey := version];
      return true;
    }
    scene.props := scene.props[ImportedVersionKey := CustomItem];
    if |version| < 7 {
      return false;
    }
    scene.props := scene.props[CustomVersionKey := Dotted(version[2], version[3], version[4], version[6])];
    ok := true;
  }
}
