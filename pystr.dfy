/** The Python `str` builtins the add-on relies on, for the characters a
    Latin-1 text file can hold: `isspace`, `strip()`, `split()`, `startswith`,
    the `in` substring test and `str()` of an integer. */
module PyStr {

  /** `c.isspace()` for a Latin-1 character: tab, line feed, vertical tab,
      form feed, carriage return, the four separators 0x1C..0x1F, space,
      NEL (0x85) and no-break space (0xA0). */
  predicate IsSpace(c: char) {
    var n := c as int;
    n == 32 || 9 <= n <= 13 || 28 <= n <= 31 || n == 0x85 || n == 0xA0
  }

  predicate AllSpace(s: string) {
    forall i :: 0 <= i < |s| ==> IsSpace(s[i])
  }

  /** A non-empty run of non-whitespace characters: one `split()` field. */
  predicate IsToken(s: string) {
    s != [] && forall i :: 0 <= i < |s| ==> !IsSpace(s[i])
  }

  /** `s.startswith(p)`. */
  predicate StartsWith(s: string, p: string) {
    |p| <= |s| && s[..|p|] == p
  }

  /** `sub in s`. */
  predicate Contains(s: string, sub: string)
    decreases |s|
  {
    StartsWith(s, sub) || (s != [] && Contains(s[1..], sub))
  }

  /** A decimal digit; `str.isdigit` also accepts other Unicode digits,
      which are left out of this model. */
  predicate IsDigitChar(c: char) {
    '0' <= c <= '9'
  }

  function DigitChar(d: nat): (c: char)
    requires d < 10
    ensures IsDigitChar(c) && c as int - '0' as int == d
  {
    ('0' as int + d) as char
  }

  /** The number a string of decimal digits spells, most significant digit
      first: the reading `int(s)` gives it. */
  function DecValue(s: string): nat
    requires forall i :: 0 <= i < |s| ==> IsDigitChar(s[i])
    decreases |s|
  {
    if s == [] then 0
    else
      assert IsDigitChar(s[|s| - 1]);
      DecValue(s[..|s| - 1]) * 10 + (s[|s| - 1] as int - '0' as int)
  }

  /** `str(n)` for a natural number: its decimal digits, which spell `n`,
      with no leading zero. */
  /** A non-empty run of digits is a single field. */
  lemma DigitsAreToken(s: string)
    requires s != [] && forall i :: 0 <= i < |s| ==> IsDigitChar(s[i])
    ensures IsToken(s)
  {
  }

  function NatToStr(n: nat): (r: string)
    ensures r != []
    ensures forall i :: 0 <= i < |r| ==> IsDigitChar(r[i])
    ensures DecValue(r) == n
    ensures r[0] == '0' <==> n == 0
    decreases n
  {
    if n < 10 then [DigitChar(n)]
    else
      var init := NatToStr(n / 10);
      var r := init + [DigitChar(n % 10)];
      assert r[..|r| - 1] == init;
      r
  }

  /** `str(i)` for an integer. */
  function IntToStr(i: int): (r: string)
    ensures IsToken(r)
  {
    if i < 0 then "-" + NatToStr(-i) else NatToStr(i)
  }

  /** The length of the run of non-whitespace characters that starts `s`. */
  function WordLen(s: string): (n: nat)
    ensures n <= |s|
    ensures forall i :: 0 <= i < n ==> !IsSpace(s[i])
    ensures n < |s| ==> IsSpace(s[n])
  {
    if s == [] || IsSpace(s[0]) then 0 else 1 + WordLen(s[1..])
  }

  /** `s.split()`: the maximal runs of non-whitespace, in order. */
  function Split(s: string): (r: seq<string>)
    ensures forall i :: 0 <= i < |r| ==> IsToken(r[i])
    decreases |s|
  {
    if s == [] then []
    else if IsSpace(s[0]) then Split(s[1..])
    else
      var n := WordLen(s);
      [s[..n]] + Split(s[n..])
  }

  /** Leading whitespace removed. */
  function StripLeft(s: string): (r: string)
    ensures |r| <= |s| && r == s[|s| - |r|..]
    ensures AllSpace(s[..|s| - |r|])
    ensures r == [] || !IsSpace(r[0])
  {
    if s != [] && IsSpace(s[0]) then StripLeft(s[1..]) else s
  }

  /** Trailing whitespace removed. */
  function StripRight(s: string): (r: string)
    ensures |r| <= |s| && r == s[..|r|]
    ensures AllSpace(s[|r|..])
    ensures r == [] || !IsSpace(r[|r| - 1])
  {
    if s != [] && IsSpace(s[|s| - 1]) then StripRight(s[..|s| - 1]) else s
  }

  /** `s.strip()`. */
  function Strip(s: string): (r: string)
    ensures r == [] || (!IsSpace(r[0]) && !IsSpace(r[|r| - 1]))
  {
    StripRight(StripLeft(s))
  }

  /** `" ".join(ts)`. */
  function Unwords(ts: seq<string>): string {
    if ts == [] then ""
    else if |ts| == 1 then ts[0]
    else ts[0] + " " + Unwords(ts[1..])
  }

  lemma {:induction false} SplitSpacePrefix(sp: string, s: string)
    requires AllSpace(sp)
    ensures Split(sp + s) == Split(s)
    decreases |sp|
  {
    if sp == [] {
      assert sp + s == s;
    } else {
      assert (sp + s)[0] == sp[0];
      assert (sp + s)[1..] == sp[1..] + s;
      SplitSpacePrefix(sp[1..], s);
    }
  }

  lemma {:induction false} WordLenConcat(a: string, b: string)
    requires b == [] || IsSpace(b[0])
    ensures WordLen(a + b) == WordLen(a)
    decreases |a|
  {
    if a == [] {
      assert a + b == b;
    } else if !IsSpace(a[0]) {
      assert (a + b)[1..] == a[1..] + b;
      WordLenConcat(a[1..], b);
    }
  }

  lemma {:induction false} SplitSpaceSuffix(s: string, sp: string)
    requires AllSpace(sp)
    ensures Split(s + sp) == Split(s)
    decreases |s|
  {
    if s == [] {
      assert s + sp == sp + s;
      SplitSpacePrefix(sp, s);
    } else if IsSpace(s[0]) {
      assert (s + sp)[1..] == s[1..] + sp;
      SplitSpaceSuffix(s[1..], sp);
    } else {
      WordLenConcat(s, sp);
      var n := WordLen(s);
      assert (s + sp)[..n] == s[..n];
      assert (s + sp)[n..] == s[n..] + sp;
      SplitSpaceSuffix(s[n..], sp);
    }
  }

  lemma TakeDrop(s: string, k: nat)
    requires k <= |s|
    ensures s[..k] + s[k..] == s
  {
  }

  lemma SplitStripLeft(s: string)
    ensures Split(StripLeft(s)) == Split(s)
  {
    var l := StripLeft(s);
    var k := |s| - |l|;
    TakeDrop(s, k);
    SplitSpacePrefix(s[..k], s[k..]);
  }

  lemma SplitStripRight(l: string)
    ensures Split(StripRight(l)) == Split(l)
  {
    var r := StripRight(l);
    assert l == r + l[|r|..];
    SplitSpaceSuffix(r, l[|r|..]);
  }

  /** A string that starts with a non-whitespace character splits into a
      first field that starts with that character. */
  lemma SplitFirst(r: string)
    requires r != [] && !IsSpace(r[0])
    ensures Split(r) != [] && Split(r)[0][0] == r[0]
  {
  }

  /** `strip()` changes nothing `split()` sees, it leaves an empty line
      exactly when there is no field, and a stripped line starts with the
      first character of its first field. */
  lemma StripSplit(s: string)
    ensures Split(Strip(s)) == Split(s)
    ensures Strip(s) == [] <==> Split(s) == []
    ensures Strip(s) != [] ==> Strip(s)[0] == Split(s)[0][0]
  {
    SplitStripLeft(s);
    SplitStripRight(StripLeft(s));
    var r := Strip(s);
    if r != [] {
      SplitFirst(r);
    }
  }

  /** A field followed by whitespace splits off as the first token. */
  lemma SplitLabelled(field: string, pad: string, value: string)
    requires IsToken(field)
    requires pad != [] && AllSpace(pad)
    ensures Split(field + pad + value) == [field] + Split(value)
  {
    var s := field + pad + value;
    WordLenConcat(field, pad + value);
    assert WordLen(field) == |field| by {
      WordLenConcat(field, []);
      assert field + [] == field;
    }
    assert s[..|field|] == field;
    assert s[|field|..] == pad + value;
    SplitSpacePrefix(pad, value);
  }

  lemma SplitToken(t: string)
    requires IsToken(t)
    ensures Split(t) == [t]
  {
    WordLenConcat(t, []);
    assert t + [] == t;
    assert t[..|t|] == t;
    assert t[|t|..] == [];
  }

  /** Joining tokens with single spaces and splitting again gives them back. */
  lemma {:induction false} SplitUnwords(ts: seq<string>)
    requires forall i :: 0 <= i < |ts| ==> IsToken(ts[i])
    ensures Split(Unwords(ts)) == ts
    decreases |ts|
  {
    if |ts| == 1 {
      SplitToken(ts[0]);
    } else if |ts| > 1 {
      SplitLabelled(ts[0], " ", Unwords(ts[1..]));
      SplitUnwords(ts[1..]);
    }
  }
}
