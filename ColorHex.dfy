/**
 * `UIColor(hex:)`: a colour from a text such as "FF8800" or " ff8800 ". The
 * text is trimmed and upper-cased, scanned as a hexadecimal number, and the low
 * three bytes of that number become red, green and blue; alpha is always 1. The
 * scanner does not skip a leading '#', so "#FF8800" fails the scan and gives black.
 */
module ColorHex {
  import opened Wrappers
  import opened Foreign

  // ---- Preparing the text ----

  /** The characters `.whitespacesAndNewlines` covers, as far as the model distinguishes them. */
  predicate IsWhitespace(c: char) {
    c == ' ' || c == '\t' || c == '\n' || c == '\r' || c == '\U{000B}' || c == '\U{000C}'
      || c == '\U{0085}' || c == '\U{00A0}'
  }

  function TrimLeading(s: string): (r: string)
    ensures |r| <= |s| && r == s[|s| - |r|..]
    ensures r == [] || !IsWhitespace(r[0])
    ensures forall i :: 0 <= i < |s| - |r| ==> IsWhitespace(s[i])
  {
    if s != [] && IsWhitespace(s[0]) then TrimLeading(s[1..]) else s
  }

  function TrimTrailing(s: string): (r: string)
    ensures |r| <= |s| && r == s[..|r|]
    ensures r == [] || !IsWhitespace(r[|r| - 1])
    ensures forall i :: |r| <= i < |s| ==> IsWhitespace(s[i])
  {
    if s != [] && IsWhitespace(s[|s| - 1]) then TrimTrailing(s[..|s| - 1]) else s
  }

  /**
   * `trimmingCharacters(in: .whitespacesAndNewlines)`: the text without its
   * leading and trailing white space; what is kept is one contiguous stretch
   * of the input, and only white space is dropped.
   */
  function Trim(s: string): (r: string)
    ensures exists i, j :: (0 <= i <= j <= |s| && r == s[i..j]
      && (forall k :: 0 <= k < i ==> IsWhitespace(s[k]))
      && (forall k :: j <= k < |s| ==> IsWhitespace(s[k])))
    ensures r == [] || (!IsWhitespace(r[0]) && !IsWhitespace(r[|r| - 1]))
  {
    var front := TrimLeading(s);
    var r := TrimTrailing(front);
    var i := |s| - |front|;
    assert r == s[i..i + |r|];
    r
  }

  /** Trimming a trimmed text changes nothing. */
  lemma TrimIdempotent(s: string)
    ensures Trim(Trim(s)) == Trim(s)
  {
    var t := Trim(s);
    if t != [] {
      assert TrimLeading(t) == t;
      assert TrimTrailing(t) == t;
    }
  }

  function UpperChar(c: char): (u: char)
    ensures 'a' <= c <= 'z' ==> u as int == c as int - 32
    ensures !('a' <= c <= 'z') ==> u == c
    ensures !('a' <= u <= 'z')
  {
    if 'a' <= c <= 'z' then (c as int - 32) as char else c
  }

  /** `uppercased()`, for the Latin letters a hexadecimal text uses. */
  function Upper(s: string): (r: string)
    ensures |r| == |s|
    ensures forall i :: 0 <= i < |s| ==> r[i] == UpperChar(s[i])
  {
    if s == [] then [] else Upper(s[..|s| - 1]) + [UpperChar(s[|s| - 1])]
  }

  /** Upper-casing twice is upper-casing once. */
  lemma UpperIdempotent(s: string)
    ensures Upper(Upper(s)) == Upper(s)
  {
    var u := Upper(s);
    assert forall i :: 0 <= i < |u| ==> UpperChar(u[i]) == u[i];
  }

  /** The text the scanner sees. */
  function Prepare(hex: string): string {
    Upper(Trim(hex))
  }

  // ---- The channels ----

  /** Red: bits 16 to 23 of the scanned value. */
  function Red(v: bv64): (c: bv64)
    ensures c <= 0xFF
  {
    (v & 0xFF0000) >> 16
  }

  /** Green: bits 8 to 15 of the scanned value. */
  function Green(v: bv64): (c: bv64)
    ensures c <= 0xFF
  {
    (v & 0x00FF00) >> 8
  }

  /** Blue: bits 0 to 7 of the scanned value. */
  function Blue(v: bv64): (c: bv64)
    ensures c <= 0xFF
  {
    v & 0x0000FF
  }

  /** The channels are the base-256 digits of the value. */
  lemma ChannelsAreBytes(v: bv64)
    ensures Red(v) == (v / 0x10000) % 0x100
    ensures Green(v) == (v / 0x100) % 0x100
    ensures Blue(v) == v % 0x100
  {
  }

  /** A value of at most 24 bits is its three channels packed back together. */
  lemma ChannelsRoundTrip(v: bv64)
    requires v < 0x1000000
    ensures (Red(v) << 16) | (Green(v) << 8) | Blue(v) == v
  {
  }

  /** Bits above the lowest 24 never reach the colour. */
  lemma HighBitsIgnored(v: bv64)
    ensures Red(v) == Red(v & 0xFFFFFF) && Green(v) == Green(v & 0xFFFFFF) && Blue(v) == Blue(v & 0xFFFFFF)
  {
  }

  // ---- The colour ----

  datatype Color = Color(red: real, green: real, blue: real, alpha: real)

  function Component(c: bv64): (x: real)
    requires c <= 0xFF
    ensures 0.0 <= x <= 1.0
    ensures x * 255.0 == c as int as real
  {
    (c as int) as real / 255.0
  }

  /**
   * `UIColor(hex:)`: the scanned value, or 0 when the scan fails, split into
   * its three channels, each divided by 255; alpha is 1.
   */
  function ColorFromHex(hex: string, scan: HexScanner): (color: Color)
    ensures color.alpha == 1.0
    ensures 0.0 <= color.red <= 1.0 && 0.0 <= color.green <= 1.0 && 0.0 <= color.blue <= 1.0
    ensures scan(Prepare(hex)).None? ==> color == Color(0.0, 0.0, 0.0, 1.0)
    ensures var v := scan(Prepare(hex)).GetOr(0);
      color.red * 255.0 == Red(v) as int as real
      && color.green * 255.0 == Green(v) as int as real
      && color.blue * 255.0 == Blue(v) as int as real
  {
    var rgbColorValue := scan(Prepare(hex)).GetOr(0);
    Color(Component(Red(rgbColorValue)), Component(Green(rgbColorValue)), Component(Blue(rgbColorValue)), 1.0)
  }

  /** Surrounding white space and letter case make no difference to the colour. */
  lemma ColorIgnoresCaseAndSpace(hex: string, scan: HexScanner)
    ensures ColorFromHex(Upper(Trim(hex)), scan) == ColorFromHex(hex, scan)
  {
    var p := Upper(Trim(hex));
    assert Trim(p) == p by {
      var t := Trim(hex);
      if t != [] {
        assert !IsWhitespace(p[0]) && !IsWhitespace(p[|p| - 1]);
        assert TrimLeading(p) == p;
        assert TrimTrailing(p) == p;
      }
    }
    UpperIdempotent(Trim(hex));
  }
}
