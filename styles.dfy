/** Colours and text attributes. A colour is a tagged string, `rgb:R,G,B` or
    `ansi:N`; a set of attributes renders text inside an ECMA-48 Select
    Graphic Rendition sequence (section 8.3.117 of ECMA-48), using the
    semicolon form of the 38/48 extended-colour parameters. */
module Styles {
  import opened Common

  type Color = string

  // ---- Parsing a colour into SGR parameters -----------------------------------

  /** The first comma of `s` at or after `from`. */
  function CommaFrom(s: string, from: nat): (r: Option<nat>)
    ensures r.Some? ==> from <= r.value < |s| && s[r.value] == ','
    ensures r.Some? ==> forall k :: from <= k < r.value ==> s[k] != ','
    ensures r.None? ==> forall k :: from <= k < |s| ==> s[k] != ','
    decreases |s| - from
  {
    if from >= |s| then None
    else if s[from] == ',' then Some(from)
    else CommaFrom(s, from + 1)
  }

  function Lead(bg: bool, kind: string): string
  {
    (if bg then "48;" else "38;") + kind + ";"
  }

  /** The three fields of `R,G,B`: the text before the first comma, between
      the first and the second, and all the rest; none without two commas. */
  function SplitRGB(s: string): (r: Option<(string, string, string)>)
    ensures r.Some? ==> s == r.value.0 + "," + r.value.1 + "," + r.value.2
    ensures r.Some? ==> forall k :: 0 <= k < |r.value.0| ==> r.value.0[k] != ','
    ensures r.Some? ==> forall k :: 0 <= k < |r.value.1| ==> r.value.1[k] != ','
  {
    match CommaFrom(s, 0)
    case None => None
    case Some(c1) =>
      match CommaFrom(s, c1 + 1)
      case None => None
      case Some(c2) =>
        assert s == s[..c1] + "," + s[c1 + 1..c2] + "," + s[c2 + 1..];
        Some((s[..c1], s[c1 + 1..c2], s[c2 + 1..]))
  }

  /** The SGR parameters of a colour: `rgb:` with at least two commas gives
      `38;2;R;G;B` (`48;…` for a background), where R and G are the text
      before the first and second comma and B all the rest; `ansi:N` gives
      `38;5;N`; anything else, the empty colour included, gives none. */
  function SGR(c: Color, bg: bool): (r: Option<string>)
    ensures r.Some? ==> (|c| > 4 && c[..4] == "rgb:") || (|c| > 5 && c[..5] == "ansi:")
    ensures r.Some? ==> |r.value| > 3 && r.value[..3] == (if bg then "48;" else "38;")
    ensures c == "" ==> r.None?
  {
    if |c| > 4 && c[..4] == "rgb:" then
      match SplitRGB(c[4..])
      case None => None
      case Some(f) => Some(Lead(bg, "2") + f.0 + ";" + f.1 + ";" + f.2)
    else if |c| > 5 && c[..5] == "ansi:" then
      Some(Lead(bg, "5") + c[5..])
    else
      None
  }

  /** The scan toSGR makes for the first two commas; -1 stands for none. */
  method ScanCommas(s: string) returns (c1: int, c2: int)
    ensures SplitRGB(s).None? <==> c1 == -1 || c2 == -1
    ensures SplitRGB(s).Some? ==> 0 <= c1 < c2 < |s| && SplitRGB(s).value == (s[..c1], s[c1 + 1..c2], s[c2 + 1..])
  {
    c1, c2 := -1, -1;
    var i := 0;
    while i < |s|
      invariant 0 <= i <= |s|
      invariant c1 == -1 ==> c2 == -1 && CommaFrom(s, 0) == CommaFrom(s, i)
      invariant c1 != -1 ==> 0 <= c1 < i && CommaFrom(s, 0) == Some(c1 as nat)
      invariant c1 != -1 ==> c2 == -1 && CommaFrom(s, c1 + 1) == CommaFrom(s, i)
    {
      if s[i] == ',' {
        if c1 == -1 {
          c1 := i;
        } else {
          c2 := i;
          return;
        }
      }
      i := i + 1;
    }
  }

  /** `color.toSGR`. */
  method ToSGR(c: Color, bg: bool) returns (code: string, ok: bool)
    ensures ok <==> SGR(c, bg).Some?
    ensures ok ==> code == SGR(c, bg).value
    ensures !ok ==> code == ""
  {
    if c == "" {
      return "", false;
    }
    if |c| > 4 && c[..4] == "rgb:" {
      var s := c[4..];
      var c1, c2 := ScanCommas(s);
      if c1 == -1 || c2 == -1 {
        return "", false;
      }
      var r := s[..c1];
      var g := s[c1 + 1..c2];
      var b := s[c2 + 1..];
      ghost var lead := Lead(bg, "2");
      if bg {
        code := "48;2;" + r + ";" + g + ";" + b;
        assert lead == "48;2;";
      } else {
        code := "38;2;" + r + ";" + g + ";" + b;
        assert lead == "38;2;";
      }
      assert code == lead + r + ";" + g + ";" + b;
      return code, true;
    }
    if |c| > 5 && c[..5] == "ansi:" {
      var n := c[5..];
      if bg {
        return "48;5;" + n, true;
      }
      return "38;5;" + n, true;
    }
    return "", false;
  }

  // ---- Building colours ---------------------------------------------------------

  predicate InByte(x: int) { 0 <= x <= 255 }

  /** `rgb:r,g,b` for three components in [0, 255], otherwise the empty colour. */
  function ColorFromRGB(r: int, g: int, b: int): (c: Color)
    ensures c == "" <==> !(InByte(r) && InByte(g) && InByte(b))
    ensures c != "" ==> c == "rgb:" + NatToString(r) + "," + NatToString(g) + "," + NatToString(b)
  {
    if !(InByte(r) && InByte(g) && InByte(b)) then ""
    else "rgb:" + NatToString(r) + "," + NatToString(g) + "," + NatToString(b)
  }

  /** `ansi:i` for i in [0, 255], otherwise the empty colour. */
  function ColorFromANSI(i: int): (c: Color)
    ensures c == "" <==> !InByte(i)
    ensures c != "" ==> c == "ansi:" + NatToString(i)
  {
    if !InByte(i) then "" else "ansi:" + NatToString(i)
  }

  lemma NoCommaInNumeral(n: nat)
    ensures forall k :: 0 <= k < |NatToString(n)| ==> NatToString(n)[k] != ','
  {
  }

  /** The first comma after a numeral and its own comma. */
  lemma {:induction false} CommaAfterNumeral(num: string, rest: string, from: nat)
    requires from <= |num|
    requires forall k :: 0 <= k < |num| ==> num[k] != ','
    ensures CommaFrom(num + "," + rest, from) == Some(|num|)
    decreases |num| - from
  {
    var s := num + "," + rest;
    if from < |num| {
      assert s[from] == num[from];
      CommaAfterNumeral(num, rest, from + 1);
    } else {
      assert s[from] == ',';
    }
  }

  /** Searching a suffix is searching the whole from the suffix's start. */
  lemma {:induction false} CommaShift(s: string, off: nat, from: nat)
    requires off <= |s| && from <= |s| - off
    ensures CommaFrom(s, off + from) == (match CommaFrom(s[off..], from)
                                         case None => None
                                         case Some(i) => Some(off + i))
    decreases |s| - off - from
  {
    if off + from < |s| {
      assert s[off..][from] == s[off + from];
      if s[off + from] != ',' {
        CommaShift(s, off, from + 1);
      }
    }
  }

  /** Where the two commas of `x,y,z` are found, when `x` and `y` hold none. */
  lemma CommasOfFields(x: string, y: string, z: string)
    requires forall k :: 0 <= k < |x| ==> x[k] != ','
    requires forall k :: 0 <= k < |y| ==> y[k] != ','
    ensures CommaFrom(x + "," + y + "," + z, 0) == Some(|x|)
    ensures CommaFrom(x + "," + y + "," + z, |x| + 1) == Some(|x| + 1 + |y|)
  {
    var s := x + "," + y + "," + z;
    var rest := y + "," + z;
    assert s == x + "," + rest;
    CommaAfterNumeral(x, rest, 0);
    assert s[|x| + 1..] == rest;
    CommaAfterNumeral(y, z, 0);
    CommaShift(s, |x| + 1, 0);
  }

  /** Two comma-free fields and a rest split back apart. */
  lemma SplitFields(x: string, y: string, z: string)
    requires forall k :: 0 <= k < |x| ==> x[k] != ','
    requires forall k :: 0 <= k < |y| ==> y[k] != ','
    ensures SplitRGB(x + "," + y + "," + z) == Some((x, y, z))
  {
    var s := x + "," + y + "," + z;
    CommasOfFields(x, y, z);
    var c2 := |x| + 1 + |y|;
    assert s[..|x|] == x;
    assert s[|x| + 1..c2] == y;
    assert s[c2 + 1..] == z;
  }

  /** How SGR reads a colour tagged `rgb:`. */
  lemma SGROfTaggedRGB(s: string, bg: bool)
    requires s != []
    ensures SGR("rgb:" + s, bg) == match SplitRGB(s)
                                   case None => None
                                   case Some(f) => Some(Lead(bg, "2") + f.0 + ";" + f.1 + ";" + f.2)
  {
    var c := "rgb:" + s;
    assert c[..4] == "rgb:" && c[4..] == s;
  }

  /** An RGB colour turns into the 24-bit SGR parameters of its components. */
  lemma RGBRoundTrip(r: int, g: int, b: int, bg: bool)
    requires InByte(r) && InByte(g) && InByte(b)
    ensures SGR(ColorFromRGB(r, g, b), bg)
         == Some(Lead(bg, "2") + NatToString(r) + ";" + NatToString(g) + ";" + NatToString(b))
  {
    var R, G, B := NatToString(r), NatToString(g), NatToString(b);
    NoCommaInNumeral(r);
    NoCommaInNumeral(g);
    TaggedFields(R, G, B, bg);
  }

  /** `rgb:` and three comma-separated fields, the first two without commas. */
  lemma TaggedFields(x: string, y: string, z: string, bg: bool)
    requires forall k :: 0 <= k < |x| ==> x[k] != ','
    requires forall k :: 0 <= k < |y| ==> y[k] != ','
    ensures SGR("rgb:" + x + "," + y + "," + z, bg) == Some(Lead(bg, "2") + x + ";" + y + ";" + z)
  {
    var s := x + "," + y + "," + z;
    assert "rgb:" + x + "," + y + "," + z == "rgb:" + s;
    SplitFields(x, y, z);
    SGROfTaggedRGB(s, bg);
  }

  /** An ANSI colour turns into the 256-colour SGR parameters of its index. */
  lemma ANSIRoundTrip(i: int, bg: bool)
    requires InByte(i)
    ensures SGR(ColorFromANSI(i), bg) == Some(Lead(bg, "5") + NatToString(i))
  {
    var c := ColorFromANSI(i);
    assert c[..5] == "ansi:";
    assert c[5..] == NatToString(i);
    assert !(c[..4] == "rgb:") by { assert c[0] == 'a'; }
  }

  // ---- Hexadecimal colours -------------------------------------------------------

  /** Unicode White_Space, the set strings.TrimSpace removes. */
  predicate IsSpace(c: char)
  {
    || c == '\t' || c == '\n' || c == '\U{0B}' || c == '\U{0C}' || c == '\r' || c == ' '
    || c == '\U{85}' || c == '\U{A0}' || c == '\U{1680}'
    || ('\U{2000}' <= c <= '\U{200A}')
    || c == '\U{2028}' || c == '\U{2029}' || c == '\U{202F}' || c == '\U{205F}' || c == '\U{3000}'
  }

  function DropLeadingSpace(s: string): (r: string)
    ensures |r| <= |s|
    ensures forall k :: 0 <= k < |s| - |r| ==> IsSpace(s[k])
    ensures r == [] || !IsSpace(r[0])
  {
    if s != [] && IsSpace(s[0]) then DropLeadingSpace(s[1..]) else s
  }

  /** What DropLeadingSpace keeps is a suffix of its input. */
  lemma {:induction false} DropLeadingSpaceSuffix(s: string)
    ensures DropLeadingSpace(s) == s[|s| - |DropLeadingSpace(s)|..]
  {
    if s != [] && IsSpace(s[0]) {
      DropLeadingSpaceSuffix(s[1..]);
    }
  }

  function DropTrailingSpace(s: string): (r: string)
    ensures r <= s
    ensures forall k :: |r| <= k < |s| ==> IsSpace(s[k])
    ensures r == [] || !IsSpace(r[|r| - 1])
  {
    if s != [] && IsSpace(s[|s| - 1]) then DropTrailingSpace(s[..|s| - 1]) else s
  }

  function TrimSpace(s: string): string
  {
    DropTrailingSpace(DropLeadingSpace(s))
  }

  /** The digits ColorFromHex reads: surrounding white space trimmed, then one `#` dropped. */
  function HexBody(hx: string): string
  {
    var t := TrimSpace(hx);
    if |t| > 0 && t[0] == '#' then t[1..] else t
  }

  predicate IsHexDigit(c: char)
  {
    '0' <= c <= '9' || 'a' <= c <= 'f' || 'A' <= c <= 'F'
  }

  function HexValue(c: char): (v: nat)
    requires IsHexDigit(c)
    ensures v < 16
  {
    if '0' <= c <= '9' then c as int - '0' as int
    else if 'a' <= c <= 'f' then c as int - 'a' as int + 10
    else c as int - 'A' as int + 10
  }

  /** Two hexadecimal digits as one byte (strconv.ParseUint with base 16 and 8 bits). */
  function HexByte(hi: char, lo: char): (v: nat)
    requires IsHexDigit(hi) && IsHexDigit(lo)
    ensures v <= 255
  {
    16 * HexValue(hi) + HexValue(lo)
  }

  predicate IsHex6(t: string)
  {
    |t| == 6 && forall k :: 0 <= k < 6 ==> IsHexDigit(t[k])
  }

  /** The loop of ColorFromHex from digit pair `i` on, having written `acc`:
      each pair is parsed as a byte and written in decimal, after a comma
      for every pair but the first; any non-digit makes the empty colour. */
  function HexFrom(t: string, i: nat, acc: string): string
    requires |t| == 6 && (i == 0 || i == 2 || i == 4 || i == 6)
    decreases 6 - i
  {
    if i == 6 then acc
    else if !IsHexDigit(t[i]) || !IsHexDigit(t[i + 1]) then ""
    else HexFrom(t, i + 2, (if i > 0 then acc + "," else acc) + NatToString(HexByte(t[i], t[i + 1])))
  }

  /** On six digits the loop writes the RGB colour of the three pairs... */
  lemma HexFromDigits(t: string)
    requires IsHex6(t)
    ensures HexFrom(t, 0, "rgb:") == ColorFromRGB(HexByte(t[0], t[1]), HexByte(t[2], t[3]), HexByte(t[4], t[5]))
  {
    var x, y, z := HexByte(t[0], t[1]), HexByte(t[2], t[3]), HexByte(t[4], t[5]);
    var a1 := "rgb:" + NatToString(x);
    var a2 := a1 + "," + NatToString(y);
    var a3 := a2 + "," + NatToString(z);
    assert HexFrom(t, 0, "rgb:") == HexFrom(t, 2, a1);
    assert HexFrom(t, 2, a1) == HexFrom(t, 4, a2);
    assert HexFrom(t, 4, a2) == HexFrom(t, 6, a3);
  }

  /** ...and makes the empty colour when a non-digit lies ahead. */
  lemma {:induction false} HexFromNonDigit(t: string, i: nat, acc: string, k: nat)
    requires |t| == 6 && (i == 0 || i == 2 || i == 4 || i == 6)
    requires i <= k < 6 && !IsHexDigit(t[k])
    ensures HexFrom(t, i, acc) == ""
    decreases 6 - i
  {
    if IsHexDigit(t[i]) && IsHexDigit(t[i + 1]) {
      HexFromNonDigit(t, i + 2, (if i > 0 then acc + "," else acc) + NatToString(HexByte(t[i], t[i + 1])), k);
    }
  }

  /** `ColorFromHex`: six hexadecimal digits make the RGB colour of their three
      pairs; any other text makes the empty colour. */
  method ColorFromHex(hx: string) returns (c: Color)
    ensures IsHex6(HexBody(hx)) ==>
      var t := HexBody(hx);
      c == ColorFromRGB(HexByte(t[0], t[1]), HexByte(t[2], t[3]), HexByte(t[4], t[5]))
    ensures !IsHex6(HexBody(hx)) ==> c == ""
  {
    var t := HexBody(hx);
    if |t| != 6 {
      return "";
    }
    var result := "rgb:";
    var i := 0;
    while i < 6
      invariant i == 0 || i == 2 || i == 4 || i == 6
      invariant HexFrom(t, i, result) == HexFrom(t, 0, "rgb:")
    {
      var v, ok := ParseHexByte(t[i], t[i + 1]);
      if !ok {
        HexFromNonDigit(t, i, result, if IsHexDigit(t[i]) then i + 1 else i);
        return "";
      }
      if i > 0 {
        result := result + ",";
      }
      result := result + NatToString(v);
      i := i + 2;
    }
    if IsHex6(t) {
      HexFromDigits(t);
    } else {
      var k :| 0 <= k < 6 && !IsHexDigit(t[k]);
      HexFromNonDigit(t, 0, "rgb:", k);
    }
    c := result;
  }

  /** strconv.ParseUint(s, 16, 8) on a two-character string: both characters
      must be hexadecimal digits, and then the value always fits in 8 bits. */
  method ParseHexByte(hi: char, lo: char) returns (v: nat, ok: bool)
    ensures ok <==> IsHexDigit(hi) && IsHexDigit(lo)
    ensures ok ==> v == HexByte(hi, lo)
    ensures !ok ==> v == 0
  {
    if !IsHexDigit(hi) || !IsHexDigit(lo) {
      return 0, false;
    }
    return HexByte(hi, lo), true;
  }

  // ---- Attributes -------------------------------------------------------------------

  /** Joins SGR parameters with `;`. */
  function Join(xs: seq<string>): string
  {
    if |xs| == 0 then ""
    else if |xs| == 1 then xs[0]
    else Join(xs[..|xs| - 1]) + ";" + xs[|xs| - 1]
  }

  lemma JoinNext(xs: seq<string>, x: string)
    ensures Join(xs + [x]) == if xs == [] then x else Join(xs) + ";" + x
  {
    assert (xs + [x])[..|xs|] == xs;
  }

  /** The candidates that are present, in order: exactly the non-empty ones. */
  function Present(xs: seq<string>): (r: seq<string>)
    ensures |r| <= |xs|
    ensures forall k :: 0 <= k < |r| ==> r[k] != ""
    ensures forall x :: x in r <==> x in xs && x != ""
  {
    if xs == [] then []
    else
      assert xs == xs[..|xs| - 1] + [xs[|xs| - 1]];
      Present(xs[..|xs| - 1]) + (if xs[|xs| - 1] == "" then [] else [xs[|xs| - 1]])
  }

  /** Present keeps the order: it distributes over concatenation. */
  lemma {:induction false} PresentConcat(xs: seq<string>, ys: seq<string>)
    ensures Present(xs + ys) == Present(xs) + Present(ys)
  {
    if ys == [] {
      assert xs + ys == xs;
    } else {
      var init := ys[..|ys| - 1];
      assert (xs + ys)[..|xs + ys| - 1] == xs + init;
      PresentConcat(xs, init);
    }
  }

  function Code(on: bool, code: string): string
  {
    if on then code else ""
  }

  function OrEmpty(o: Option<string>): string
  {
    if o.Some? then o.value else ""
  }

  /** The text wrapped in an SGR sequence with parameters `codes`, and its reset. */
  function Wrapped(codes: seq<string>, text: string): string
  {
    "\U{1B}[" + Join(codes) + "m" + text + "\U{1B}[0m"
  }

  /** Sprint's `write` helper applied to each candidate in turn: an empty
      one is skipped, the others are written after `ESC[`, separated by `;`;
      `first` remains set while nothing has been written. */
  method WriteCodes(cands: seq<string>) returns (b: string, first: bool)
    ensures first <==> Present(cands) == []
    ensures b == "\U{1B}[" + Join(Present(cands))
  {
    b := "\U{1B}[";
    first := true;
    for k := 0 to |cands|
      invariant first <==> Present(cands[..k]) == []
      invariant b == "\U{1B}[" + Join(Present(cands[..k]))
    {
      assert cands[..k + 1][..k] == cands[..k];
      var code := cands[k];
      var p := Present(cands[..k]);
      assert Present(cands[..k + 1]) == if code == "" then p else p + [code] by {
        assert p + [] == p;
      }
      JoinNext(p, code);
      if code != "" {
        if !first {
          b := b + ";";
        }
        first := false;
        b := b + code;
        assert b == "\U{1B}[" + Join(p + [code]) by {
          if p != [] {
            assert "\U{1B}[" + Join(p) + ";" + code == "\U{1B}[" + (Join(p) + ";" + code);
          }
        }
      }
    }
    assert cands[..|cands|] == cands;
  }

  /** A set of text attributes (Go `attribs`), changed in place by its setters. */
  class Attribs {
    var fg: Color
    var bg: Color
    var dim: bool
    var bold: bool
    var italic: bool
    var underline: bool
    var strikethrough: bool

    /** NewAttrib. */
    constructor ()
      ensures fg == "" && bg == "" && !dim && !bold && !italic && !underline && !strikethrough
    {
      fg := "";
      bg := "";
      dim := false;
      bold := false;
      italic := false;
      underline := false;
      strikethrough := false;
    }

    method FG(c: Color) modifies this`fg ensures fg == c { fg := c; }
    method BG(c: Color) modifies this`bg ensures bg == c { bg := c; }
    method Dim() modifies this`dim ensures dim { dim := true; }
    method Bold() modifies this`bold ensures bold { bold := true; }
    method Italic() modifies this`italic ensures italic { italic := true; }
    method Underline() modifies this`underline ensures underline { underline := true; }
    method Strikethrough() modifies this`strikethrough ensures strikethrough { strikethrough := true; }

    predicate IsEmpty()
      reads this
    {
      !bold && !dim && !italic && !underline && !strikethrough && fg == "" && bg == ""
    }

    /** The parameters Sprint may write, in order: bold 1, dim 2, italic 3,
        underline 4, strikethrough 9, then the foreground, then the
        background; an absent one is empty. */
    function Candidates(): (cs: seq<string>)
      reads this
      ensures |cs| == 7
      ensures (cs[0] != "" <==> bold) && (cs[1] != "" <==> dim) && (cs[2] != "" <==> italic)
      ensures (cs[3] != "" <==> underline) && (cs[4] != "" <==> strikethrough)
      ensures cs[5] == (if SGR(fg, false).Some? then SGR(fg, false).value else "")
      ensures cs[6] == (if SGR(bg, true).Some? then SGR(bg, true).value else "")
    {
      [Code(bold, "1"), Code(dim, "2"), Code(italic, "3"), Code(underline, "4"),
       Code(strikethrough, "9"), OrEmpty(SGR(fg, false)), OrEmpty(SGR(bg, true))]
    }

    /** The parameters actually written. */
    function Codes(): seq<string>
      reads this
    {
      Present(Candidates())
    }

    /** `Sprint`: the text as is when it is empty, colour is off, the output
        is not a terminal, or no parameter is present; otherwise the text
        between the SGR sequence of the present parameters and a reset. */
    method Sprint(text: string, noColor: bool, noTTY: bool) returns (out: string)
      ensures text == "" || noColor || noTTY || Codes() == [] ==> out == text
      ensures !(text == "" || noColor || noTTY || Codes() == []) ==> out == Wrapped(Codes(), text)
    {
      if text == "" || noColor || noTTY || IsEmpty() {
        EmptyHasNoCodes();
        return text;
      }
      var fgCode, _ := ToSGR(fg, false);
      var bgCode, _ := ToSGR(bg, true);
      var cands := [Code(bold, "1"), Code(dim, "2"), Code(italic, "3"), Code(underline, "4"),
                    Code(strikethrough, "9"), fgCode, bgCode];
      assert cands == Candidates();
      var b, first := WriteCodes(cands);
      if first {
        return text;
      }
      b := b + "m";
      b := b + text;
      b := b + "\U{1B}[0m";
      return b;
    }

    /** No parameter is written exactly when no flag is set and neither
        colour has SGR parameters; so a colour that does not parse is
        written as nothing. */
    lemma NoCodesIff()
      ensures Codes() == [] <==>
        !bold && !dim && !italic && !underline && !strikethrough
        && SGR(fg, false).None? && SGR(bg, true).None?
    {
      var cs := Candidates();
      assert forall k :: 0 <= k < |cs| ==> cs[k] in cs;
      if Codes() != [] {
        var x := Codes()[0];
        assert x in cs && x != "";
      }
    }

    /** Attributes with nothing set have no parameters: the isEmpty shortcut
        agrees with the `first` flag. */
    lemma EmptyHasNoCodes()
      ensures IsEmpty() ==> Codes() == []
    {
      if IsEmpty() {
        assert SGR("", false) == None && SGR("", true) == None;
        assert Candidates() == ["", "", "", "", "", "", ""];
        PresentNone(Candidates());
      }
    }
  }

  lemma {:induction false} PresentNone(xs: seq<string>)
    requires forall k :: 0 <= k < |xs| ==> xs[k] == ""
    ensures Present(xs) == []
  {
    if xs != [] {
      PresentNone(xs[..|xs| - 1]);
    }
  }
}
