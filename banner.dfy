/** Banners: a label line and a sub-label line, each padded with a pad
    string to the terminal width and aligned left, centre or right.
    Display width is taken to be the number of characters. */
module Banners {
  import opened Common

  const AlignLeft: int := 0
  const AlignCenter: int := 1
  const AlignRight: int := 2

  /** The banner configuration; every `With` member returns a changed copy. */
  datatype Banner = Banner(
    caption: string, labelOffset: int, labelPadChar: string,
    subLabel: string, subLabelOffset: int, subLabelPadChar: string,
    width: int, alignment: int)
  {
    function WithLabel(s: string): (r: Banner)
      ensures r.caption == s && r == this.(caption := s)
    {
      this.(caption := s)
    }

    /** A negative offset is stored as 0. */
    function WithLabelOffset(offset: int): (r: Banner)
      ensures r.labelOffset == Max(0, offset) && r.labelOffset >= 0
      ensures offset >= 0 ==> r.labelOffset == offset
      ensures r == this.(labelOffset := r.labelOffset)
    {
      this.(labelOffset := Max(0, offset))
    }

    /** A pad string without display width is replaced by a space. */
    function WithLabelPadChar(padChar: string): (r: Banner)
      ensures |r.labelPadChar| >= 1
      ensures padChar != "" ==> r.labelPadChar == padChar
      ensures padChar == "" ==> r.labelPadChar == " "
      ensures r == this.(labelPadChar := r.labelPadChar)
    {
      this.(labelPadChar := PadOrSpace(padChar))
    }

    function WithSubLabel(s: string): (r: Banner)
      ensures r.subLabel == s && r == this.(subLabel := s)
    {
      this.(subLabel := s)
    }

    function WithSubLabelOffset(offset: int): (r: Banner)
      ensures r.subLabelOffset == Max(0, offset) && r.subLabelOffset >= 0
      ensures offset >= 0 ==> r.subLabelOffset == offset
      ensures r == this.(subLabelOffset := r.subLabelOffset)
    {
      this.(subLabelOffset := Max(0, offset))
    }

    function WithSubLabelPadChar(padChar: string): (r: Banner)
      ensures |r.subLabelPadChar| >= 1
      ensures padChar != "" ==> r.subLabelPadChar == padChar
      ensures padChar == "" ==> r.subLabelPadChar == " "
      ensures r == this.(subLabelPadChar := r.subLabelPadChar)
    {
      this.(subLabelPadChar := PadOrSpace(padChar))
    }

    /** The stored width is the smaller of 0 and the argument, so it is never
        positive; nothing reads it. */
    function WithWidth(w: int): (r: Banner)
      ensures r.width <= 0
      ensures w <= 0 ==> r.width == w
      ensures w > 0 ==> r.width == 0
      ensures r == this.(width := r.width)
    {
      this.(width := Min(0, w))
    }

    function WithAlignment(a: int): (r: Banner)
      ensures r.alignment == a && r == this.(alignment := a)
    {
      this.(alignment := a)
    }
  }

  /** NewBanner: empty labels, zero offsets, space padding, left alignment. */
  const NewBanner: Banner := Banner("", 0, " ", "", 0, " ", 0, AlignLeft)

  /** A new banner pads with spaces, has no offsets and is left-aligned, so
      its label's left pad is empty. */
  lemma NewBannerDefaults(content: string, termWidth: int)
    ensures NewBanner.caption == "" && NewBanner.subLabel == ""
    ensures NewBanner.labelPadChar == " " && NewBanner.subLabelPadChar == " "
    ensures NewBanner.labelOffset == 0 && NewBanner.subLabelOffset == 0
    ensures Place(content, NewBanner.alignment, NewBanner.labelOffset, termWidth).left == 0
  {
  }

  function PadOrSpace(padChar: string): (p: string)
    ensures p != []
    ensures padChar != "" ==> p == padChar
  {
    if |padChar| < 1 then " " else padChar
  }

  // ---- repeatPadChar ------------------------------------------------------------

  /** The first `w` characters of `p` repeated without end. */
  function Cycle(p: string, w: nat): (r: string)
    requires p != []
    ensures |r| == w
    decreases w
  {
    if w <= |p| then p[..w] else p + Cycle(p, w - |p|)
  }

  /** A cycle is periodic: shifting it by one copy of `p` gives its own prefix. */
  lemma {:induction false} CyclePeriodic(p: string, w: nat)
    requires p != []
    ensures Cycle(p, w) <= p + Cycle(p, w)
    decreases w
  {
    var r := Cycle(p, w);
    if w <= |p| {
      assert r == p[..w];
      assert (p + r)[..w] == p[..w];
    } else {
      var r' := Cycle(p, w - |p|);
      CyclePeriodic(p, w - |p|);
      assert r == p + r';
      assert r' == (p + r')[..|r'|];
      assert (p + r)[..|r|] == p + (p + r')[..|r'|];
    }
  }

  /** The pad run of width `w`: nothing for a non-positive width, otherwise
      exactly `w` characters of the pad string (a space if it is empty)
      repeated and cut. */
  function PadRun(padChar: string, w: int): (r: string)
    ensures w <= 0 ==> r == ""
    ensures w > 0 ==> |r| == w && r == Cycle(PadOrSpace(padChar), w)
  {
    if w <= 0 then "" else Cycle(PadOrSpace(padChar), w)
  }

  /** runewidth.Truncate with one column per character: a string that fits
      is kept; otherwise as much of its start as leaves room for the tail,
      then the tail. */
  function Truncate(s: string, w: int, tail: string): (r: string)
    ensures |s| <= w ==> r == s
    ensures |s| > w ==> r == s[..Max(0, w - |tail|)] + tail && |r| == Max(w, |tail|)
  {
    if |s| <= w then s else s[..Max(0, w - |tail|)] + tail
  }

  /** One more copy of `p` keeps `b` a consumed prefix of the cycle. */
  lemma CycleStep(p: string, w: nat, b: string)
    requires p != [] && |b| < w && Cycle(p, w) == b + Cycle(p, w - |b|)
    ensures |b + p| < w ==> Cycle(p, w) == (b + p) + Cycle(p, w - |b + p|)
    ensures w <= |b + p| ==> Cycle(p, w) == (b + p)[..w]
  {
    var rest := w - |b|;
    if rest <= |p| {
      assert (b + p)[..w] == b + p[..rest];
    } else {
      assert Cycle(p, rest) == p + Cycle(p, rest - |p|);
    }
  }

  /** `repeatPadChar`: append the pad string until the width is reached, then
      cut the overshoot. */
  method RepeatPadChar(padChar: string, padWidth: int) returns (result: string)
    ensures result == PadRun(padChar, padWidth)
  {
    var p := if |padChar| < 1 then " " else padChar;
    var b := "";
    var curWidth := 0;
    while curWidth < padWidth
      invariant curWidth == |b|
      invariant padWidth > 0 ==> curWidth < padWidth + |p|
      invariant 0 < padWidth && |b| < padWidth ==> Cycle(p, padWidth) == b + Cycle(p, padWidth - |b|)
      invariant 0 < padWidth <= |b| ==> Cycle(p, padWidth) == b[..padWidth]
      decreases padWidth - curWidth
    {
      CycleStep(p, padWidth, b);
      b := b + p;
      curWidth := curWidth + |p|;
    }
    result := b;
    if curWidth > padWidth {
      result := Truncate(result, padWidth, "");
    }
    if padWidth > 0 && curWidth == padWidth {
      assert b[..padWidth] == b;
    }
  }

  // ---- padLine ------------------------------------------------------------------

  /** The terminal width padLine works to: the queried width, or 80 when the
      query fails or reports a non-positive width. */
  function TermWidth(query: Option<int>): (w: int)
    ensures w >= 1
    ensures query.Some? && query.value > 0 ==> w == query.value
    ensures query.None? || query.value <= 0 ==> w == 80
  {
    if query.None? || query.value <= 0 then 80 else query.value
  }

  /** Where padLine puts things: the spaced content and the pad widths on
      either side (a negative width writes nothing). */
  datatype Placement = Placement(spaced: string, left: int, right: int)

  function Place(content: string, alignment: int, offset: int, termWidth: int): (l: Placement)
    ensures |content| + 2 + 2 * offset <= termWidth ==> l.spaced == " " + content + " "
    ensures |content| + 2 + 2 * offset > termWidth ==>
      l.spaced == " " + Truncate(content, Max(0, termWidth - 2 * offset - 2), "...") + " "
    ensures l.left + l.right == Max(0, termWidth - |l.spaced|)
    ensures alignment == AlignCenter ==> 0 <= l.left && 0 <= l.right - l.left <= 1
    ensures alignment == AlignRight ==> l.right == offset
    ensures alignment != AlignCenter && alignment != AlignRight ==> l.left == offset
  {
    var spaced :=
      if |content| + 2 + 2 * offset > termWidth
      then " " + Truncate(content, Max(0, termWidth - 2 * offset - 2), "...") + " "
      else " " + content + " ";
    var space := Max(0, termWidth - |spaced|);
    if alignment == AlignCenter then Placement(spaced, space / 2, space - space / 2)
    else if alignment == AlignRight then Placement(spaced, space - offset, offset)
    else Placement(spaced, offset, space - offset)
  }

  /** Content is cut only when it would not fit beside both offsets, and then
      the cut content with its `...` tail fills exactly the room left. */
  lemma TruncatedFits(content: string, alignment: int, offset: int, termWidth: int)
    requires 0 <= offset && 2 * offset + 5 <= termWidth
    requires |content| + 2 + 2 * offset > termWidth
    ensures |Place(content, alignment, offset, termWidth).spaced| == termWidth - 2 * offset
  {
  }

  /** With room for both offsets and a three-character tail, left and right
      alignment leave no negative pad, and the padded line spans the terminal
      exactly; centring always does. */
  lemma {:induction false} LineSpansTerminal(content: string, alignment: int, offset: int, termWidth: int)
    requires 0 <= offset && 2 * offset + 5 <= termWidth
    ensures var l := Place(content, alignment, offset, termWidth);
      && 0 <= l.left && 0 <= l.right
      && l.left + |l.spaced| + l.right == termWidth
  {
    if |content| + 2 + 2 * offset > termWidth {
      TruncatedFits(content, alignment, offset, termWidth);
    }
  }

  /** The line padLine returns, with the pad and content styles as functions. */
  function PaddedLine(padStyle: string -> string, contentStyle: string -> string, l: Placement,
                      padChar: string): string
  {
    padStyle(PadRun(padChar, l.left)) + contentStyle(l.spaced) + padStyle(PadRun(padChar, l.right))
  }

  /** Unstyled, the padded line is as wide as its pads and content together. */
  lemma PaddedLineWidth(l: Placement, padChar: string)
    ensures |PaddedLine(s => s, s => s, l, padChar)| == Max(0, l.left) + |l.spaced| + Max(0, l.right)
  {
  }

  /** `padLine`, with the terminal width query as a parameter. */
  method PadLine(padStyle: string -> string, contentStyle: string -> string, content: string,
                 alignment: int, padChar: string, offset: int, query: Option<int>) returns (line: string)
    ensures line == PaddedLine(padStyle, contentStyle, Place(content, alignment, offset, TermWidth(query)), padChar)
  {
    var termWidth := if query.None? || query.value <= 0 then 80 else query.value;
    var spacedContent, leftWidth, rightWidth := Arrange(content, alignment, offset, termWidth);
    var leftPad := RepeatPadChar(padChar, leftWidth);
    var rightPad := RepeatPadChar(padChar, rightWidth);
    line := padStyle(leftPad) + contentStyle(spacedContent) + padStyle(rightPad);
  }

  /** The width arithmetic of padLine: truncate the content if it does not fit
      beside both offsets, then split the remaining space by the alignment. */
  method Arrange(content: string, alignment: int, offset: int, termWidth: int)
    returns (spacedContent: string, leftWidth: int, rightWidth: int)
    ensures Placement(spacedContent, leftWidth, rightWidth) == Place(content, alignment, offset, termWidth)
  {
    spacedContent := " " + content + " ";
    if |spacedContent| + offset * 2 > termWidth {
      var avail := termWidth - offset * 2 - 2;
      avail := Max(0, avail);
      var trunc := Truncate(content, avail, "...");
      spacedContent := " " + trunc + " ";
    }
    var space := Max(0, termWidth - |spacedContent|);
    if alignment == AlignCenter {
      leftWidth := space / 2;
      rightWidth := space - leftWidth;
    } else if alignment == AlignRight {
      rightWidth := offset;
      leftWidth := space - rightWidth;
    } else {
      leftWidth := offset;
      rightWidth := space - leftWidth;
    }
  }

  // ---- Render -------------------------------------------------------------------

  /** The banner styles: pad and text, for the label and the sub-label. */
  datatype BannerStyle = BannerStyle(
    labelPad: string -> string, labelText: string -> string,
    subLabelPad: string -> string, subLabelText: string -> string)

  /** `Render`: the lines written, each ending in a newline: the label line,
      then the sub-label line, each only when its text is non-empty. */
  method Render(bn: Banner, style: BannerStyle, query: Option<int>) returns (out: seq<string>)
    ensures bn.caption == "" && bn.subLabel == "" ==> out == []
    ensures |out| == (if bn.caption != "" then 1 else 0) + (if bn.subLabel != "" then 1 else 0)
    ensures bn.caption != "" ==>
      out[0] == PaddedLine(style.labelPad, style.labelText,
                           Place(bn.caption, bn.alignment, bn.labelOffset, TermWidth(query)), bn.labelPadChar) + "\n"
    ensures bn.subLabel != "" ==>
      out[|out| - 1] == PaddedLine(style.subLabelPad, style.subLabelText,
                                   Place(bn.subLabel, bn.alignment, bn.subLabelOffset, TermWidth(query)),
                                   bn.subLabelPadChar) + "\n"
  {
    out := [];
    if bn.caption == "" && bn.subLabel == "" {
      return;
    }
    if bn.caption != "" {
      var line := PadLine(style.labelPad, style.labelText, bn.caption, bn.alignment, bn.labelPadChar,
                          bn.labelOffset, query);
      out := out + [line + "\n"];
    }
    if bn.subLabel != "" {
      var line := PadLine(style.subLabelPad, style.subLabelText, bn.subLabel, bn.alignment,
                          bn.subLabelPadChar, bn.subLabelOffset, query);
      out := out + [line + "\n"];
    }
  }
}
