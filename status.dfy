/** Status lines: a prefix chosen by level, then a label, on one line. */
module Status {
  import opened Common

  const LevelDebug: int := 0
  const LevelSuccess: int := 1
  const LevelInfo: int := 2
  const LevelWarn: int := 3
  const LevelError: int := 4

  /** The style roles a status line is decorated with; any level value
      outside the four named ones is styled as debug. */
  datatype Kind = Debug | Success | Info | Warn | Error
  datatype Part = PrefixPart(kind: Kind) | LabelPart(kind: Kind)

  function KindOf(level: int): (k: Kind)
    ensures k == Debug <==> level !in {LevelSuccess, LevelInfo, LevelWarn, LevelError}
  {
    if level == LevelSuccess then Success
    else if level == LevelInfo then Info
    else if level == LevelWarn then Warn
    else if level == LevelError then Error
    else Debug
  }

  /** The prefix shown when none is configured. */
  function DefaultPrefix(k: Kind): (p: string)
    ensures |p| == 4 && p[0] == '[' && p[2..] == "] "
  {
    match k
    case Success => "[✓] "
    case Info => "[i] "
    case Warn => "[!] "
    case Error => "[x] "
    case Debug => "[-] "
  }

  /** Every kind has its own default prefix. */
  lemma DefaultPrefixDistinct(j: Kind, k: Kind)
    ensures DefaultPrefix(j) == DefaultPrefix(k) <==> j == k
  {
    if j != k {
      assert DefaultPrefix(j)[1] != DefaultPrefix(k)[1];
    }
  }

  datatype StatusLine = StatusLine(prefix: string, caption: string, level: int)
  {
    function WithPrefix(p: string): (r: StatusLine)
      ensures r.prefix == p && r.caption == caption && r.level == level
    {
      this.(prefix := p)
    }

    function WithLabel(s: string): (r: StatusLine)
      ensures r.caption == s && r.prefix == prefix && r.level == level
    {
      this.(caption := s)
    }

    function WithLevel(l: int): (r: StatusLine)
      ensures r.level == l && r.prefix == prefix && r.caption == caption
    {
      this.(level := l)
    }

    /** `getPrefix`: the configured prefix unless it is empty. */
    function GetPrefix(px: string): (r: string)
      ensures prefix != "" ==> r == prefix
      ensures prefix == "" ==> r == px
      ensures r == "" <==> prefix == "" && px == ""
    {
      if prefix == "" then px else prefix
    }

    /** `Render`: nothing at all when both label and prefix are empty;
        otherwise one line, the styled prefix (the level default if none is
        configured) and the styled label. */
    function Render(style: (Part, string) -> string): (r: Option<string>)
      ensures r.None? <==> caption == "" && prefix == ""
      ensures r.Some? ==>
        r.value == style(PrefixPart(KindOf(level)), GetPrefix(DefaultPrefix(KindOf(level))))
                   + style(LabelPart(KindOf(level)), caption) + "\n"
    {
      if caption == "" && prefix == "" then None
      else
        var k := KindOf(level);
        Some(style(PrefixPart(k), GetPrefix(DefaultPrefix(k))) + style(LabelPart(k), caption) + "\n")
    }
  }

  /** NewStatus: empty prefix and label, debug level. */
  const NewStatus: StatusLine := StatusLine("", "", LevelDebug)

  /** Unstyled, a status line always shows a prefix: the configured one, or
      the default for its level, which for a fresh status is the debug one. */
  lemma PlainLine(st: StatusLine)
    requires st.caption != "" || st.prefix != ""
    ensures var r := st.Render((part, s) => s);
      && r.Some?
      && (st.prefix != "" ==> r.value == st.prefix + st.caption + "\n")
      && (st.prefix == "" ==> r.value == DefaultPrefix(KindOf(st.level)) + st.caption + "\n")
  {
  }

  /** A fresh status given only a label shows the debug prefix; set to a
      named level it shows that level's prefix. */
  lemma LabelledDefaults(s: string, l: int)
    requires s != ""
    ensures NewStatus.WithLabel(s).Render((part, t) => t) == Some("[-] " + s + "\n")
    ensures KindOf(l) != Debug ==>
      NewStatus.WithLabel(s).WithLevel(l).Render((part, t) => t) == Some(DefaultPrefix(KindOf(l)) + s + "\n")
  {
  }
}
