/** The free-text and secret input prompts. Both edit a rune buffer in place
    at a cursor with the same key handler, and both let a caller-supplied
    validator veto Enter; they differ only in what they echo and in how the
    placeholder line is composed. */
module LineInput {
  import opened Common

  /** A caller-supplied validator: a message and whether the text is accepted. */
  type Validator = Option<string -> (string, bool)>

  predicate Accepts(v: Validator, text: string)
  {
    v.None? || v.value(text).1
  }

  // ---- The edit rules ---------------------------------------------------------

  /** A buffer with its cursor; the cursor may sit just past the last rune. */
  datatype Line = Line(buf: string, cursor: nat)
  {
    predicate Ok() { cursor <= |buf| }
  }

  /** Left: one rune back, stopping at the start; the buffer is untouched. */
  function MoveLeft(l: Line): (r: Line)
    requires l.Ok()
    ensures r.Ok() && r.buf == l.buf
    ensures r.cursor == if l.cursor > 0 then l.cursor - 1 else 0
  {
    if l.cursor > 0 then l.(cursor := l.cursor - 1) else l
  }

  /** Right: one rune forward, stopping at the end; the buffer is untouched. */
  function MoveRight(l: Line): (r: Line)
    requires l.Ok()
    ensures r.Ok() && r.buf == l.buf
    ensures r.cursor == if l.cursor < |l.buf| then l.cursor + 1 else |l.buf|
  {
    if l.cursor < |l.buf| then l.(cursor := l.cursor + 1) else l
  }

  /** Backspace: remove the rune before the cursor; at the start nothing changes. */
  function DeleteBack(l: Line): (r: Line)
    requires l.Ok()
    ensures r.Ok()
    ensures l.cursor == 0 ==> r == l
    ensures l.cursor > 0 ==>
      && |r.buf| == |l.buf| - 1 && r.cursor == l.cursor - 1
      && r.buf[..r.cursor] == l.buf[..l.cursor - 1]
      && r.buf[r.cursor..] == l.buf[l.cursor..]
  {
    if l.cursor > 0 then Line(l.buf[..l.cursor - 1] + l.buf[l.cursor..], l.cursor - 1) else l
  }

  /** Space or a printable rune: insert it at the cursor and step past it;
      what lies before the cursor stays, what follows moves one place right. */
  function Insert(l: Line, x: char): (r: Line)
    requires l.Ok()
    ensures r.Ok()
    ensures |r.buf| == |l.buf| + 1 && r.cursor == l.cursor + 1
    ensures r.buf[..l.cursor] == l.buf[..l.cursor]
    ensures r.buf[l.cursor] == x
    ensures r.buf[l.cursor + 1..] == l.buf[l.cursor..]
  {
    Line(l.buf[..l.cursor] + [x] + l.buf[l.cursor..], l.cursor + 1)
  }

  /** The edit a key makes; keys that do not edit leave the line alone. */
  function Edit(l: Line, key: Key): (r: Line)
    requires l.Ok()
    ensures r.Ok()
    ensures !(key.Left? || key.Right? || key.Backspace? || key.Space? || key.RuneKey?) ==> r == l
    ensures key.Left? || key.Right? ==> r.buf == l.buf
    ensures key.Backspace? ==> |r.buf| == |l.buf| - (if l.cursor > 0 then 1 else 0)
    ensures key.Space? || (key.RuneKey? && |key.runes| > 0) ==>
      |r.buf| == |l.buf| + 1 && r.cursor == l.cursor + 1
    ensures key.RuneKey? && |key.runes| == 0 ==> r == l
  {
    match key
    case Left => MoveLeft(l)
    case Right => MoveRight(l)
    case Backspace => DeleteBack(l)
    case Space => Insert(l, ' ')
    case RuneKey(runes) => if |runes| > 0 then Insert(l, runes[0]) else l
    case _ => l
  }

  /** Backspace undoes an insertion exactly. */
  lemma DeleteBackUndoesInsert(l: Line, x: char)
    requires l.Ok()
    ensures DeleteBack(Insert(l, x)) == l
  {
    var r := Insert(l, x);
    var d := DeleteBack(r);
    assert d.buf == r.buf[..l.cursor] + r.buf[l.cursor + 1..];
    assert d.buf == l.buf[..l.cursor] + l.buf[l.cursor..];
    assert l.buf[..l.cursor] + l.buf[l.cursor..] == l.buf;
  }

  /** A whole input session from line `l`: Ctrl-C interrupts, a keyboard error
      passes through, Enter returns the buffer with its trailing CR/LF
      trimmed unless the validator rejects it, any other key edits. */
  function Run(l: Line, events: seq<Event>, v: Validator): (r: Outcome<string>)
    requires l.Ok()
    ensures r.Failed? ==> r.error == Interrupted || r.error.KeyboardFailure?
    ensures r.Returned? ==> r.value == [] || !IsLineEnd(r.value[|r.value| - 1])
    decreases |events|
  {
    if events == [] then Listening
    else match events[0]
      case ListenError(reason) => Failed(KeyboardFailure(reason))
      case Press(key) =>
        if key.CtrlC? then Failed(Interrupted)
        else if key.Enter? then
          if Accepts(v, l.buf) then Returned(TrimLineEnds(l.buf)) else Run(l, events[1..], v)
        else Run(Edit(l, key), events[1..], v)
  }

  /** What a session returns is the trimmed form of some buffer the validator
      accepts: the default value is never substituted, and the result never
      ends in CR or LF. Which buffer it is, EnterAccepted says. */
  lemma {:induction false} RunReturnsAccepted(l: Line, events: seq<Event>, v: Validator)
    requires l.Ok()
    ensures Run(l, events, v).Returned? ==>
      exists b :: Accepts(v, b) && Run(l, events, v).value == TrimLineEnds(b)
    ensures Run(l, events, v).Failed? ==>
      Run(l, events, v).error == Interrupted || Run(l, events, v).error.KeyboardFailure?
    ensures Run(l, events, v).Returned? ==>
      var s := Run(l, events, v).value; s == [] || !IsLineEnd(s[|s| - 1])
    decreases |events|
  {
    if events != [] {
      match events[0]
      case ListenError(_) =>
      case Press(key) =>
        if key.CtrlC? {
        } else if key.Enter? {
          if Accepts(v, l.buf) {
            assert Accepts(v, l.buf) && Run(l, events, v).value == TrimLineEnds(l.buf);
          } else {
            RunReturnsAccepted(l, events[1..], v);
          }
        } else {
          RunReturnsAccepted(Edit(l, key), events[1..], v);
        }
    }
  }

  /** Enter is blocked while the validator rejects: the session goes on with
      the same line, whatever comes next. */
  lemma EnterRejected(l: Line, rest: seq<Event>, v: Validator)
    requires l.Ok() && !Accepts(v, l.buf)
    ensures Run(l, [Press(Enter)] + rest, v) == Run(l, rest, v)
  {
    assert ([Press(Enter)] + rest)[1..] == rest;
  }

  /** Enter on an accepted buffer (no validator, or one that returns no
      error) ends the session with that buffer, its trailing CR/LF trimmed. */
  lemma EnterAccepted(l: Line, rest: seq<Event>, v: Validator)
    requires l.Ok() && Accepts(v, l.buf)
    ensures Run(l, [Press(Enter)] + rest, v) == Returned(TrimLineEnds(l.buf))
  {
  }

  /** Any other key but Ctrl-C edits the line, and the session goes on from
      the edited line. */
  lemma KeyEdits(l: Line, key: Key, rest: seq<Event>, v: Validator)
    requires l.Ok() && !key.Enter? && !key.CtrlC?
    ensures Run(l, [Press(key)] + rest, v) == Run(Edit(l, key), rest, v)
  {
    assert ([Press(key)] + rest)[1..] == rest;
  }

  // ---- The editor -------------------------------------------------------------

  /** The render cycle's `inBuf` and `cursorPos`. */
  class LineEditor {
    var buf: string
    var cursor: nat

    function State(): Line
      reads this
    {
      Line(buf, cursor)
    }

    ghost predicate Valid()
      reads this
    {
      cursor <= |buf|
    }

    constructor ()
      ensures Valid() && buf == [] && cursor == 0
    {
      buf := [];
      cursor := 0;
    }

    /** The key handler's editing branches, done in place. */
    method Apply(key: Key)
      requires Valid()
      modifies this
      ensures Valid()
      ensures State() == Edit(old(State()), key)
    {
      match key
      case Left =>
        if cursor > 0 {
          cursor := cursor - 1;
        }
      case Right =>
        if cursor < |buf| {
          cursor := cursor + 1;
        }
      case Backspace =>
        if cursor > 0 {
          buf := buf[..cursor - 1] + buf[cursor..];
          cursor := cursor - 1;
        }
      case Space =>
        buf := buf[..cursor] + [' '] + buf[cursor..];
        cursor := cursor + 1;
      case RuneKey(runes) =>
        if |runes| > 0 {
          buf := buf[..cursor] + [runes[0]] + buf[cursor..];
          cursor := cursor + 1;
        }
      case _ =>
    }
  }

  /** The listening loop both prompts run: one event at a time until Enter
      is accepted, Ctrl-C is pressed or the keyboard fails. */
  method Listen(events: seq<Event>, v: Validator) returns (out: Outcome<string>)
    ensures out == Run(Line([], 0), events, v)
  {
    var ed := new LineEditor();
    var i := 0;
    while i < |events|
      invariant 0 <= i <= |events|
      invariant ed.Valid()
      invariant Run(Line([], 0), events, v) == Run(ed.State(), events[i..], v)
    {
      assert events[i..][1..] == events[i + 1..];
      match events[i]
      case ListenError(reason) =>
        return Failed(KeyboardFailure(reason));
      case Press(key) =>
        if key.CtrlC? {
          return Failed(Interrupted);
        }
        if key.Enter? {
          if v.None? || v.value(ed.buf).1 {
            return Returned(TrimLineEnds(ed.buf));
          }
        } else {
          ed.Apply(key);
        }
      i := i + 1;
    }
    return Listening;
  }

  // ---- The two prompts ---------------------------------------------------------

  /** The text shown, styled as placeholder, while the text prompt's buffer is
      empty: placeholder and default, either alone, or nothing. */
  function TextPlaceholder(placeholder: string, defaultValue: string): (r: string)
    ensures placeholder != "" && defaultValue != "" ==> r == placeholder + " (default: " + defaultValue + ")"
    ensures placeholder != "" && defaultValue == "" ==> r == placeholder
    ensures placeholder == "" && defaultValue != "" ==> r == "default: " + defaultValue
    ensures placeholder == "" && defaultValue == "" ==> r == ""
  {
    if placeholder != "" && defaultValue != "" then placeholder + " (default: " + defaultValue + ")"
    else if placeholder != "" then placeholder
    else if defaultValue != "" then "default: " + defaultValue
    else ""
  }

  /** The placeholder line is written only while the buffer is empty. */
  function PlaceholderShown(buf: string, placeholderLine: string): (r: string)
    ensures buf == [] ==> r == placeholderLine
    ensures buf != [] ==> r == ""
  {
    if |buf| == 0 then placeholderLine else ""
  }

  /** The secret prompt's echo: one `*` per rune, or nothing with noEcho. */
  function SecureEcho(buf: string, noEcho: bool): (r: string)
    ensures noEcho || buf == [] ==> r == ""
    ensures !noEcho ==> |r| == |buf| && forall i :: 0 <= i < |r| ==> r[i] == '*'
  {
    if |buf| != 0 && !noEcho then seq(|buf|, _ => '*') else ""
  }

  /** The free-text prompt. */
  class TextInput {
    var prefix: string
    var caption: string
    var description: string
    var placeholder: string
    var defaultValue: string
    var validator: Validator

    /** NewTextInput. */
    constructor ()
      ensures prefix == "[?] " && caption == "Enter text input" && description == ""
      ensures placeholder == "" && defaultValue == "" && validator == None
    {
      prefix := "[?] ";
      caption := "Enter text input";
      description := "";
      placeholder := "";
      defaultValue := "";
      validator := None;
    }

    method WithPrefix(p: string)
      modifies this`prefix
      ensures prefix == p
    {
      prefix := p;
    }

    method WithLabel(p: string)
      modifies this`caption
      ensures caption == p
    {
      caption := p;
    }

    method WithDescription(txt: string)
      modifies this`description
      ensures description == txt
    {
      description := txt;
    }

    method WithPlaceholder(txt: string)
      modifies this`placeholder
      ensures placeholder == txt
    {
      placeholder := txt;
    }

    method WithDefaultValue(val: string)
      modifies this`defaultValue
      ensures defaultValue == val
    {
      defaultValue := val;
    }

    method WithValidator(fn: string -> (string, bool))
      modifies this`validator
      ensures validator == Some(fn)
    {
      validator := Some(fn);
    }

    /** Render: the terminal check for 8 rows, then the editing session. */
    method Render(events: seq<Event>, makeSpace: int -> bool) returns (out: Outcome<string>)
      ensures !makeSpace(8) ==> out == Failed(TerminalTooSmall)
      ensures makeSpace(8) ==> out == Run(Line([], 0), events, validator)
    {
      if !makeSpace(8) {
        return Failed(TerminalTooSmall);
      }
      out := Listen(events, validator);
    }
  }

  /** The secret prompt. */
  class SecureInput {
    var prefix: string
    var caption: string
    var description: string
    var placeholder: string
    var noEcho: bool
    var validator: Validator

    /** NewSecureInput. */
    constructor ()
      ensures prefix == "[?] " && caption == "Enter secure input" && description == ""
      ensures placeholder == "" && !noEcho && validator == None
    {
      prefix := "[?] ";
      caption := "Enter secure input";
      description := "";
      placeholder := "";
      noEcho := false;
      validator := None;
    }

    method WithPrefix(p: string)
      modifies this`prefix
      ensures prefix == p
    {
      prefix := p;
    }

    method WithLabel(p: string)
      modifies this`caption
      ensures caption == p
    {
      caption := p;
    }

    method WithDescription(txt: string)
      modifies this`description
      ensures description == txt
    {
      description := txt;
    }

    method WithPlaceholder(txt: string)
      modifies this`placeholder
      ensures placeholder == txt
    {
      placeholder := txt;
    }

    method WithNoEcho()
      modifies this`noEcho
      ensures noEcho
    {
      noEcho := true;
    }

    method WithValidator(fn: string -> (string, bool))
      modifies this`validator
      ensures validator == Some(fn)
    {
      validator := Some(fn);
    }

    /** Render: the terminal check for 8 rows, then the editing session. */
    method Render(events: seq<Event>, makeSpace: int -> bool) returns (out: Outcome<string>)
      ensures !makeSpace(8) ==> out == Failed(TerminalTooSmall)
      ensures makeSpace(8) ==> out == Run(Line([], 0), events, validator)
    {
      if !makeSpace(8) {
        return Failed(TerminalTooSmall);
      }
      out := Listen(events, validator);
    }
  }
}
