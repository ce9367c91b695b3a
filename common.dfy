/** Values shared by every prompt: choices, error kinds, key events and the
    small text helpers the prompts take from Go's strings and strconv. */
module Common {

  datatype Option<T> = None | Some(value: T)

  /** A selectable item (Go `Choice{Value, Label, Disabled}`; `caption` is the label). Selection compares `value` only. */
  datatype Choice = Choice(value: string, caption: string, disabled: bool)

  /** Go's zero `Choice{}`, which single-select uses to mean "nothing selected". */
  const NoChoice: Choice := Choice("", "", false)

  /** The sentinel errors of the toolkit, plus an error reported by the keyboard source. */
  datatype PromptError =
    | Interrupted
    | TerminalTooSmall
    | NoSelectionChoices
    | InvalidSelectionCount
    | KeyboardFailure(reason: string)

  /** The key codes a prompt reacts to; `OtherKey` stands for every code it ignores. */
  datatype Key =
    | CtrlC | Up | Down | Left | Right | Tab | Escape | Enter | Space | Backspace
    | RuneKey(runes: seq<char>)
    | OtherKey

  /** One delivery of the keyboard source: a key, or the error that ends listening. */
  datatype Event = Press(key: Key) | ListenError(reason: string)

  /** The end of a prompt's Render: its return value, its error, or `Listening`
      when the given events ran out while the prompt still waited for a key. */
  datatype Outcome<T> = Returned(value: T) | Failed(error: PromptError) | Listening

  function Max(a: int, b: int): int { if a < b then b else a }
  function Min(a: int, b: int): int { if a < b then a else b }

  // ---- strconv.Itoa on non-negative numbers ----------------------------------

  predicate IsDigit(c: char) { '0' <= c <= '9' }

  function DigitChar(d: nat): char
    requires d < 10
  {
    ['0', '1', '2', '3', '4', '5', '6', '7', '8', '9'][d]
  }

  function DigitValue(c: char): nat
    requires IsDigit(c)
  {
    c as int - '0' as int
  }

  /** Decimal text of `n`, without leading zeros. */
  function NatToString(n: nat): (s: string)
    ensures |s| >= 1
    ensures forall i :: 0 <= i < |s| ==> IsDigit(s[i])
    ensures n >= 10 ==> s[0] != '0'
  {
    if n < 10 then [DigitChar(n)] else NatToString(n / 10) + [DigitChar(n % 10)]
  }

  /** The number a string of decimal digits denotes. */
  function DecimalValue(s: string): nat
    requires forall i :: 0 <= i < |s| ==> IsDigit(s[i])
  {
    if s == [] then 0 else 10 * DecimalValue(s[..|s| - 1]) + DigitValue(s[|s| - 1])
  }

  lemma DigitRoundTrip(d: nat)
    requires d < 10
    ensures IsDigit(DigitChar(d)) && DigitValue(DigitChar(d)) == d
  {
  }

  /** The numeral NatToString writes denotes the number it was given. */
  lemma {:induction false} NatToStringValue(n: nat)
    ensures DecimalValue(NatToString(n)) == n
  {
    DigitRoundTrip(n % 10);
    if n >= 10 {
      NatToStringValue(n / 10);
      var s, q := NatToString(n), NatToString(n / 10);
      assert s == q + [DigitChar(n % 10)];
      assert s[..|s| - 1] == q;
    }
  }

  // ---- ASCII lowercase and substring search ----------------------------------

  function LowerChar(c: char): char
  {
    if 'A' <= c <= 'Z' then (c as int + 32) as char else c
  }

  /** strings.ToLower, restricted to ASCII letters. */
  function Lower(s: string): (r: string)
    ensures |r| == |s|
    ensures forall i :: 0 <= i < |s| ==> r[i] == LowerChar(s[i])
  {
    if s == [] then [] else [LowerChar(s[0])] + Lower(s[1..])
  }

  predicate OccursAt(s: string, sub: string, i: nat)
  {
    i + |sub| <= |s| && s[i..i + |sub|] == sub
  }

  /** strings.Contains. */
  predicate Contains(s: string, sub: string)
  {
    exists i: nat | i <= |s| :: OccursAt(s, sub, i)
  }

  // ---- strings.TrimRight(s, "\r\n") -------------------------------------------

  predicate IsLineEnd(c: char) { c == '\r' || c == '\n' }

  /** Drops every trailing carriage return and line feed. */
  function TrimLineEnds(s: string): (r: string)
    ensures r <= s
    ensures r == [] || !IsLineEnd(r[|r| - 1])
    ensures forall i :: |r| <= i < |s| ==> IsLineEnd(s[i])
  {
    if s != [] && IsLineEnd(s[|s| - 1]) then TrimLineEnds(s[..|s| - 1]) else s
  }
}
