/** The value-level rules of the list-selection engine that both the
    single-choice and the multi-choice prompt follow: the visible window
    and how navigation and re-filtering move it, the search filter, the
    selection rules of Space and Enter, and the layout of the item rows.
    The prompts in select.dfy update their state step by step and are
    proved to follow these rules. */
module Listing {
  import opened Common

  // ---- The window [start, end) over the filtered list ----------------------

  datatype Window = Window(cursor: nat, start: nat, end: nat)

  /** The engine's window invariant over a filtered list of length `n`. */
  predicate WindowOk(w: Window, n: nat, pageSize: nat)
  {
    if n == 0 then w.cursor == 0 && w.start == 0 && w.end == 0
    else w.start <= w.cursor < w.end <= n && w.end - w.start <= pageSize
  }

  /** navigateUp: one step towards the top; the window scrolls only when the
      cursor leaves it, and then just far enough to show the cursor. */
  function NavUp(w: Window, n: nat, pageSize: nat): (r: Window)
    requires pageSize >= 1 && WindowOk(w, n, pageSize)
    ensures WindowOk(r, n, pageSize)
    ensures r.cursor == if w.cursor > 0 then w.cursor - 1 else w.cursor
    ensures w.start <= r.cursor ==> r.start == w.start && r.end == w.end
    ensures r.cursor < w.start ==> r.start == r.cursor && r.end == Min(r.start + pageSize, n)
  {
    if w.cursor > 0 then
      var c := w.cursor - 1;
      if c < w.start then Window(c, c, Min(c + pageSize, n)) else w.(cursor := c)
    else w
  }

  /** navigateDown: one step towards the bottom, scrolling like NavUp. */
  function NavDown(w: Window, n: nat, pageSize: nat): (r: Window)
    requires pageSize >= 1 && WindowOk(w, n, pageSize)
    ensures WindowOk(r, n, pageSize)
    ensures r.cursor == if w.cursor + 1 < n then w.cursor + 1 else w.cursor
    ensures r.cursor < w.end ==> r.start == w.start && r.end == w.end
    ensures w.cursor + 1 < n && w.cursor + 1 >= w.end ==>
      r.end == r.cursor + 1 && r.start == Max(0, r.end - pageSize)
  {
    if w.cursor < n - 1 then
      var c := w.cursor + 1;
      if c >= w.end then Window(c, Max(0, c + 1 - pageSize) as nat, c + 1) else w.(cursor := c)
    else w
  }

  /** resetCursorAfterFilter: collapse on an empty list, otherwise clamp the
      cursor to the new length and slide the window until it shows it. It
      needs nothing of the old window beyond its numbers being natural. */
  function Refit(w: Window, n: nat, pageSize: nat): (r: Window)
    requires pageSize >= 1
    ensures WindowOk(r, n, pageSize)
    ensures n > 0 ==> r.cursor == Min(w.cursor, n - 1)
    ensures n > 0 ==> r.end == Min(r.start + pageSize, n)
    ensures n > 0 ==> r.start == if r.cursor < w.start then r.cursor
                                 else if r.cursor >= w.start + pageSize then r.cursor - pageSize + 1
                                 else w.start
  {
    if n == 0 then Window(0, 0, 0)
    else
      var c := if w.cursor >= n then n - 1 else w.cursor;
      var s1 := if c < w.start then c else w.start;
      var s2 := if c >= s1 + pageSize then Max(0, c - pageSize + 1) as nat else s1;
      Window(c, s2, Min(s2 + pageSize, n))
  }

  // ---- The search filter ----------------------------------------------------

  /** A choice matches a query when its lowercased label contains the lowercased query. */
  predicate Matches(c: Choice, query: string)
  {
    Contains(Lower(c.caption), Lower(query))
  }

  /** The matching choices, in their original order. */
  function Keep(choices: seq<Choice>, query: string): seq<Choice>
  {
    if choices == [] then []
    else
      var last := choices[|choices| - 1];
      Keep(choices[..|choices| - 1], query) + (if Matches(last, query) then [last] else [])
  }

  /** filterChoices: the whole list for an empty query, else the matches. */
  function Filter(choices: seq<Choice>, query: string): (r: seq<Choice>)
    ensures query == "" ==> r == choices
    ensures query != "" ==> r == Keep(choices, query)
  {
    if query == "" then choices else Keep(choices, query)
  }

  /** The filter keeps exactly the matching choices ... */
  lemma {:induction false} KeepMembers(choices: seq<Choice>, query: string, x: Choice)
    ensures x in Keep(choices, query) <==> x in choices && Matches(x, query)
  {
    if choices != [] {
      var init := choices[..|choices| - 1];
      KeepMembers(init, query, x);
      assert choices == init + [choices[|choices| - 1]];
    }
  }

  /** ... and keeps them in order: filtering distributes over concatenation. */
  lemma {:induction false} KeepConcat(xs: seq<Choice>, ys: seq<Choice>, query: string)
    ensures Keep(xs + ys, query) == Keep(xs, query) + Keep(ys, query)
  {
    if ys == [] {
      assert xs + ys == xs;
    } else {
      var init := ys[..|ys| - 1];
      assert (xs + ys)[..|xs + ys| - 1] == xs + init;
      KeepConcat(xs, init, query);
    }
  }

  /** Filtering one choice keeps it exactly when it matches; with KeepConcat
      this pins the filter's result down completely. */
  lemma KeepOne(c: Choice, query: string)
    ensures Keep([c], query) == if Matches(c, query) then [c] else []
  {
    assert [c][..0] == [];
  }

  /** Every filtered choice comes from the configured list. */
  lemma FilterMembers(choices: seq<Choice>, query: string, x: Choice)
    ensures x in Filter(choices, query) ==> x in choices
    ensures query != "" ==> (x in Filter(choices, query) <==> x in choices && Matches(x, query))
  {
    KeepMembers(choices, query, x);
  }

  // ---- Selection by value ---------------------------------------------------

  /** The values of a selection (the selection compares values only). */
  function Values(sel: seq<Choice>): set<string>
  {
    set i | 0 <= i < |sel| :: sel[i].value
  }

  /** No two selected choices share a value. */
  predicate DistinctValues(sel: seq<Choice>)
  {
    forall i, j :: 0 <= i < j < |sel| ==> sel[i].value != sel[j].value
  }

  /** The first selected choice with value `v`, as the removal loop finds it. */
  function FirstWithValue(sel: seq<Choice>, v: string): (r: Option<nat>)
    ensures r.Some? ==> r.value < |sel| && sel[r.value].value == v
    ensures r.Some? ==> forall j :: 0 <= j < r.value ==> sel[j].value != v
    ensures r.None? <==> v !in Values(sel)
  {
    if sel == [] then None
    else if sel[0].value == v then Some(0)
    else match FirstWithValue(sel[1..], v)
      case None => assert Values(sel) == {sel[0].value} + Values(sel[1..]); None
      case Some(i) => assert Values(sel) == {sel[0].value} + Values(sel[1..]); Some(i + 1)
  }

  /** toggleSelection: drop the first choice with the same value, or append
      the choice when the configured maximum (0: none) leaves room. */
  function Toggled(sel: seq<Choice>, c: Choice, maxCount: int): (r: seq<Choice>)
    ensures forall x :: x in r ==> x in sel || x == c
    ensures c.value in Values(sel) ==> |r| == |sel| - 1
    ensures FirstWithValue(sel, c.value).Some? ==>
      var i := FirstWithValue(sel, c.value).value; r == sel[..i] + sel[i + 1..]
    ensures c.value !in Values(sel) && (maxCount == 0 || |sel| < maxCount) ==> r == sel + [c]
    ensures c.value !in Values(sel) && !(maxCount == 0 || |sel| < maxCount) ==> r == sel
  {
    match FirstWithValue(sel, c.value)
    case Some(i) => sel[..i] + sel[i + 1..]
    case None => if maxCount == 0 || |sel| < maxCount then sel + [c] else sel
  }

  /** The choices the in-range indices name, in the given order; indices
      outside the list are skipped. Nothing else is checked: an index may
      repeat and may name a disabled choice. */
  function Picks(choices: seq<Choice>, idxs: seq<int>): (r: seq<Choice>)
    ensures |r| <= |idxs|
    ensures forall x :: x in r ==> x in choices
  {
    if idxs == [] then []
    else
      var k := idxs[|idxs| - 1];
      Picks(choices, idxs[..|idxs| - 1]) + (if 0 <= k < |choices| then [choices[k]] else [])
  }

  /** Picking distributes over concatenation of the index list ... */
  lemma {:induction false} PicksConcat(choices: seq<Choice>, xs: seq<int>, ys: seq<int>)
    ensures Picks(choices, xs + ys) == Picks(choices, xs) + Picks(choices, ys)
  {
    if ys == [] {
      assert xs + ys == xs;
    } else {
      var init := ys[..|ys| - 1];
      assert (xs + ys)[..|xs + ys| - 1] == xs + init;
      PicksConcat(choices, xs, init);
    }
  }

  /** ... and one index gives its choice when in range and nothing otherwise. */
  lemma PicksOne(choices: seq<Choice>, k: int)
    ensures Picks(choices, [k]) == if 0 <= k < |choices| then [choices[k]] else []
  {
    assert [k][..0] == [];
  }

  /** The minimum count Enter insists on: max(min, 0), raised to 1 for a
      required prompt. */
  function MinRequired(minCount: int, optional: bool): (r: nat)
    ensures minCount > 0 ==> r == minCount
    ensures minCount <= 0 ==> r == if optional then 0 else 1
  {
    var m := Max(minCount, 0);
    if !optional && m == 0 then 1 else m
  }

  /** The maximum count Space allows: max(max, 0), where 0 means the length
      of the whole (unfiltered) list. */
  function MaxAllowed(maxCount: int, total: nat): (r: nat)
    ensures maxCount > 0 ==> r == maxCount
    ensures maxCount <= 0 ==> r == total
  {
    var m := Max(maxCount, 0);
    if m == 0 then total else m
  }

  function AtLeastMessage(minRequired: nat): string
  {
    "At least " + NatToString(minRequired) + " choices must be selected"
  }

  function AtMostMessage(maxAllowed: nat): string
  {
    "Cannot select more than " + NatToString(maxAllowed) + " choices"
  }

  const NoChoicesMessage := "No choices available"
  const DisabledMessage := "Cannot select a disabled choice"
  const RequiredMessage := "No selection made (required)"

  /** A cursor the Space handler may index with. */
  predicate CursorOk(filtered: seq<Choice>, cursor: nat)
  {
    filtered == [] || cursor < |filtered|
  }

  /** Multi-select Space: the new selection and validation message. */
  function SpaceMulti(sel: seq<Choice>, filtered: seq<Choice>, cursor: nat,
                      minRequired: nat, maxAllowed: nat, maxCount: int): (seq<Choice>, string)
    requires CursorOk(filtered, cursor)
  {
    if |filtered| == 0 then (sel, NoChoicesMessage)
    else
      var cur := filtered[cursor];
      if cur.disabled then (sel, DisabledMessage)
      else if cur.value !in Values(sel) && |sel| >= maxAllowed then (sel, AtMostMessage(maxAllowed))
      else
        var t := Toggled(sel, cur, maxCount);
        (t, if |t| < minRequired then AtLeastMessage(minRequired) else "")
  }

  /** Space only reports, and changes nothing, on an empty list, a disabled
      choice, or an unselected choice once the count has reached the maximum;
      otherwise it toggles the current choice: a selected value loses one
      entry, and an unselected one is appended whenever the maximum the
      prompt derives from the configured one (0: none) leaves room;
      it never takes the count above the maximum (selections made by
      defaults beyond it can only shrink); every choice it adds is the
      enabled current one; after a toggle the message says whether the
      minimum is met. */
  lemma SpaceMultiRules(sel: seq<Choice>, filtered: seq<Choice>, cursor: nat,
                        minRequired: nat, maxAllowed: nat, maxCount: int)
    requires CursorOk(filtered, cursor)
    ensures var (s, m) := SpaceMulti(sel, filtered, cursor, minRequired, maxAllowed, maxCount);
      && (filtered == [] ==> s == sel && m == NoChoicesMessage)
      && (filtered != [] && filtered[cursor].disabled ==> s == sel && m == DisabledMessage)
      && ((filtered != [] && !filtered[cursor].disabled && filtered[cursor].value !in Values(sel)
            && |sel| >= maxAllowed) ==> s == sel && m == AtMostMessage(maxAllowed))
      && |s| <= Max(|sel|, maxAllowed)
      && (forall x :: x in s ==> x in sel || (x == filtered[cursor] && !x.disabled))
      && (s != sel ==> m == if |s| < minRequired then AtLeastMessage(minRequired) else "")
      && ((filtered != [] && !filtered[cursor].disabled
            && (filtered[cursor].value in Values(sel) || |sel| < maxAllowed))
          ==> s == Toggled(sel, filtered[cursor], maxCount)
              && m == if |s| < minRequired then AtLeastMessage(minRequired) else "")
      && ((filtered != [] && !filtered[cursor].disabled && filtered[cursor].value in Values(sel))
          ==> |s| == |sel| - 1)
      && ((filtered != [] && !filtered[cursor].disabled && filtered[cursor].value !in Values(sel)
            && |sel| < maxAllowed && (maxCount == 0 || maxCount == maxAllowed)) ==> s == sel + [filtered[cursor]])
  {
    if filtered != [] {
      var cur := filtered[cursor];
      var (s, m) := SpaceMulti(sel, filtered, cursor, minRequired, maxAllowed, maxCount);
      if !cur.disabled && (cur.value in Values(sel) || |sel| < maxAllowed) {
        match FirstWithValue(sel, cur.value)
        case Some(i) =>
          assert s == sel[..i] + sel[i + 1..];
          forall x | x in s ensures x in sel {
            var k :| 0 <= k < |s| && s[k] == x;
            if k < i { assert x == sel[k]; } else { assert x == sel[k + 1]; }
          }
        case None =>
      }
    }
  }

  /** Pressing Space twice on an enabled choice gives back the same set of
      selected values (the choice may move to the end), provided the
      selection holds each value once and respects the maximum. */
  lemma {:induction false} SpaceMultiTwice(sel: seq<Choice>, filtered: seq<Choice>, cursor: nat,
                                           minRequired: nat, maxCount: nat, total: nat)
    requires filtered != [] && cursor < |filtered| && !filtered[cursor].disabled
    requires DistinctValues(sel)
    requires |sel| <= MaxAllowed(maxCount, total)
    ensures var maxA := MaxAllowed(maxCount, total);
      var once := SpaceMulti(sel, filtered, cursor, minRequired, maxA, maxCount).0;
      var twice := SpaceMulti(once, filtered, cursor, minRequired, maxA, maxCount).0;
      Values(twice) == Values(sel) && |twice| == |sel|
      && (filtered[cursor].value !in Values(sel) ==> twice == sel)
  {
    var maxA := MaxAllowed(maxCount, total);
    var cur := filtered[cursor];
    var once := SpaceMulti(sel, filtered, cursor, minRequired, maxA, maxCount).0;
    match FirstWithValue(sel, cur.value)
    case Some(i) =>
      RemoveThenAppend(sel, i, cur);
      assert once == sel[..i] + sel[i + 1..];
      assert FirstWithValue(once, cur.value).None?;
      assert |once| < maxA;
    case None =>
      if |sel| < maxA {
        assert once == sel + [cur];
        AppendThenRemove(sel, cur);
        assert cur.value in Values(once) by { assert once[|sel|] == cur; }
      }
  }

  /** Taking out the only choice with `cur`'s value and appending `cur`
      keeps the set of values and the length. */
  lemma RemoveThenAppend(sel: seq<Choice>, i: nat, cur: Choice)
    requires i < |sel| && sel[i].value == cur.value && DistinctValues(sel)
    ensures var once := sel[..i] + sel[i + 1..];
      && cur.value !in Values(once)
      && Values(once + [cur]) == Values(sel) && |once + [cur]| == |sel|
  {
    var once := sel[..i] + sel[i + 1..];
    assert cur.value !in Values(once) by {
      forall k | 0 <= k < |once| ensures once[k].value != cur.value {
        if k < i { assert once[k] == sel[k]; } else { assert once[k] == sel[k + 1]; }
      }
    }
    var twice := once + [cur];
    forall v | v in Values(sel) ensures v in Values(twice) {
      var k :| 0 <= k < |sel| && sel[k].value == v;
      if k < i { assert twice[k] == sel[k]; }
      else if k == i { assert twice[|twice| - 1] == cur; }
      else { assert twice[k - 1] == sel[k]; }
    }
    forall v | v in Values(twice) ensures v in Values(sel) {
      var k :| 0 <= k < |twice| && twice[k].value == v;
      if k < i { assert twice[k] == sel[k]; }
      else if k == |twice| - 1 { assert sel[i].value == v; }
      else { assert twice[k] == sel[k + 1]; }
    }
  }

  /** Appending a choice whose value was absent, then toggling it, gives the
      selection back. */
  lemma AppendThenRemove(sel: seq<Choice>, cur: Choice)
    requires cur.value !in Values(sel)
    ensures forall m :: Toggled(sel + [cur], cur, m) == sel
  {
    var once := sel + [cur];
    assert once[|sel|] == cur;
    var j := FirstWithValue(once, cur.value).value;
    assert j == |sel|;
    assert once[..j] == sel && once[j + 1..] == [];
  }

  /** Without DistinctValues the pair of Spaces does not restore the set: a
      default list that names the same choice twice loses it completely. */
  lemma SpaceTwiceLosesDuplicateDefault()
    ensures var a := Choice("a", "Apple", false);
      var once := SpaceMulti([a, a], [a], 0, 0, 2, 0).0;
      var twice := SpaceMulti(once, [a], 0, 0, 2, 0).0;
      once == [a] && twice == [] && Values(twice) != Values([a, a])
  {
    var a := Choice("a", "Apple", false);
    assert Values([a, a]) == {"a"};
    var once := SpaceMulti([a, a], [a], 0, 0, 2, 0).0;
    assert once == [a];
    assert Values(once) == {"a"};
    assert [a][1..] == [];
  }

  /** Single-select Space. On an enabled choice it clears the selection when
      the values agree and otherwise replaces it, so at most one choice is
      ever selected; on an empty list or a disabled choice it only reports. */
  function SpaceSingle(selected: Choice, filtered: seq<Choice>, cursor: nat): (r: (Choice, string))
    requires CursorOk(filtered, cursor)
    ensures filtered == [] ==> r == (selected, NoChoicesMessage)
    ensures filtered != [] && filtered[cursor].disabled ==> r == (selected, DisabledMessage)
    ensures filtered != [] && !filtered[cursor].disabled ==>
      r.1 == "" && r.0 == if selected.value == filtered[cursor].value then NoChoice else filtered[cursor]
    ensures r.0 == selected || r.0 == NoChoice || (r.0 == filtered[cursor] && !r.0.disabled)
  {
    if |filtered| == 0 then (selected, NoChoicesMessage)
    else
      var cur := filtered[cursor];
      if cur.disabled then (selected, DisabledMessage)
      else if selected.value == cur.value then (NoChoice, "")
      else (cur, "")
  }

  /** Space twice on an enabled choice with a non-empty value, starting from
      no selection, selects it and then clears it again. */
  lemma SpaceSingleTwice(filtered: seq<Choice>, cursor: nat)
    requires cursor < |filtered| && !filtered[cursor].disabled && filtered[cursor].value != ""
    ensures SpaceSingle(NoChoice, filtered, cursor).0 == filtered[cursor]
    ensures SpaceSingle(filtered[cursor], filtered, cursor).0 == NoChoice
  {
  }

  /** The zero-value sentinel leaks: from nothing selected, a choice whose
      value is empty cannot become the selection, because Space takes it for
      the selected one. */
  lemma EmptyValueNeverSelected(selected: Choice, filtered: seq<Choice>, cursor: nat)
    requires CursorOk(filtered, cursor)
    requires selected == NoChoice
    requires filtered != [] && filtered[cursor].value == ""
    ensures SpaceSingle(selected, filtered, cursor).0 == NoChoice
  {
  }

  /** Single-select Enter: whether the loop stops. */
  function EnterSingleStops(filtered: seq<Choice>, selected: Choice, optional: bool): (stop: bool)
    ensures stop <==> optional || (filtered != [] && selected != NoChoice)
  {
    if filtered == [] || selected == NoChoice then optional else true
  }

  // ---- One selection session -------------------------------------------------

  /** What a session shows and edits besides the selection: the filtered
      list, the window over it, search mode, the query and the message. */
  datatype ListView = ListView(filtered: seq<Choice>, win: Window, searchMode: bool, query: string, message: string)

  /** The session invariant: the filter for the query is in force, whatever
      the mode, and the window fits the filtered list. */
  predicate ViewOk(choices: seq<Choice>, pageSize: nat, v: ListView)
  {
    pageSize >= 1 && v.filtered == Filter(choices, v.query) && WindowOk(v.win, |v.filtered|, pageSize)
  }

  /** The page size a session works with: the configured one capped by the
      number of choices, and never below one row. */
  function PageRows(pageSize: int, n: nat): (ps: nat)
    ensures ps >= 1
    ensures n >= 1 ==> ps <= n
    ensures 1 <= pageSize <= n ==> ps == pageSize
  {
    Max(1, Min(pageSize, n))
  }

  /** A session's start: the whole list, the first page, browsing mode, no
      query and no message. */
  function StartView(choices: seq<Choice>, pageSize: nat): (v: ListView)
    requires 1 <= pageSize <= |choices|
    ensures ViewOk(choices, pageSize, v)
    ensures v.filtered == choices && v.win.cursor == 0 && v.win.start == 0
    ensures !v.searchMode && v.query == "" && v.message == ""
  {
    ListView(choices, Window(0, 0, pageSize), false, "", "")
  }

  /** A new query: the whole list refiltered and the window refitted. */
  function Requery(choices: seq<Choice>, pageSize: nat, v: ListView, q: string): (r: ListView)
    requires pageSize >= 1
    ensures ViewOk(choices, pageSize, r)
    ensures r.query == q && r.searchMode == v.searchMode && r.message == v.message
    ensures r.win == Refit(v.win, |r.filtered|, pageSize)
  {
    var f := Filter(choices, q);
    ListView(f, Refit(v.win, |f|, pageSize), v.searchMode, q, v.message)
  }

  /** The keys both prompts handle alike. Up/Left and Down/Right move the
      cursor; Tab flips search mode and Escape leaves it; in search mode
      Backspace drops the last query character and a rune key appends its
      first rune, each refiltering; outside search mode j/l and k/h move like
      Down and Up. The message is never touched; Ctrl-C, Enter and Space
      are not among these keys and change nothing here. */
  function Browsed(choices: seq<Choice>, pageSize: nat, v: ListView, key: Key): (r: ListView)
    requires ViewOk(choices, pageSize, v)
    ensures ViewOk(choices, pageSize, r)
    ensures r.message == v.message
    ensures r.query != v.query ==> v.searchMode && r.searchMode
    ensures r.filtered != v.filtered ==> r.query != v.query
  {
    match key
    case Up => v.(win := NavUp(v.win, |v.filtered|, pageSize))
    case Left => v.(win := NavUp(v.win, |v.filtered|, pageSize))
    case Down => v.(win := NavDown(v.win, |v.filtered|, pageSize))
    case Right => v.(win := NavDown(v.win, |v.filtered|, pageSize))
    case Tab => v.(searchMode := !v.searchMode)
    case Escape => v.(searchMode := false)
    case Backspace =>
      if v.searchMode && |v.query| > 0 then Requery(choices, pageSize, v, v.query[..|v.query| - 1]) else v
    case RuneKey(runes) =>
      if |runes| == 0 then v
      else if v.searchMode then Requery(choices, pageSize, v, v.query + [runes[0]])
      else if runes[0] == 'j' || runes[0] == 'l' then v.(win := NavDown(v.win, |v.filtered|, pageSize))
      else if runes[0] == 'k' || runes[0] == 'h' then v.(win := NavUp(v.win, |v.filtered|, pageSize))
      else v
    case _ => v
  }

  /** Browsed key by key: the navigation keys move only the window, Tab and
      Escape change only the mode, and the query edits refilter and refit. */
  lemma BrowsedKeys(choices: seq<Choice>, pageSize: nat, v: ListView, key: Key)
    requires ViewOk(choices, pageSize, v)
    ensures var r := Browsed(choices, pageSize, v, key);
      && ((key.Up? || key.Left?) ==> r == v.(win := NavUp(v.win, |v.filtered|, pageSize)))
      && ((key.Down? || key.Right?) ==> r == v.(win := NavDown(v.win, |v.filtered|, pageSize)))
      && (key.Tab? ==> r == v.(searchMode := !v.searchMode))
      && (key.Escape? ==> r == v.(searchMode := false))
      && (key.Backspace? && v.searchMode && |v.query| > 0 ==>
        r.query == v.query[..|v.query| - 1] && r.searchMode
        && r.filtered == Filter(choices, r.query) && r.win == Refit(v.win, |r.filtered|, pageSize))
      && (key.RuneKey? && |key.runes| > 0 && v.searchMode ==>
        r.query == v.query + [key.runes[0]] && r.searchMode
        && r.filtered == Filter(choices, r.query) && r.win == Refit(v.win, |r.filtered|, pageSize))
      && (key.RuneKey? && |key.runes| > 0 && !v.searchMode ==>
        r == v.(win := if key.runes[0] == 'j' || key.runes[0] == 'l' then NavDown(v.win, |v.filtered|, pageSize)
                       else if key.runes[0] == 'k' || key.runes[0] == 'h' then NavUp(v.win, |v.filtered|, pageSize)
                       else v.win))
      && ((key.CtrlC? || key.Enter? || key.Space? || key.OtherKey?
               || (key.Backspace? && !(v.searchMode && |v.query| > 0))
               || (key.RuneKey? && |key.runes| == 0)) ==> r == v)
  {
  }

  /** One key of a multi-choice session that does not end it: Enter below
      the minimum only sets the at-least message, Space follows SpaceMulti,
      every other key follows Browsed and keeps the selection. */
  function MultiKey(choices: seq<Choice>, pageSize: nat, v: ListView, sel: seq<Choice>, key: Key,
                    minRequired: nat, maxAllowed: nat, maxCount: int): (r: (ListView, seq<Choice>))
    requires ViewOk(choices, pageSize, v)
    ensures ViewOk(choices, pageSize, r.0)
    ensures !key.Space? ==> r.1 == sel
    ensures key.Space? ==>
      r.0 == v.(message := r.0.message)
      && (r.1, r.0.message) == SpaceMulti(sel, v.filtered, v.win.cursor, minRequired, maxAllowed, maxCount)
    ensures key.Enter? ==> r.0 == if |sel| < minRequired then v.(message := AtLeastMessage(minRequired)) else v
    ensures !key.Space? && !key.Enter? ==> r.0 == Browsed(choices, pageSize, v, key)
  {
    match key
    case Enter => (if |sel| < minRequired then v.(message := AtLeastMessage(minRequired)) else v, sel)
    case Space =>
      var sm := SpaceMulti(sel, v.filtered, v.win.cursor, minRequired, maxAllowed, maxCount);
      (v.(message := sm.1), sm.0)
    case _ => (Browsed(choices, pageSize, v, key), sel)
  }

  /** A whole multi-choice session from view `v` and selection `sel`: its
      outcome and the selection it leaves. A keyboard error ends it with that
      error, Ctrl-C with Interrupted, an Enter that meets the minimum returns
      the selection; every other key is a MultiKey step. */
  function MultiSession(choices: seq<Choice>, pageSize: nat, v: ListView, sel: seq<Choice>, events: seq<Event>,
                        minRequired: nat, maxAllowed: nat, maxCount: int): (Outcome<seq<Choice>>, seq<Choice>)
    requires ViewOk(choices, pageSize, v)
    decreases |events|
  {
    if events == [] then (Listening, sel)
    else match events[0]
      case ListenError(reason) => (Failed(KeyboardFailure(reason)), sel)
      case Press(key) =>
        if key.CtrlC? then (Failed(Interrupted), sel)
        else if key.Enter? && |sel| >= minRequired then (Returned(sel), sel)
        else
          var r := MultiKey(choices, pageSize, v, sel, key, minRequired, maxAllowed, maxCount);
          MultiSession(choices, pageSize, r.0, r.1, events[1..], minRequired, maxAllowed, maxCount)
  }

  /** What a multi-choice session promises, from a selection `init` on:
      it never holds more than the maximum (or the initial count), it adds
      only enabled configured choices, a returned selection meets the
      minimum, and the only failures are an interrupt and a keyboard error. */
  lemma {:induction false} MultiSessionBounds(choices: seq<Choice>, pageSize: nat, v: ListView, sel: seq<Choice>,
                                              events: seq<Event>, minRequired: nat, maxAllowed: nat, maxCount: int,
                                              init: seq<Choice>)
    requires ViewOk(choices, pageSize, v)
    requires |sel| <= Max(|init|, maxAllowed)
    requires forall c :: c in sel ==> c in init || (c in choices && !c.disabled)
    ensures var r := MultiSession(choices, pageSize, v, sel, events, minRequired, maxAllowed, maxCount);
      && |r.1| <= Max(|init|, maxAllowed)
      && (forall c :: c in r.1 ==> c in init || (c in choices && !c.disabled))
      && (r.0.Returned? ==> r.0.value == r.1 && |r.1| >= minRequired)
      && (r.0.Failed? ==> r.0.error == Interrupted || r.0.error.KeyboardFailure?)
    decreases |events|
  {
    if events != [] && events[0].Press? {
      var key := events[0].key;
      if !key.CtrlC? && !(key.Enter? && |sel| >= minRequired) {
        var r := MultiKey(choices, pageSize, v, sel, key, minRequired, maxAllowed, maxCount);
        if key.Space? {
          SpaceMultiRules(sel, v.filtered, v.win.cursor, minRequired, maxAllowed, maxCount);
          if v.filtered != [] {
            FilterMembers(choices, v.query, v.filtered[v.win.cursor]);
          }
        }
        MultiSessionBounds(choices, pageSize, r.0, r.1, events[1..], minRequired, maxAllowed, maxCount, init);
      }
    }
  }

  /** One key of a single-choice session that does not end it: a refused
      Enter only sets the required message, Space follows SpaceSingle, every
      other key follows Browsed and keeps the selection. */
  function SingleKey(choices: seq<Choice>, pageSize: nat, v: ListView, selected: Choice, key: Key,
                     optional: bool): (r: (ListView, Choice))
    requires ViewOk(choices, pageSize, v)
    ensures ViewOk(choices, pageSize, r.0)
    ensures !key.Space? ==> r.1 == selected
    ensures key.Space? ==>
      r.0 == v.(message := r.0.message)
      && (r.1, r.0.message) == SpaceSingle(selected, v.filtered, v.win.cursor)
    ensures key.Enter? ==>
      r.0 == if EnterSingleStops(v.filtered, selected, optional) then v else v.(message := RequiredMessage)
    ensures !key.Space? && !key.Enter? ==> r.0 == Browsed(choices, pageSize, v, key)
  {
    match key
    case Enter =>
      (if EnterSingleStops(v.filtered, selected, optional) then v else v.(message := RequiredMessage), selected)
    case Space =>
      var ss := SpaceSingle(selected, v.filtered, v.win.cursor);
      (v.(message := ss.1), ss.0)
    case _ => (Browsed(choices, pageSize, v, key), selected)
  }

  /** A whole single-choice session: a keyboard error ends it with that
      error, Ctrl-C with Interrupted, an Enter that EnterSingleStops accepts
      returns the selection; every other key is a SingleKey step. */
  function SingleSession(choices: seq<Choice>, pageSize: nat, v: ListView, selected: Choice, events: seq<Event>,
                         optional: bool): (Outcome<Choice>, Choice)
    requires ViewOk(choices, pageSize, v)
    decreases |events|
  {
    if events == [] then (Listening, selected)
    else match events[0]
      case ListenError(reason) => (Failed(KeyboardFailure(reason)), selected)
      case Press(key) =>
        if key.CtrlC? then (Failed(Interrupted), selected)
        else if key.Enter? && EnterSingleStops(v.filtered, selected, optional) then (Returned(selected), selected)
        else
          var r := SingleKey(choices, pageSize, v, selected, key, optional);
          SingleSession(choices, pageSize, r.0, r.1, events[1..], optional)
  }

  /** What a single-choice session promises, from a selection `init` on: the
      selection stays `init`, nothing, or an enabled configured choice; a
      required prompt never returns nothing; the only failures are an
      interrupt and a keyboard error. */
  lemma {:induction false} SingleSessionBounds(choices: seq<Choice>, pageSize: nat, v: ListView, selected: Choice,
                                               events: seq<Event>, optional: bool, init: Choice)
    requires ViewOk(choices, pageSize, v)
    requires selected == init || selected == NoChoice || (selected in choices && !selected.disabled)
    ensures var r := SingleSession(choices, pageSize, v, selected, events, optional);
      && (r.1 == init || r.1 == NoChoice || (r.1 in choices && !r.1.disabled))
      && (r.0.Returned? ==> r.0.value == r.1 && (optional || r.1 != NoChoice))
      && (r.0.Failed? ==> r.0.error == Interrupted || r.0.error.KeyboardFailure?)
    decreases |events|
  {
    if events != [] && events[0].Press? {
      var key := events[0].key;
      if !key.CtrlC? && !(key.Enter? && EnterSingleStops(v.filtered, selected, optional)) {
        var r := SingleKey(choices, pageSize, v, selected, key, optional);
        if key.Space? && v.filtered != [] {
          FilterMembers(choices, v.query, v.filtered[v.win.cursor]);
        }
        SingleSessionBounds(choices, pageSize, r.0, r.1, events[1..], optional, init);
      }
    }
  }

  // ---- Item rows -------------------------------------------------------------

  /** The glyph configuration of a selection prompt. */
  datatype Markers = Markers(cursorIndicator: string, selectionMarker: string, disabledMarker: string)

  /** The style roles the item rows are decorated with. */
  datatype Role =
    | DisabledItemMarker | DisabledItemLabel
    | SelectedItemMarker | SelectedItemLabel
    | CurrentItemMarker | CurrentItemLabel
    | ListItemLabel

  /** The six ways a row can look, in renderChoice's order of precedence. */
  datatype RowStyle = DisabledCurrent | SelectedCurrent | DisabledRow | SelectedRow | CurrentRow | PlainRow

  /** The row style ties each visible trait to one flag: the cursor shows
      exactly on the current row, the disabled look exactly on disabled
      choices, and the selected look exactly on selected enabled choices. */
  function StyleOf(disabled: bool, cur: bool, sel: bool): (s: RowStyle)
    ensures (s == DisabledCurrent || s == SelectedCurrent || s == CurrentRow) <==> cur
    ensures (s == DisabledCurrent || s == DisabledRow) <==> disabled
    ensures (s == SelectedCurrent || s == SelectedRow) <==> sel && !disabled
  {
    if disabled && cur then DisabledCurrent
    else if sel && cur then SelectedCurrent
    else if disabled then DisabledRow
    else if sel then SelectedRow
    else if cur then CurrentRow
    else PlainRow
  }

  function Spaces(n: nat): (r: string)
    ensures |r| == n && forall i :: 0 <= i < n ==> r[i] == ' '
  {
    seq(n, _ => ' ')
  }

  /** renderChoice, with display width taken as the number of characters. */
  function RenderChoice(c: Choice, cur: bool, sel: bool, mk: Markers, deco: (Role, string) -> string): string
  {
    var cursorSpacer := Spaces(|mk.cursorIndicator|);
    var selectionSpacer := Spaces(|mk.selectionMarker|);
    match StyleOf(c.disabled, cur, sel)
    case DisabledCurrent =>
      deco(DisabledItemMarker, mk.cursorIndicator + mk.disabledMarker) + deco(DisabledItemLabel, c.caption)
    case SelectedCurrent =>
      deco(SelectedItemMarker, mk.cursorIndicator + mk.selectionMarker) + deco(SelectedItemLabel, c.caption)
    case DisabledRow =>
      cursorSpacer + deco(DisabledItemMarker, mk.disabledMarker) + deco(DisabledItemLabel, c.caption)
    case SelectedRow =>
      cursorSpacer + deco(SelectedItemMarker, mk.selectionMarker) + deco(SelectedItemLabel, c.caption)
    case CurrentRow =>
      deco(CurrentItemMarker, mk.cursorIndicator) + selectionSpacer + deco(CurrentItemLabel, c.caption)
    case PlainRow =>
      cursorSpacer + selectionSpacer + deco(ListItemLabel, c.caption)
  }

  /** Undecorated, a row is the cursor indicator (or as many spaces) on the
      current row, then the disabled marker on a disabled choice, the
      selection marker on a selected one, or spaces, then the label. */
  lemma RowLayout(c: Choice, cur: bool, sel: bool, mk: Markers)
    ensures RenderChoice(c, cur, sel, mk, (role, s) => s)
      == (if cur then mk.cursorIndicator else Spaces(|mk.cursorIndicator|))
         + (if c.disabled then mk.disabledMarker
            else if sel then mk.selectionMarker
            else Spaces(|mk.selectionMarker|))
         + c.caption
  {
  }

  /** The item part of a frame: the window's choices, then blank rows, so that
      a frame always has exactly `pageSize` item rows. */
  function ItemRows(filtered: seq<Choice>, w: Window, pageSize: nat, isSelected: Choice -> bool,
                    mk: Markers, deco: (Role, string) -> string): (rows: seq<string>)
    requires WindowOk(w, |filtered|, pageSize)
    ensures |rows| == pageSize
    ensures forall k :: 0 <= k < w.end - w.start ==>
      rows[k] == RenderChoice(filtered[w.start + k], w.start + k == w.cursor,
                              isSelected(filtered[w.start + k]), mk, deco)
    ensures forall k :: w.end - w.start <= k < |rows| ==> rows[k] == ""
  {
    var shown := w.end - w.start;
    seq(shown, k requires 0 <= k < shown =>
      RenderChoice(filtered[w.start + k], w.start + k == w.cursor, isSelected(filtered[w.start + k]), mk, deco))
    + seq(Max(0, pageSize - shown) as nat, _ => "")
  }
}
