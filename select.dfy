/** The single-choice and multi-choice list prompts. Each prompt object keeps
    its configuration and its selection in fields (the selection survives
    from one Render to the next); each Render creates a fresh ListState for
    the session and feeds it one key event at a time. Both variants share
    ListState's navigation, search and filtering; they differ only in what
    Space and Enter do. */
module Select {
  import opened Common
  import opened Listing

  /** filterChoices: the loop that collects the matching choices. */
  method FilterChoices(choices: seq<Choice>, query: string) returns (filtered: seq<Choice>)
    ensures filtered == Filter(choices, query)
  {
    if query == "" {
      return choices;
    }
    filtered := [];
    var q := Lower(query);
    for i := 0 to |choices|
      invariant filtered == Keep(choices[..i], query)
    {
      assert choices[..i + 1][..i] == choices[..i];
      if Contains(Lower(choices[i].caption), q) {
        filtered := filtered + [choices[i]];
      }
    }
    assert choices[..|choices|] == choices;
  }

  /** isSelected: whether some selected choice has the same value. */
  method IsSelected(sel: seq<Choice>, c: Choice) returns (found: bool)
    ensures found <==> c.value in Values(sel)
  {
    var i := 0;
    while i < |sel|
      invariant 0 <= i <= |sel|
      invariant forall j :: 0 <= j < i ==> sel[j].value != c.value
    {
      if sel[i].value == c.value {
        return true;
      }
      i := i + 1;
    }
    return false;
  }

  /** The state of one selection session: the filtered list, the cursor and
      its window, search mode and query, and the validation message. */
  class ListState {
    const choices: seq<Choice>
    const pageSize: nat
    var filtered: seq<Choice>
    var cursor: nat
    var start: nat
    var end: nat
    var searchMode: bool
    var query: string
    var message: string

    function Win(): Window
      reads this
    {
      Window(cursor, start, end)
    }

    function View(): ListView
      reads this
    {
      ListView(filtered, Win(), searchMode, query, message)
    }

    /** The filter is in force whatever the mode, and the window invariant holds. */
    ghost predicate Valid()
      reads this
    {
      ViewOk(choices, pageSize, View())
    }

    /** The session's start: the whole list, the first page, browsing mode. */
    constructor (choices: seq<Choice>, pageSize: nat)
      requires 1 <= pageSize <= |choices|
      ensures Valid()
      ensures this.choices == choices && this.pageSize == pageSize
      ensures filtered == choices && Win() == Window(0, 0, pageSize)
      ensures !searchMode && query == "" && message == ""
      ensures View() == StartView(choices, pageSize)
    {
      this.choices := choices;
      this.pageSize := pageSize;
      filtered := choices;
      cursor := 0;
      start := 0;
      end := Min(|choices|, pageSize);
      searchMode := false;
      query := "";
      message := "";
    }

    method NavigateUp()
      requires Valid()
      modifies this`cursor, this`start, this`end
      ensures Valid()
      ensures Win() == NavUp(old(Win()), |filtered|, pageSize)
    {
      if cursor > 0 {
        cursor := cursor - 1;
        if cursor < start {
          start := cursor;
          end := Min(start + pageSize, |filtered|);
        }
      }
    }

    method NavigateDown()
      requires Valid()
      modifies this`cursor, this`start, this`end
      ensures Valid()
      ensures Win() == NavDown(old(Win()), |filtered|, pageSize)
    {
      if cursor < |filtered| - 1 {
        cursor := cursor + 1;
        if cursor >= end {
          end := cursor + 1;
          start := Max(0, end - pageSize);
        }
      }
    }

    method ResetCursorAfterFilter()
      requires pageSize >= 1
      modifies this`cursor, this`start, this`end
      ensures Win() == Refit(old(Win()), |filtered|, pageSize)
    {
      if |filtered| == 0 {
        cursor, start, end := 0, 0, 0;
        return;
      }
      if cursor >= |filtered| {
        cursor := |filtered| - 1;
      }
      if cursor < start {
        start := cursor;
      }
      if cursor >= start + pageSize {
        start := Max(0, cursor - pageSize + 1);
      }
      end := Min(start + pageSize, |filtered|);
    }

    /** A new query: refilter the full list and refit the cursor and window. */
    method SetQuery(q: string)
      requires pageSize >= 1
      modifies this`query, this`filtered, this`cursor, this`start, this`end
      ensures query == q && filtered == Filter(choices, q)
      ensures Win() == Refit(old(Win()), |filtered|, pageSize)
    {
      query := q;
      filtered := FilterChoices(choices, q);
      ResetCursorAfterFilter();
    }

    /** The key handling both variants share: every key but Ctrl-C, Enter and
        Space, done in place as Browsed says. */
    method Browse(key: Key)
      requires Valid()
      requires !key.CtrlC? && !key.Enter? && !key.Space?
      modifies this`cursor, this`start, this`end, this`searchMode, this`query, this`filtered
      ensures Valid()
      ensures View() == Browsed(choices, pageSize, old(View()), key)
    {
      match key
      case Up => NavigateUp();
      case Left => NavigateUp();
      case Down => NavigateDown();
      case Right => NavigateDown();
      case Tab => searchMode := !searchMode;
      case Escape =>
        if searchMode {
          searchMode := false;
        }
      case Backspace =>
        if searchMode && |query| > 0 {
          SetQuery(query[..|query| - 1]);
        }
      case RuneKey(runes) =>
        if |runes| > 0 {
          var pressed := runes[0];
          if searchMode {
            SetQuery(query + [pressed]);
          } else if pressed == 'j' || pressed == 'l' {
            NavigateDown();
          } else if pressed == 'k' || pressed == 'h' {
            NavigateUp();
          }
        }
      case OtherKey =>
    }
  }

  /** The selection the multi-choice prompt starts from: the in-range default
      indices' choices in the given order when defaults are configured,
      otherwise whatever the previous Render left behind. */
  function InitialSelection(previous: seq<Choice>, choices: seq<Choice>, defaults: seq<int>): (r: seq<Choice>)
    ensures |defaults| == 0 ==> r == previous
    ensures |defaults| > 0 ==> r == Picks(choices, defaults)
  {
    if |defaults| > 0 then Picks(choices, defaults) else previous
  }

  /** The choice the single-choice prompt starts from: the default when its
      index is in range, otherwise whatever the previous Render left behind. */
  function InitialChoice(previous: Choice, choices: seq<Choice>, defaultChoice: int): (r: Choice)
    ensures 0 <= defaultChoice < |choices| ==> r == choices[defaultChoice]
    ensures !(0 <= defaultChoice < |choices|) ==> r == previous
  {
    if 0 <= defaultChoice < |choices| then choices[defaultChoice] else previous
  }

  /** The multi-choice prompt. */
  class MultiSelect {
    var choices: seq<Choice>
    var defaultChoices: seq<int>
    var optional: bool
    var minSelectedCount: int
    var maxSelectedCount: int
    var pageSize: int
    var markers: Markers
    var selectedChoices: seq<Choice>

    /** NewMultiSelect's defaults. */
    constructor ()
      ensures choices == [] && defaultChoices == [] && !optional
      ensures minSelectedCount == 0 && maxSelectedCount == 0 && pageSize == 7
      ensures markers == Markers(" >", "+ ", "x ") && selectedChoices == []
    {
      choices := [];
      defaultChoices := [];
      optional := false;
      minSelectedCount := 0;
      maxSelectedCount := 0;
      pageSize := 7;
      markers := Markers(" >", "+ ", "x ");
      selectedChoices := [];
    }

    method WithChoices(ch: seq<Choice>)
      modifies this`choices
      ensures choices == ch
    {
      choices := ch;
    }

    /** An empty list of indices leaves the configured defaults alone. */
    method WithDefaultChoice(idxs: seq<int>)
      modifies this`defaultChoices
      ensures defaultChoices == if |idxs| > 0 then idxs else old(defaultChoices)
    {
      if |idxs| > 0 {
        defaultChoices := idxs;
      }
    }

    method Optional()
      modifies this`optional
      ensures optional
    {
      optional := true;
    }

    method WithMinSelectedCount(n: int)
      modifies this`minSelectedCount
      ensures minSelectedCount == Max(n, 0)
    {
      minSelectedCount := Max(n, 0);
    }

    method WithMaxSelectedCount(n: int)
      modifies this`maxSelectedCount
      ensures maxSelectedCount == Max(n, 0)
    {
      maxSelectedCount := Max(n, 0);
    }

    /** The page size is stored as given, not clamped. */
    method WithPageSize(n: int)
      modifies this`pageSize
      ensures pageSize == n
    {
      pageSize := n;
    }

    method WithCursorIndicator(ind: string)
      modifies this`markers
      ensures markers == old(markers).(cursorIndicator := ind)
    {
      markers := markers.(cursorIndicator := ind);
    }

    method WithSelectionMarker(mrk: string)
      modifies this`markers
      ensures markers == old(markers).(selectionMarker := mrk)
    {
      markers := markers.(selectionMarker := mrk);
    }

    method WithDisabledMarker(mrk: string)
      modifies this`markers
      ensures markers == old(markers).(disabledMarker := mrk)
    {
      markers := markers.(disabledMarker := mrk);
    }

    /** toggleSelection: splice out the first choice with the same value, or
        append the choice when the raw configured maximum leaves room. */
    method Toggle(c: Choice)
      modifies this`selectedChoices
      ensures selectedChoices == Toggled(old(selectedChoices), c, maxSelectedCount)
    {
      var i := 0;
      while i < |selectedChoices|
        invariant 0 <= i <= |selectedChoices|
        invariant selectedChoices == old(selectedChoices)
        invariant forall j :: 0 <= j < i ==> selectedChoices[j].value != c.value
      {
        if selectedChoices[i].value == c.value {
          selectedChoices := selectedChoices[..i] + selectedChoices[i + 1..];
          return;
        }
        i := i + 1;
      }
      if maxSelectedCount == 0 || |selectedChoices| < maxSelectedCount {
        selectedChoices := selectedChoices + [c];
      }
    }

    /** One key press of the session, done in place as MultiKey says; `stop`
        ends the listening loop. */
    method HandleKey(st: ListState, key: Key, minRequired: nat, maxAllowed: nat)
      returns (stop: bool, interrupted: bool)
      requires st.Valid()
      modifies this`selectedChoices, st
      ensures st.Valid()
      ensures interrupted <==> key.CtrlC?
      ensures stop <==> key.CtrlC? || (key.Enter? && |old(selectedChoices)| >= minRequired)
      ensures (st.View(), selectedChoices)
        == MultiKey(st.choices, st.pageSize, old(st.View()), old(selectedChoices), key,
                    minRequired, maxAllowed, maxSelectedCount)
    {
      stop, interrupted := false, false;
      match key
      case CtrlC =>
        stop, interrupted := true, true;
      case Enter =>
        if |selectedChoices| < minRequired {
          st.message := AtLeastMessage(minRequired);
        } else {
          stop := true;
        }
      case Space =>
        if |st.filtered| == 0 {
          st.message := NoChoicesMessage;
          return;
        }
        var current := st.filtered[st.cursor];
        if current.disabled {
          st.message := DisabledMessage;
          return;
        }
        var already := IsSelected(selectedChoices, current);
        if !already && |selectedChoices| >= maxAllowed {
          st.message := AtMostMessage(maxAllowed);
          return;
        }
        Toggle(current);
        if |selectedChoices| < minRequired {
          st.message := AtLeastMessage(minRequired);
        } else {
          st.message := "";
        }
      case _ =>
        st.Browse(key);
    }

    /** The entry checks, in the order Render makes them, before anything is drawn. */
    function EntryError(makeSpace: int -> bool): (e: Option<PromptError>)
      reads this
      ensures e == None <==>
        makeSpace(9 + Min(pageSize, |choices|)) && choices != []
        && MinRequired(minSelectedCount, optional) <= MaxAllowed(maxSelectedCount, |choices|)
      ensures !makeSpace(9 + Min(pageSize, |choices|)) ==> e == Some(TerminalTooSmall)
      ensures makeSpace(9 + Min(pageSize, |choices|)) && choices == [] ==> e == Some(NoSelectionChoices)
      ensures makeSpace(9 + Min(pageSize, |choices|)) && choices != []
        && MinRequired(minSelectedCount, optional) > MaxAllowed(maxSelectedCount, |choices|)
        ==> e == Some(InvalidSelectionCount)
    {
      if !makeSpace(9 + Min(pageSize, |choices|)) then Some(TerminalTooSmall)
      else if choices == [] then Some(NoSelectionChoices)
      else if MinRequired(minSelectedCount, optional) > MaxAllowed(maxSelectedCount, |choices|)
      then Some(InvalidSelectionCount)
      else None
    }

    /** Render's first step: non-empty defaults replace the selection by the
        choices at the in-range default indexes, in order. */
    method ApplyDefaults()
      modifies this`selectedChoices
      ensures selectedChoices == InitialSelection(old(selectedChoices), choices, defaultChoices)
    {
      if |defaultChoices| > 0 {
        selectedChoices := [];
        for k := 0 to |defaultChoices|
          invariant selectedChoices == Picks(choices, defaultChoices[..k])
        {
          assert defaultChoices[..k + 1][..k] == defaultChoices[..k];
          var idx := defaultChoices[k];
          if 0 <= idx < |choices| {
            selectedChoices := selectedChoices + [choices[idx]];
          }
        }
        assert defaultChoices[..|defaultChoices|] == defaultChoices;
      }
    }

    /** Render: the entry checks, then the defaults, then one key event at a
        time until Enter is accepted, Ctrl-C is pressed or the keyboard
        fails, exactly as MultiSession says. `makeSpace` says whether the
        terminal can make room for the given number of rows. */
    method Render(events: seq<Event>, makeSpace: int -> bool) returns (out: Outcome<seq<Choice>>)
      modifies this`selectedChoices
      ensures EntryError(makeSpace).Some? ==>
        out == Failed(EntryError(makeSpace).value) && selectedChoices == old(selectedChoices)
      ensures EntryError(makeSpace).None? ==>
        var ps := PageRows(pageSize, |choices|);
        (out, selectedChoices)
          == MultiSession(choices, ps, StartView(choices, ps),
                          InitialSelection(old(selectedChoices), choices, defaultChoices), events,
                          MinRequired(minSelectedCount, optional), MaxAllowed(maxSelectedCount, |choices|),
                          maxSelectedCount)
      ensures EntryError(makeSpace).None? ==>
        var init := InitialSelection(old(selectedChoices), choices, defaultChoices);
        && |selectedChoices| <= Max(|init|, MaxAllowed(maxSelectedCount, |choices|))
        && (forall c :: c in selectedChoices ==> c in init || (c in choices && !c.disabled))
        && (out.Returned? ==> out.value == selectedChoices
                              && |selectedChoices| >= MinRequired(minSelectedCount, optional))
        && (out.Failed? ==> out.error == Interrupted || out.error.KeyboardFailure?)
    {
      var failure := EntryError(makeSpace);
      if failure.Some? {
        return Failed(failure.value);
      }
      // a configured page size below 1 pages one row at a time: only the drawn rows differ
      var ps := Max(1, Min(pageSize, |choices|));
      var minRequired := MinRequired(minSelectedCount, optional);
      var maxAllowed := MaxAllowed(maxSelectedCount, |choices|);

      assert ps == PageRows(pageSize, |choices|);
      ApplyDefaults();
      ghost var start := StartView(choices, ps);
      MultiSessionBounds(choices, ps, start, selectedChoices, events,
                         minRequired, maxAllowed, maxSelectedCount, selectedChoices);
      var st := new ListState(choices, ps);
      assert st.View() == start;
      out := Listen(st, events, minRequired, maxAllowed);
    }

    /** The listening loop: one key event at a time until the session ends. */
    method Listen(st: ListState, events: seq<Event>, minRequired: nat, maxAllowed: nat)
      returns (out: Outcome<seq<Choice>>)
      requires st.Valid()
      modifies this`selectedChoices, st
      ensures (out, selectedChoices)
        == MultiSession(st.choices, st.pageSize, old(st.View()), old(selectedChoices), events,
                        minRequired, maxAllowed, maxSelectedCount)
    {
      var i := 0;
      while i < |events|
        invariant 0 <= i <= |events|
        invariant st.Valid()
        invariant MultiSession(st.choices, st.pageSize, old(st.View()), old(selectedChoices), events,
                               minRequired, maxAllowed, maxSelectedCount)
          == MultiSession(st.choices, st.pageSize, st.View(), selectedChoices, events[i..],
                          minRequired, maxAllowed, maxSelectedCount)
      {
        assert events[i..][0] == events[i] && events[i..][1..] == events[i + 1..];
        match events[i]
        case ListenError(reason) =>
          return Failed(KeyboardFailure(reason));
        case Press(key) =>
          var stop, interrupted := HandleKey(st, key, minRequired, maxAllowed);
          if interrupted {
            return Failed(Interrupted);
          }
          if stop {
            return Returned(selectedChoices);
          }
        i := i + 1;
      }
      return Listening;
    }
  }

  /** The single-choice prompt. */
  class SingleSelect {
    var choices: seq<Choice>
    var defaultChoice: int
    var optional: bool
    var pageSize: int
    var markers: Markers
    var selectedChoice: Choice

    /** NewSingleSelect's defaults; -1 means no default choice. */
    constructor ()
      ensures choices == [] && defaultChoice == -1 && !optional && pageSize == 10
      ensures markers == Markers(" >", "+ ", "x ") && selectedChoice == NoChoice
    {
      choices := [];
      defaultChoice := -1;
      optional := false;
      pageSize := 10;
      markers := Markers(" >", "+ ", "x ");
      selectedChoice := NoChoice;
    }

    method WithChoices(ch: seq<Choice>)
      modifies this`choices
      ensures choices == ch
    {
      choices := ch;
    }

    /** A negative index is raised to 0. */
    method WithDefaultChoice(idx: int)
      modifies this`defaultChoice
      ensures defaultChoice == Max(0, idx)
    {
      defaultChoice := Max(0, idx);
    }

    method Optional()
      modifies this`optional
      ensures optional
    {
      optional := true;
    }

    /** The page size is stored as given, not clamped. */
    method WithPageSize(n: int)
      modifies this`pageSize
      ensures pageSize == n
    {
      pageSize := n;
    }

    method WithCursorIndicator(ind: string)
      modifies this`markers
      ensures markers == old(markers).(cursorIndicator := ind)
    {
      markers := markers.(cursorIndicator := ind);
    }

    method WithSelectionMarker(mrk: string)
      modifies this`markers
      ensures markers == old(markers).(selectionMarker := mrk)
    {
      markers := markers.(selectionMarker := mrk);
    }

    method WithDisabledMarker(mrk: string)
      modifies this`markers
      ensures markers == old(markers).(disabledMarker := mrk)
    {
      markers := markers.(disabledMarker := mrk);
    }

    /** One key press of the session, done in place as SingleKey says; `stop`
        ends the listening loop. */
    method HandleKey(st: ListState, key: Key) returns (stop: bool, interrupted: bool)
      requires st.Valid()
      modifies this`selectedChoice, st
      ensures st.Valid()
      ensures interrupted <==> key.CtrlC?
      ensures stop <==> key.CtrlC? || (key.Enter? && EnterSingleStops(old(st.filtered), old(selectedChoice), optional))
      ensures (st.View(), selectedChoice)
        == SingleKey(st.choices, st.pageSize, old(st.View()), old(selectedChoice), key, optional)
    {
      stop, interrupted := false, false;
      match key
      case CtrlC =>
        stop, interrupted := true, true;
      case Enter =>
        if |st.filtered| == 0 || selectedChoice == NoChoice {
          if optional {
            stop := true;
          } else {
            st.message := RequiredMessage;
          }
        } else {
          stop := true;
        }
      case Space =>
        if |st.filtered| == 0 {
          st.message := NoChoicesMessage;
          return;
        }
        var current := st.filtered[st.cursor];
        if current.disabled {
          st.message := DisabledMessage;
          return;
        }
        if selectedChoice.value == current.value {
          selectedChoice := NoChoice;
        } else {
          selectedChoice := current;
        }
        st.message := "";
      case _ =>
        st.Browse(key);
    }

    /** The entry checks, in the order Render makes them. */
    function EntryError(makeSpace: int -> bool): (e: Option<PromptError>)
      reads this
      ensures e == None <==> makeSpace(9 + Min(pageSize, |choices|)) && choices != []
      ensures !makeSpace(9 + Min(pageSize, |choices|)) ==> e == Some(TerminalTooSmall)
      ensures makeSpace(9 + Min(pageSize, |choices|)) && choices == [] ==> e == Some(NoSelectionChoices)
    {
      if !makeSpace(9 + Min(pageSize, |choices|)) then Some(TerminalTooSmall)
      else if choices == [] then Some(NoSelectionChoices)
      else None
    }

    /** Render: the entry checks, then the default, then one key event at a
        time until Enter is accepted, Ctrl-C is pressed or the keyboard fails,
        exactly as SingleSession says. */
    method Render(events: seq<Event>, makeSpace: int -> bool) returns (out: Outcome<Choice>)
      modifies this`selectedChoice
      ensures EntryError(makeSpace).Some? ==>
        out == Failed(EntryError(makeSpace).value) && selectedChoice == old(selectedChoice)
      ensures EntryError(makeSpace).None? ==>
        var ps := PageRows(pageSize, |choices|);
        var init := InitialChoice(old(selectedChoice), choices, defaultChoice);
        (out, selectedChoice) == SingleSession(choices, ps, StartView(choices, ps), init, events, optional)
      ensures EntryError(makeSpace).None? ==>
        var init := InitialChoice(old(selectedChoice), choices, defaultChoice);
        && (selectedChoice == init || selectedChoice == NoChoice
            || (selectedChoice in choices && !selectedChoice.disabled))
        && (out.Returned? ==> out.value == selectedChoice && (optional || selectedChoice != NoChoice))
        && (out.Failed? ==> out.error == Interrupted || out.error.KeyboardFailure?)
    {
      var failure := EntryError(makeSpace);
      if failure.Some? {
        return Failed(failure.value);
      }
      // a configured page size below 1 pages one row at a time: only the drawn rows differ
      var ps := Max(1, Min(pageSize, |choices|));
      selectedChoice := InitialChoice(selectedChoice, choices, defaultChoice);
      assert ps == PageRows(pageSize, |choices|);
      ghost var start := StartView(choices, ps);
      SingleSessionBounds(choices, ps, start, selectedChoice, events, optional, selectedChoice);
      var st := new ListState(choices, ps);
      assert st.View() == start;
      out := Listen(st, events);
    }

    /** The listening loop: one key event at a time until the session ends. */
    method Listen(st: ListState, events: seq<Event>) returns (out: Outcome<Choice>)
      requires st.Valid()
      modifies this`selectedChoice, st
      ensures (out, selectedChoice)
        == SingleSession(st.choices, st.pageSize, old(st.View()), old(selectedChoice), events, optional)
    {
      var i := 0;
      while i < |events|
        invariant 0 <= i <= |events|
        invariant st.Valid()
        invariant SingleSession(st.choices, st.pageSize, old(st.View()), old(selectedChoice), events, optional)
          == SingleSession(st.choices, st.pageSize, st.View(), selectedChoice, events[i..], optional)
      {
        assert events[i..][0] == events[i] && events[i..][1..] == events[i + 1..];
        match events[i]
        case ListenError(reason) =>
          return Failed(KeyboardFailure(reason));
        case Press(key) =>
          var stop, interrupted := HandleKey(st, key);
          if interrupted {
            return Failed(Interrupted);
          }
          if stop {
            return Returned(selectedChoice);
          }
        i := i + 1;
      }
      return Listening;
    }
  }
}
