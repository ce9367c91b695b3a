# asky, modelled in Dafny

asky is a Go toolkit for interactive terminal prompts. It has a free-text
input and a secret input, a single-choice and a multi-choice list with
search, a banner, a status line, and a small ANSI styling layer that
every widget uses. This project models the logic of those widgets and
proves it against specifications:

- **List prompts** (`listing.dfy`, `select.dfy`).
  - The pure rules: the visible window and how navigation and re-filtering
    move it, the case-insensitive search filter, what Space and Enter do to
    the selection, and how an item row is laid out.
  - The pure rules also define a whole session: `MultiSession` and
    `SingleSession` take the key events one at a time and give the
    prompt's outcome and final selection.
  - The prompt objects: the `singleSelect` and `multiSelect` classes,
    their setters, and a session state class `ListState`. The Go closures
    update captured variables; here they are methods that update
    `ListState`'s fields. Each method is proved to follow the pure rules,
    and each Render is proved to produce exactly its session.
- **Input prompts** (`input.dfy`).
  - The rune-buffer editor that both input prompts share, as a class
    `LineEditor` proved against a pure edit function.
  - The listening loop, proved against a pure session function `Run`.
  - The placeholder and echo rules, and the `TextInput` and `SecureInput`
    classes with their setters.
- **Styles** (`styles.dfy`).
  - Colour strings and their SGR parameters (`toSGR`, including its
    comma-scanning loop).
  - The `ColorFrom*` constructors, with round trips from RGB and ANSI
    colours to SGR parameters.
  - The `attribs` class and its `Sprint`, whose escape-code builder loop is
    proved against a specification.
- **Banner** (`banner.dfy`). The value-copy setters, the pad-repeat loop,
  `padLine`'s truncation and alignment arithmetic, and the order of
  `Render`'s lines.
- **Status line** (`status.dfy`). The value-copy setters, the prefix
  fallback, the level-to-prefix mapping and the single output line.
- **Shared values** (`common.dfy`). `Choice`, the sentinel errors, keys and
  keyboard events, and the few `strings`/`strconv` helpers the prompts use.

The keyboard source, `keyboard.Listen`, is a sequence of events: a key
press, or an error that ends listening. A Render returns one of three
outcomes: the prompt's value, its error, or `Listening` when the events
run out while the prompt still waits. The terminal-space check `makeSpace`
is a predicate parameter on the number of rows requested. The terminal
width query is an `Option<int>` parameter. Styling inside renderers is an
abstract function from a style role and a text to the decorated text.
`Sprint` itself is modelled separately, in `styles.dfy`, with the
`NO_COLOR` and no-terminal flags as parameters.

The code and its documentation differ in a few places. The model follows
the code:

- `WithWidth` stores `min(0, width)`, so the stored width is never
  positive.
- The text prompt shows its default value in the placeholder but never
  returns it. Enter returns the typed buffer, which may be empty.
- The multi-choice prompt's initial selection is not deduplicated. A
  default index named twice selects its choice twice
  (`Listing.SpaceTwiceLosesDuplicateDefault`).
- The single-choice prompt takes the zero `Choice{}` to mean "nothing
  selected". A choice whose value is empty therefore cannot become the
  selection from nothing (`Listing.EmptyValueNeverSelected`). It can still
  replace another selection, or be the configured default.

## Model

| member | source | states |
|---|---|---|
| Common.NatToString | asky_styles.go:93-96 | strconv.Itoa of a natural number: at least one character, all decimal digits, no leading zero from 10 on |
| Common.NatToStringValue | asky_styles.go:93-96 | the digits read back as a decimal number give the number itself |
| Common.Lower | asky_prompt_select_multi.go:178-181 | strings.ToLower: same length, each letter lowered position by position |
| Common.TrimLineEnds | asky_prompt_input_text.go:183 | strings.TrimRight(s, "\r\n"): a prefix of the input, with no CR or LF at its end and only CR/LF removed |
| Listing.NavUp | asky_prompt_select_multi.go:213-222 | navigateUp keeps the window invariant; the cursor moves up one unless it is at the top; the window moves only when the cursor leaves it, and then starts at the cursor with a full page, cut at the list end |
| Listing.NavDown | asky_prompt_select_multi.go:225-234 | navigateDown keeps the window invariant; the cursor moves down one unless it is at the bottom; a cursor that passes the window's end makes the window end just after it and start a page earlier, but not before 0 |
| Listing.Refit | asky_prompt_select_multi.go:189-210 | resetCursorAfterFilter establishes the window invariant for the new list length from any old window; the cursor is clamped to the last item; the window slides only as far as needed to show it (start at the cursor if it lies before, or a page back from it if it lies beyond), and it ends a full page later, cut at the list end |
| Listing.Filter | asky_prompt_select_multi.go:172-186 | filterChoices returns the whole list for an empty query, else the choices whose lowercased label contains the lowercased query |
| Listing.KeepMembers | asky_prompt_select_multi.go:180-184 | a choice survives filtering exactly when it is in the list and matches |
| Listing.KeepConcat | asky_prompt_select_multi.go:180-184 | filtering keeps the original order: it distributes over concatenation |
| Listing.KeepOne | asky_prompt_select_multi.go:181-183 | one choice is kept exactly when it matches |
| Listing.FilterMembers | asky_prompt_select_multi.go:172-186 | every filtered choice comes from the configured list |
| Listing.FirstWithValue | asky_prompt_select_multi.go:239-244 | the removal loop finds the first selected choice with the value, or finds none exactly when the value is not selected |
| Listing.Toggled | asky_prompt_select_multi.go:237-249 | toggleSelection adds only the toggled choice; a selected value loses exactly its first entry, the rest keeping their order; an absent value is appended exactly when the raw maximum is 0 or leaves room, and otherwise nothing changes |
| Listing.Picks | asky_prompt_select_multi.go:305-312 | the default indices give only configured choices, at most one per index |
| Listing.PicksConcat | asky_prompt_select_multi.go:307-311 | the defaults are taken in index-list order: picking distributes over concatenation |
| Listing.PicksOne | asky_prompt_select_multi.go:308-310 | an in-range index picks its choice; an out-of-range one picks nothing |
| Listing.MinRequired | asky_prompt_select_multi.go:94-97 | the minimum is the configured one when positive, else 1 for a required prompt and 0 for an optional one |
| Listing.MaxAllowed | asky_prompt_select_multi.go:98-101 | the maximum is the configured one when positive, else the number of choices |
| Listing.SpaceMultiRules | asky_prompt_select_multi.go:339-359 | Space on an empty list, a disabled choice, or an unselected choice at the maximum changes nothing and sets the matching message; otherwise it toggles the current choice as Toggled says: a selected value loses one entry, an unselected one is appended when the maximum leaves room; it never raises the count above the maximum; it adds only the enabled current choice; after a toggle the message tells whether the minimum is met |
| Listing.SpaceMultiTwice | asky_prompt_select_multi.go:237-249 | Space twice on an enabled choice restores the set of selected values and the count, when values are distinct and the maximum is respected |
| Listing.RemoveThenAppend | asky_prompt_select_multi.go:239-247 | removing the only choice with a value and appending it again keeps the set of values and the count |
| Listing.AppendThenRemove | asky_prompt_select_multi.go:239-243 | appending an absent value and toggling it again gives the old selection back |
| Listing.SpaceTwiceLosesDuplicateDefault | asky_prompt_select_multi.go:305-312 | a default index named twice makes a selection that two Spaces empty instead of restoring |
| Listing.SpaceSingle | asky_prompt_select_single.go:298-313 | single-select Space reports on an empty list or a disabled choice; otherwise it clears a selection with the same value or replaces it; the result is the old selection, nothing, or the enabled current choice |
| Listing.SpaceSingleTwice | asky_prompt_select_single.go:308-312 | Space twice on an enabled choice with a non-empty value selects it and then clears it |
| Listing.EmptyValueNeverSelected | asky_prompt_select_single.go:308-309 | from nothing selected, Space on a choice whose value is empty leaves nothing selected |
| Listing.EnterSingleStops | asky_prompt_select_single.go:289-297 | Enter stops exactly when the prompt is optional or there is a visible list and a selection |
| Listing.PageRows | asky_prompt_select_multi.go:89 | the session page size: at least 1, at most the number of choices, and the configured one when it lies between |
| Listing.StartView | asky_prompt_select_multi.go:85-93 | a session starts with the whole list, the cursor and window at the top, browsing mode, no query and no message, with the session invariant holding |
| Listing.Requery | asky_prompt_select_multi.go:360-364 | a new query refilters the whole list, refits the window, and keeps the mode and message |
| Listing.Browsed | asky_prompt_select_multi.go:323-383 | the keys common to both list prompts keep the session invariant and the message; the query changes only in search mode; the list changes only with the query |
| Listing.BrowsedKeys | asky_prompt_select_multi.go:323-383 | key by key: arrows and vi keys outside search mode move only the window; Tab flips and Escape clears search mode; in search mode Backspace drops the last query character and a rune appends one, each refiltering and refitting; Ctrl-C, Enter, Space and other keys change nothing |
| Listing.MultiKey | asky_prompt_select_multi.go:333-365 | a multi-choice key that does not end the session: a refused Enter sets the at-least message; Space changes only selection and message, as SpaceMulti says; other keys keep the selection and follow Browsed |
| Listing.MultiSessionBounds | asky_prompt_select_multi.go:318-400 | a multi-choice session never holds more than the maximum (or the initial count), adds only enabled configured choices, returns only a selection that meets the minimum, and fails only by interrupt or keyboard error |
| Listing.SingleKey | asky_prompt_select_single.go:289-313 | a single-choice key that does not end the session: a refused Enter sets the required message; Space changes only selection and message, as SpaceSingle says; other keys keep the selection and follow Browsed |
| Listing.SingleSessionBounds | asky_prompt_select_single.go:274-354 | a single-choice session keeps the initial choice, nothing, or an enabled configured choice; a required prompt never returns nothing; it fails only by interrupt or keyboard error |
| Listing.StyleOf | asky_prompt_select_multi.go:147-168 | the row style shows the cursor exactly on the current row, the disabled look exactly on disabled choices, and the selected look exactly on selected enabled ones |
| Listing.Spaces | asky_prompt_select_multi.go:145-146 | strings.Repeat(" ", n): n spaces |
| Listing.RowLayout | asky_prompt_select_multi.go:144-169 | undecorated, renderChoice writes the cursor indicator on the current row or as many spaces, then the disabled marker, the selection marker or spaces, then the label |
| Listing.ItemRows | asky_prompt_select_multi.go:274-284 | a frame has exactly pageSize item rows: the window's choices rendered in order, then blank rows |
| Select.FilterChoices | asky_prompt_select_multi.go:172-186 | the filter loop computes Filter |
| Select.IsSelected | asky_prompt_select_multi.go:134-141 | isSelected is true exactly when the choice's value is among the selected values |
| Select.ListState.constructor | asky_prompt_select_multi.go:85-93 | a session starts with the whole list, the cursor and window at the first page, browsing mode, no query and no message |
| Select.ListState.NavigateUp | asky_prompt_select_multi.go:213-222 | the in-place navigateUp moves the window as NavUp says and keeps the invariant |
| Select.ListState.NavigateDown | asky_prompt_select_multi.go:225-234 | the in-place navigateDown moves the window as NavDown says and keeps the invariant |
| Select.ListState.ResetCursorAfterFilter | asky_prompt_select_multi.go:189-210 | the in-place resetCursorAfterFilter sets the window to Refit of the old one |
| Select.ListState.SetQuery | asky_prompt_select_multi.go:361-364 | a new query refilters the full list and refits the window |
| Select.ListState.Browse | asky_prompt_select_multi.go:323-383 | the in-place key handling common to both prompts computes Browsed and keeps the invariant |
| Select.InitialSelection | asky_prompt_select_multi.go:305-312 | non-empty defaults replace the selection with their picks; otherwise the previous selection stays |
| Select.InitialChoice | asky_prompt_select_single.go:265-268 | the single-choice prompt starts from the default when its index is in range, else from the previous selection |
| Select.MultiSelect.constructor | asky_prompt_select_multi.go:33-44 | NewMultiSelect's defaults: no choices, no defaults, required, page size 7, markers " >", "+ ", "x " |
| Select.MultiSelect.WithChoices | asky_prompt_select_multi.go:67 | stores the choices |
| Select.MultiSelect.WithDefaultChoice | asky_prompt_select_multi.go:52-57 | stores non-empty defaults; an empty list is ignored |
| Select.MultiSelect.Optional | asky_prompt_select_multi.go:58 | marks the prompt optional |
| Select.MultiSelect.WithMinSelectedCount | asky_prompt_select_multi.go:59-62 | stores max(n, 0) |
| Select.MultiSelect.WithMaxSelectedCount | asky_prompt_select_multi.go:63-66 | stores max(n, 0) |
| Select.MultiSelect.WithPageSize | asky_prompt_select_multi.go:68 | stores the page size as given |
| Select.MultiSelect.WithCursorIndicator | asky_prompt_select_multi.go:69-72 | replaces the cursor indicator only |
| Select.MultiSelect.WithSelectionMarker | asky_prompt_select_multi.go:73-76 | replaces the selection marker only |
| Select.MultiSelect.WithDisabledMarker | asky_prompt_select_multi.go:77-80 | replaces the disabled marker only |
| Select.MultiSelect.Toggle | asky_prompt_select_multi.go:237-249 | the in-place toggleSelection computes Toggled |
| Select.MultiSelect.HandleKey | asky_prompt_select_multi.go:318-387 | one key in place: Ctrl-C interrupts; Enter stops exactly when the minimum is met; the new list state and selection are those MultiKey gives |
| Select.MultiSelect.EntryError | asky_prompt_select_multi.go:103-116 | the entry checks in order: a terminal too small is reported first, then no choices, then a minimum above the maximum; no error exactly when all three pass |
| Select.MultiSelect.ApplyDefaults | asky_prompt_select_multi.go:304-312 | the defaults loop sets the selection to InitialSelection |
| Select.MultiSelect.Listen | asky_prompt_select_multi.go:318-387 | the listening loop computes MultiSession from the session's state: outcome and final selection |
| Select.MultiSelect.Render | asky_prompt_select_multi.go:83-401 | a failed entry check returns its error and keeps the selection; otherwise the outcome and final selection are MultiSession's from the start view and the initial selection, so the count stays within the maximum (or the initial count), only enabled configured choices are added, a returned selection meets the minimum, and the only failures are interrupt and keyboard errors |
| Select.SingleSelect.constructor | asky_prompt_select_single.go:37-48 | NewSingleSelect's defaults: no choices, no default (-1), required, page size 10, markers, nothing selected |
| Select.SingleSelect.WithChoices | asky_prompt_select_single.go:61 | stores the choices |
| Select.SingleSelect.WithDefaultChoice | asky_prompt_select_single.go:56-59 | stores max(0, idx) |
| Select.SingleSelect.Optional | asky_prompt_select_single.go:60 | marks the prompt optional |
| Select.SingleSelect.WithPageSize | asky_prompt_select_single.go:62 | stores the page size as given |
| Select.SingleSelect.WithCursorIndicator | asky_prompt_select_single.go:63-66 | replaces the cursor indicator only |
| Select.SingleSelect.WithSelectionMarker | asky_prompt_select_single.go:67-70 | replaces the selection marker only |
| Select.SingleSelect.WithDisabledMarker | asky_prompt_select_single.go:71-74 | replaces the disabled marker only |
| Select.SingleSelect.HandleKey | asky_prompt_select_single.go:274-341 | one key in place: Ctrl-C interrupts; Enter stops as EnterSingleStops says; the new list state and selection are those SingleKey gives |
| Select.SingleSelect.EntryError | asky_prompt_select_single.go:89-97 | the entry checks in order: a terminal too small is reported first, then no choices; no error exactly when both pass |
| Select.SingleSelect.Listen | asky_prompt_select_single.go:274-341 | the listening loop computes SingleSession from the session's state: outcome and final selection |
| Select.SingleSelect.Render | asky_prompt_select_single.go:77-355 | a failed entry check returns its error; otherwise the outcome and final selection are SingleSession's from the start view and InitialChoice, so the selection is the initial one, nothing, or an enabled configured choice, a required prompt never returns nothing, and the only failures are interrupt and keyboard errors |
| LineInput.MoveLeft | asky_prompt_input_text.go:141-144 | Left moves the cursor back one, stopping at 0, and leaves the buffer alone |
| LineInput.MoveRight | asky_prompt_input_text.go:145-148 | Right moves the cursor forward one, stopping at the end, and leaves the buffer alone |
| LineInput.DeleteBack | asky_prompt_input_text.go:149-153 | Backspace removes the rune before the cursor and keeps what precedes and follows; at the start nothing changes |
| LineInput.Insert | asky_prompt_input_text.go:154-161 | Space or a rune inserts at the cursor and steps past it; the text before stays and the text after shifts by one |
| LineInput.Edit | asky_prompt_input_text.go:141-161 | the key handler's edits: only Left, Right, Backspace, Space and runes change the line; the arrows keep the text; Backspace removes one rune unless at the start; Space and a rune add one and step past it |
| LineInput.Run | asky_prompt_input_text.go:126-183 | an input session fails only by interrupt or keyboard error, and what it returns never ends in CR or LF |
| LineInput.DeleteBackUndoesInsert | asky_prompt_input_text.go:149-161 | Backspace right after an insertion restores the line exactly |
| LineInput.RunReturnsAccepted | asky_prompt_input_text.go:126-183 | a session returns only the trimmed form of a buffer the validator accepts; it fails only by interrupt or keyboard error |
| LineInput.EnterRejected | asky_prompt_input_text.go:132-138 | Enter on a rejected buffer is a no-op for the rest of the session |
| LineInput.EnterAccepted | asky_prompt_input_text.go:132-183 | Enter on an accepted buffer, or with no validator, ends the session with that buffer, trailing CR/LF trimmed |
| LineInput.KeyEdits | asky_prompt_input_text.go:141-171 | any other key than Ctrl-C and Enter edits the line, and the session goes on from the edited line |
| LineInput.LineEditor.Apply | asky_prompt_input_text.go:141-161 | the in-place buffer and cursor edit computes Edit |
| LineInput.Listen | asky_prompt_input_text.go:126-183 | the listening loop computes Run from the empty line |
| LineInput.TextPlaceholder | asky_prompt_input_text.go:68-76 | the placeholder text for each combination of placeholder and default value |
| LineInput.PlaceholderShown | asky_prompt_input_text.go:86-88 | the placeholder is written exactly when the buffer is empty |
| LineInput.SecureEcho | asky_prompt_input_secure.go:97-98 | the secret prompt echoes one * per rune, or nothing with noEcho |
| LineInput.TextInput.constructor | asky_prompt_input_text.go:23-29 | NewTextInput's prefix "[?] " and label "Enter text input", with no validator |
| LineInput.TextInput.WithValidator | asky_prompt_input_text.go:39-42 | stores the validator |
| LineInput.TextInput.WithDefaultValue | asky_prompt_input_text.go:38 | stores the default value |
| LineInput.TextInput.WithPlaceholder | asky_prompt_input_text.go:37 | stores the placeholder |
| LineInput.TextInput.WithDescription | asky_prompt_input_text.go:36 | stores the description |
| LineInput.TextInput.WithLabel | asky_prompt_input_text.go:35 | stores the label |
| LineInput.TextInput.WithPrefix | asky_prompt_input_text.go:34 | stores the prefix |
| LineInput.TextInput.Render | asky_prompt_input_text.go:45-184 | fails with TerminalTooSmall when 8 rows cannot be made; otherwise runs the session from the empty line |
| LineInput.SecureInput.constructor | asky_prompt_input_secure.go:23-30 | NewSecureInput's prefix "[?] " and label "Enter secure input", echo on, no validator |
| LineInput.SecureInput.WithNoEcho | asky_prompt_input_secure.go:39 | turns echo off |
| LineInput.SecureInput.WithValidator | asky_prompt_input_secure.go:40-43 | stores the validator |
| LineInput.SecureInput.WithPlaceholder | asky_prompt_input_secure.go:38 | stores the placeholder |
| LineInput.SecureInput.WithDescription | asky_prompt_input_secure.go:37 | stores the description |
| LineInput.SecureInput.WithLabel | asky_prompt_input_secure.go:36 | stores the label |
| LineInput.SecureInput.WithPrefix | asky_prompt_input_secure.go:35 | stores the prefix |
| LineInput.SecureInput.Render | asky_prompt_input_secure.go:46-177 | fails with TerminalTooSmall when 8 rows cannot be made; otherwise runs the session from the empty line |
| Styles.CommaFrom | asky_styles.go:34-43 | the comma scan finds the first comma at or after a position, or none exactly when there is none |
| Styles.SplitRGB | asky_styles.go:44-49 | the three rgb fields rebuild the text around two commas, and the first two hold no comma |
| Styles.SGR | asky_styles.go:24-67 | SGR parameters exist only for an rgb: or ansi: colour, and start with 38; for a foreground or 48; for a background; the empty colour has none |
| Styles.ScanCommas | asky_styles.go:33-46 | the two-comma loop fails exactly when SplitRGB does, and otherwise yields its comma positions |
| Styles.ToSGR | asky_styles.go:24-67 | toSGR succeeds exactly when SGR gives parameters, and then returns them |
| Styles.ColorFromRGB | asky_styles.go:89-97 | the empty colour exactly when a component is outside 0..255, else rgb:R,G,B in decimal |
| Styles.ColorFromANSI | asky_styles.go:98-103 | the empty colour exactly when the index is outside 0..255, else ansi:N |
| Styles.RGBRoundTrip | asky_styles.go:89-97 | an RGB colour's SGR parameters are 38;2;R;G;B (48 for background) with the components' decimals |
| Styles.ANSIRoundTrip | asky_styles.go:98-103 | an ANSI colour's SGR parameters are 38;5;N (48 for background) |
| Styles.SplitFields | asky_styles.go:33-49 | two comma-free fields and a rest split back into themselves |
| Styles.DropLeadingSpace | asky_styles.go:71 | strings.TrimSpace's left half: drops leading white space |
| Styles.DropLeadingSpaceSuffix | asky_styles.go:71 | what remains is a suffix of the input |
| Styles.DropTrailingSpace | asky_styles.go:71 | strings.TrimSpace's right half: a prefix without trailing white space |
| Styles.HexByte | asky_styles.go:78 | two hexadecimal digits parse to a byte value of at most 255 |
| Styles.HexFromDigits | asky_styles.go:75-87 | on six digits the loop writes the RGB colour of the three byte values |
| Styles.HexFromNonDigit | asky_styles.go:78-81 | a non-digit at or after the current pair makes the empty colour |
| Styles.ColorFromHex | asky_styles.go:70-88 | after trimming space and "#", six hex digits give ColorFromRGB of their pairs; anything else gives the empty colour |
| Styles.ParseHexByte | asky_styles.go:78-81 | strconv.ParseUint on two characters succeeds exactly on two hex digits |
| Styles.Present | asky_styles.go:139-148 | write skips empty codes: the codes written are exactly the non-empty candidates, none empty |
| Styles.PresentConcat | asky_styles.go:150-170 | the codes are written in candidate order: Present distributes over concatenation |
| Styles.WriteCodes | asky_styles.go:134-171 | the write loop produces ESC[ and the present codes joined by ';', and first stays set exactly when none was present |
| Styles.Attribs.constructor | asky_styles.go:181 | NewAttrib has no colour and no flag set |
| Styles.Attribs.FG | asky_styles.go:113 | sets the foreground |
| Styles.Attribs.BG | asky_styles.go:114 | sets the background |
| Styles.Attribs.Dim | asky_styles.go:115 | sets dim |
| Styles.Attribs.Bold | asky_styles.go:116 | sets bold |
| Styles.Attribs.Italic | asky_styles.go:117 | sets italic |
| Styles.Attribs.Underline | asky_styles.go:118 | sets underline |
| Styles.Attribs.Strikethrough | asky_styles.go:119 | sets strikethrough |
| Styles.Attribs.Candidates | asky_styles.go:150-170 | seven candidate codes in the order 1, 2, 3, 4, 9, foreground, background |
| Styles.Attribs.Sprint | asky_styles.go:127-179 | the text unchanged when empty, with colour off, without a terminal or with no code; otherwise ESC[codes m text ESC[0m |
| Styles.Attribs.EmptyHasNoCodes | asky_styles.go:120-124 | the isEmpty shortcut agrees with the first flag: empty attributes have no code |
| Styles.Attribs.NoCodesIff | asky_styles.go:150-173 | Sprint writes no code exactly when no flag is set and neither colour parses to SGR parameters |
| Banners.Banner.WithLabel | asky_output_banner.go:47 | a copy with the label changed and nothing else |
| Banners.Banner.WithLabelOffset | asky_output_banner.go:48 | a copy with the offset max(0, offset) and nothing else changed |
| Banners.Banner.WithLabelPadChar | asky_output_banner.go:49-56 | a copy whose pad string is the given one, or " " when it has no width |
| Banners.Banner.WithSubLabel | asky_output_banner.go:57 | a copy with the sub-label changed |
| Banners.Banner.WithSubLabelOffset | asky_output_banner.go:58 | a copy with the sub-label offset max(0, offset) |
| Banners.Banner.WithSubLabelPadChar | asky_output_banner.go:59-66 | a copy whose sub-label pad string is the given one, or " " when it has no width |
| Banners.Banner.WithWidth | asky_output_banner.go:67 | the stored width is min(0, width), never positive |
| Banners.Banner.WithAlignment | asky_output_banner.go:68 | a copy with the alignment changed |
| Banners.NewBannerDefaults | asky_output_banner.go:32-42 | NewBanner has empty labels, space pads, zero offsets and left alignment, so a label gets no left pad |
| Banners.PadOrSpace | asky_output_banner.go:98-101 | repeatPadChar's fallback: an empty pad string becomes " " |
| Banners.Cycle | asky_output_banner.go:103-118 | the repeated pad string cut to a width has exactly that width |
| Banners.CyclePeriodic | asky_output_banner.go:103-107 | the repeated pad string is periodic in the pad string |
| Banners.PadRun | asky_output_banner.go:97-119 | nothing for a non-positive width, else exactly that many characters of the repeated pad string |
| Banners.Truncate | asky_output_banner.go:135 | runewidth.Truncate with one column per character: kept when it fits, else cut to leave room for the tail, then the tail |
| Banners.RepeatPadChar | asky_output_banner.go:97-119 | the append-until-wide-enough loop, with its overshoot cut, computes PadRun |
| Banners.TermWidth | asky_output_banner.go:123-126 | the reported width when positive, else 80 |
| Banners.Place | asky_output_banner.go:128-153 | the content is spaced and cut only when it does not fit beside both offsets; left plus right is the space left; centring splits it with right - left in {0, 1}; left and right alignment put the offset on their side |
| Banners.TruncatedFits | asky_output_banner.go:131-137 | cut content fills exactly the width minus both offsets |
| Banners.LineSpansTerminal | asky_output_banner.go:128-153 | with room for both offsets and the tail, neither pad is negative and the line spans the terminal exactly |
| Banners.PaddedLineWidth | asky_output_banner.go:154-156 | unstyled, the line is as wide as its pads and content |
| Banners.Arrange | asky_output_banner.go:128-153 | padLine's width arithmetic computes Place |
| Banners.PadLine | asky_output_banner.go:121-157 | padLine is the styled left pad, content and right pad of Place |
| Banners.Render | asky_output_banner.go:71-94 | nothing when both labels are empty, else the label line and then the sub-label line, each only when non-empty and each ending in a newline |
| Status.KindOf | asky_output_status.go:63-79 | any level other than the four named ones is styled as debug |
| Status.DefaultPrefix | asky_output_status.go:63-79 | each default prefix is four characters of the form "[x] " |
| Status.DefaultPrefixDistinct | asky_output_status.go:65-77 | distinct levels have distinct default prefixes |
| Status.StatusLine.WithPrefix | asky_output_status.go:34 | a copy with the prefix changed and nothing else |
| Status.StatusLine.WithLabel | asky_output_status.go:35 | a copy with the label changed and nothing else |
| Status.StatusLine.WithLevel | asky_output_status.go:36 | a copy with the level changed and nothing else |
| Status.StatusLine.GetPrefix | asky_output_status.go:39-44 | the configured prefix when non-empty, else the level default |
| Status.StatusLine.Render | asky_output_status.go:46-83 | nothing exactly when label and prefix are both empty; otherwise one line of styled prefix, styled label and a newline |
| Status.PlainLine | asky_output_status.go:46-83 | unstyled, the line is the configured prefix or the level default, then the label |
| Status.LabelledDefaults | asky_output_status.go:23-29 | a new status with a label shows "[-] "; at a named level it shows that level's prefix |

## Left out

- Terminal output: cursor save, restore, hide and clear escapes; the frame
  redraws; the search line with its hit and selection counts; the help
  lines; and the validation message display of the input prompts. These
  are writes to the terminal and decide no prompt's value.
- Themes and `StyleDefault`. The styles the widgets use are abstract
  functions. `Sprint` is modelled on its own.
- The spinner and the progress bar. They are timers and goroutines.
- The restoring of terminal state on exit, which is deferred I/O.
- `getTermDimensions` and `makeSpace` are parameters; the environment
  checks `NO_COLOR` and `TERM=dumb`/isatty are boolean parameters of
  `Styles.Attribs.Sprint`.
- Display width. `runewidth.StringWidth` and `Truncate` are taken as one
  column per character. Wide and zero-width runes are not modelled, so a
  pad string has no width only when it is empty.
- Lowercasing. `strings.ToLower` is modelled on ASCII letters only; there
  is no Unicode case mapping.
- Bytes and runes. Go strings are bytes, but the model uses char
  sequences. `toSGR`'s `len` and the search query's Backspace, which cuts
  one byte, are modelled on characters.
- The error texts of the sentinel errors. The errors are datatype
  constructors; their messages are not modelled.
- Select.MultiSelect.Render: a configured page size below 1 makes the
  source's window degenerate, with start past end and no row drawn. The
  model then pages one row at a time; only the drawn rows differ, and
  Render's contract mentions no row.
- Select.SingleSelect.Render: the same page-size treatment as the
  multi-choice prompt.
- Styles.ToSGR: the `n == ""` test after `ansi:` is never true, because
  the length check before it requires a sixth character. The model has no
  branch for it.
- Select.MultiSelect.Toggle and Select.MultiSelect.Render: Go slices share
  storage, and the model's sequences do not. Render returns the prompt's
  own selection slice, and toggleSelection removes entries in that slice
  in place. A later Render that deselects a choice other than the last one
  therefore overwrites a slice a caller received earlier. `WithChoices`
  keeps the caller's slice in the same way. The model does not capture
  this aliasing.
- Listing.ItemRows: the frame layout is stated on its own. No Render
  returns frames, so ItemRows is not tied to a session's state.
- The log of validation messages past the last one: `ListState.message`
  holds only the latest message, as the source's `valMessage` does.
