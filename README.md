# MySoloKeeper coordinate pipeline and window state, in Dafny

MySoloKeeper watches a camera, sends each frame to a vision-language model
and, when the reply says people are in view, minimises a guarded process
and sounds an alarm. This project models the part of it that decides what
was seen and what the window does about it:

- **`CoordinateProcessor`** (`coordinate_processor.dfy`, with the value-level
  modules it is specified by):
  - `ResponseParser` turns the model's free-text reply into candidate boxes. The chain runs in this order:
    1. a negative phrase;
    2. the empty `"humans"` literal;
    3. the JSON document's `humans` list, else its `faces` list;
    4. strict `{"x": …}` objects;
    5. loose `x=…, y=…` quadruples.
  - `Geometry` holds the validator and the similarity score.
  - `Tracker` holds best-match association, weighted smoothing with Python's round-half-to-even, and the empty-frame hysteresis.
  - The class keeps the canvas size, the remembered boxes and the empty-frame counter as fields. Its methods update these fields and are proved equal to the value-level step.
- **`MySoloKeeperGUI`** (`gui.dfy`), without its widgets. The model keeps:
  - the bounded debug history, its cursor, the navigation label and the two button states;
  - the guard switch, the cooldown gate and one pass of the detection loop;
  - the window-height arithmetic for showing and hiding the debug panel.

The thresholds are a `Thresholds` parameter. `DefaultThresholds` holds the values
that `config.py` gives: 20, 0.9, 0.5, 2.0, 0.3, 0.7 and 3.

Where the names disagree, the model follows the code's behaviour with those values:
- `config.py` defines these constants only under their `*_FACE_*` names (config.py:24-30);
- `coordinate_processor.py` reads them under `*_HUMAN_*` names.

The same applies to `WINDOW_MIN_HEIGHT`. `gui.py` reads it, but `config.py` does not define it, so the model takes it as a parameter.

## Model

| member | source | states |
|---|---|---|
| TextScan.ContainsIffOccurs | coordinate_processor.py:170-174 | the substring test used for `in` holds exactly when the pattern occurs at some position |
| TextScan.LowerAllKeepsOccurrence | coordinate_processor.py:170 | a phrase inside a reply is found in the lower-cased reply in its lower-cased form |
| TextScan.OutermostBraces | coordinate_processor.py:178 | the outermost-brace search matches iff some `}` follows some `{`; the match runs from the first `{` to the last `}` |
| TextScan.DigitsOfShowNat | coordinate_processor.py:222-225 | a digit run followed by a non-digit is read back by `int()` as the number it spells |
| Decimal.ReadShowNat | coordinate_processor.py:222-225 | the decimal text of a number reads back as that number |
| Geometry.ValidIffSane | coordinate_processor.py:22-55 | `IsValidHumanCoordinate`, the validator, accepts a box iff all four fields are numbers and they satisfy every bound, including the aspect ratio cross-multiplied; otherwise it answers false rather than raising |
| Geometry.ValidInCanvas | coordinate_processor.py:32-37 | an accepted box has `x, y >= 0`, positive size, and ends inside the canvas |
| Geometry.KeepValidSpec | coordinate_processor.py:261 | the filtered list holds exactly the accepted boxes, is no longer than its input, and is the input itself when all are accepted |
| Geometry.KeepValidAppend | coordinate_processor.py:261 | filtering distributes over concatenation, so the order of the input is kept |
| Geometry.SimilaritySelf | coordinate_processor.py:61-81 | `Similarity` gives a box with non-zero area on a non-empty canvas exactly 1.0 against itself |
| Geometry.SimilarityZeroOnError | coordinate_processor.py:83-84 | `Similarity`, the score, is 0.0 for a missing or non-numeric field, a zero canvas, or two zero areas |
| Geometry.PositiveSimilarityNumeric | coordinate_processor.py:61-84 | a positive score implies both boxes hold four numbers |
| Geometry.SimilaritySymmetric | coordinate_processor.py:61-81 | the score does not depend on the order of the two boxes |
| Geometry.SimilarityOfValidBoxesInUnitRange | coordinate_processor.py:61-81 | two boxes the validator accepts score between 0 and 1 |
| Tracker.BestMatchSpec | coordinate_processor.py:92-99 | `BestMatch`, the `(max_similarity, most_similar_human)` pair after the loop: the running maximum starts at 0 and bounds every score; no candidate is kept iff every score is at most 0; the kept one is the first to reach the maximum |
| Tracker.MostSimilar | coordinate_processor.py:90-102 | a returned box is one of the candidates and scores above both the threshold and 0 |
| Tracker.MostSimilarSpec | coordinate_processor.py:90-102 | a box is returned iff some candidate scores above the threshold and 0; it is the first candidate with the greatest score |
| Tracker.Round | coordinate_processor.py:142-145 | `round` gives an integer within 0.5 of its argument, the even one on a tie |
| Tracker.RoundNearest | coordinate_processor.py:142-145 | a value strictly within 0.5 of an integer rounds to it |
| Tracker.SmoothCoordBetween | coordinate_processor.py:142-145 | a smoothed coordinate lies between the current and the matched previous value |
| Tracker.SmoothCoordSame | coordinate_processor.py:142-145 | an integer coordinate smoothed against itself is unchanged |
| Tracker.SmoothCoordRoundsFloat | coordinate_processor.py:142-145 | a float coordinate is not kept: 100.5 smoothed against itself comes back as `round(100.5)`, which is 100 |
| Tracker.StepShape | coordinate_processor.py:108-155 | `Step`, one call as a state transition: the returned list is the new remembered list; a frame with boxes zeroes the counter and returns one box per input, the inputs themselves when nothing is remembered; an empty frame increments the counter and returns the remembered boxes, or nothing once the limit is reached |
| Tracker.StepMatches | coordinate_processor.py:130-153 | each output box is either the input box, when no remembered box scores above the threshold, or its weighted average with a remembered box that does |
| Tracker.StepKeepsNumeric | coordinate_processor.py:108-155 | when inputs and memory hold numeric boxes, so does the new memory |
| Tracker.Hysteresis | coordinate_processor.py:111-120 | after k empty frames the counter has grown by k, and the memory is kept until the counter reaches the limit, then cleared |
| Tracker.SteadyBoxIsFixedPoint | coordinate_processor.py:122-155 | when the only remembered box is the same integer box with non-zero area, and the threshold is below 1, that box is returned unchanged and the counter resets |
| Tracker.ShiftedBoxSimilarity | coordinate_processor.py:61-81 | a 50x50 box shifted 10 pixels on a 640x480 frame scores 0.99125 against the original |
| Tracker.SmoothingExample | coordinate_processor.py:130-155 | previous (100,100,50,50) and current (110,100,50,50) with weight 0.3 give (103,100,50,50) |
| Tracker.SharedMatchExample | coordinate_processor.py:134-150 | two current boxes may both match the same previous box: (110,…) and (90,…) against (100,…) give 103 and 97 |
| ResponseParser.KeepCompleteSpec | coordinate_processor.py:189-196 | kept records are dicts with all four keys taken from the list, every such dict is kept, and none is added |
| ResponseParser.KeepCompleteAppend | coordinate_processor.py:189-196 | the filter keeps the list's order |
| ResponseParser.KeepCompleteOfCompleteRecords | coordinate_processor.py:189-196 | a list of complete records is returned whole |
| ResponseParser.KeepCompleteRecords | coordinate_processor.py:190-196 | the appending loop computes the filtered list |
| ResponseParser.DecodeCandidates | coordinate_processor.py:177-210 | the JSON step, with its early return on an empty list, gives the complete records of the decoded `humans` list, else of the `faces` list; a `JSONDecodeError` or a document with neither list gives nothing, so the scanners run; any other exception from `json.loads` gives no boxes, as the outer handler returns `[]` |
| ResponseParser.AppendBoxes | coordinate_processor.py:219-227 | the loop leaves what was already extracted in place and appends one dict of four ints per match, in match order |
| ResponseParser.ParseHumanActivityResponse | coordinate_processor.py:161-249 | the parser with its loops equals `Parse`, the chain: negative phrase, empty-humans literal, JSON lists, then `StrictMatches`, then `LooseMatches`; it returns the boxes of the first strategy that gives an answer |
| ResponseParser.NegativePhraseAnyCase | coordinate_processor.py:165-171 | any reply holding a negative phrase, in any letter case, parses to no boxes, whatever follows |
| ResponseParser.EmptyHumansLiteralGivesNothing | coordinate_processor.py:173-175 | any reply holding `"humans":[]` or `"humans": []` parses to no boxes, whatever JSON follows |
| ResponseParser.JsonHumansDecide | coordinate_processor.py:177-196 | a decoded `humans` list decides the result: its complete records, in order, each of them present |
| ResponseParser.JsonFacesFallback | coordinate_processor.py:198-210 | without a `humans` list, a decoded `faces` list decides the result the same way |
| ResponseParser.OtherDecodeErrorGivesNothing | coordinate_processor.py:181-249 | when `json.loads` raises anything but a `JSONDecodeError` on the outermost braces, the parse returns no boxes and the scanners are not tried |
| ResponseParser.ParsedRecordsHaveAllKeys | coordinate_processor.py:161-249 | every parsed box holds all four keys, whichever strategy produced it |
| ResponseParser.StrictRoundTrip | coordinate_processor.py:216-227 | the strict scanner reads back exactly the four numbers of an object written as `{"x": n, "y": n, "width": n, "height": n}` and stops after its brace |
| ResponseParser.StrictMatchesOfListing | coordinate_processor.py:216-227 | `StrictMatches`, the `finditer` scan with the strict pattern, finds every object of a listing of such objects, in order, and nothing else |
| ResponseParser.LooseRoundTrip | coordinate_processor.py:233-243 | `MatchLoose`, the loose pattern that `LooseMatches` scans with, reads back exactly the four numbers of `x=n, y=n, width=n, height=n` |
| ResponseParser.LooseRoundTripAnyCase | coordinate_processor.py:233-234 | with `re.IGNORECASE`, the loose scanner reads back the four numbers whatever the letter case the keys are written in |
| ResponseParser.UpperCaseKeysMatch | coordinate_processor.py:233-234 | `X=n, Y=n, WIDTH=n, HEIGHT=n` is matched and gives back its four numbers |
| ResponseParser.LooseMatchesOfOne | coordinate_processor.py:233-243 | `LooseMatches`, the `finditer` scan with the loose pattern, finds a lone `x=n, y=n, width=n, height=n` quadruple and nothing else |
| ResponseParser.WithoutNShortCircuits | coordinate_processor.py:165-175 | text without the letter n holds no negative phrase and no empty-humans literal |
| ResponseParser.ParseOfListing | coordinate_processor.py:215-230 | a listing of strict objects that is not a JSON document with a box list parses to exactly those boxes, in order |
| Processor.CoordinateProcessor.constructor | coordinate_processor.py:16-20 | a new processor has the given canvas, no remembered boxes and a zero counter |
| Processor.CoordinateProcessor.FindMostSimilarHuman | coordinate_processor.py:90-102 | the loop over the candidates returns the best match above the threshold, as specified by `MostSimilar` |
| Processor.CoordinateProcessor.SmoothHumanCoordinates | coordinate_processor.py:108-155 | the fields and the returned list are those of one tracking step from the old fields; numeric memory stays numeric |
| Processor.CoordinateProcessor.ProcessHumans | coordinate_processor.py:255-266 | parse, keep the valid boxes, smooth: the new fields and the output are one step on the parsed and filtered boxes |
| Processor.CoordinateProcessor.Reset | coordinate_processor.py:272-275 | the remembered boxes and the counter are cleared |
| Gui.PushBoundedKeepsWindow | gui.py:803-810 | `PushBounded`, appending and dropping the oldest entry over the limit, keeps the history equal to the last ten entries added |
| Gui.NavLabelReadsBack | gui.py:777-790 | `NavFor`, the label and button states: for a cursor inside the history the label reads back as position, slash and total; prev is disabled only at the first entry and next only at the last |
| Gui.NavLabelDeterminesPosition | gui.py:784-786 | two cursors showing the same label are the same position in histories of the same size |
| Gui.NavTextsOfTwoEntries | gui.py:784-786 | a two-entry history is labelled "2/2" at the newest entry and "1/2" at the oldest |
| Gui.CollapseRespectsMinimum | gui.py:740-742 | `AdjustedGeometry`, the new window geometry: hiding the panel gives `max(minimum height, height - 280)` and changes nothing else |
| Gui.ExpandFitsScreen | gui.py:729-739 | `AdjustedGeometry`: showing the panel gives `min(height + 280, screen - 100)`; a capped window ends at least 50 pixels above the screen bottom, its top moving up to 50 when lower and staying otherwise |
| Gui.CollapseUndoesExpand | gui.py:727-742 | hiding right after an uncapped showing restores the geometry |
| Gui.ExpandUndoesCollapse | gui.py:727-742 | showing right after a hiding not held by the minimum restores the geometry |
| Gui.AdjustWindowSizeForDebug | gui.py:716-745 | the step-by-step recomputation gives the geometry `AdjustedGeometry` specifies |
| Gui.MySoloKeeperGui.constructor | gui.py:51-78 | the initial state: not detecting or guarding, no pid, cooldown 3.0, alerts on, empty history at index -1, label "0/0" with both buttons enabled, processor on a 640x480 canvas |
| Gui.MySoloKeeperGui.UpdateDebugDisplay | gui.py:819-839 | the panes show the entry under the cursor, stamped with its time, and are untouched when there is none |
| Gui.MySoloKeeperGui.UpdateDebugNavInfo | gui.py:777-790 | the label and buttons reflect the cursor's position |
| Gui.MySoloKeeperGui.AddDebugInfo | gui.py:792-817 | the entry is appended and the oldest dropped over the limit; the history stays the last ten entries added; the cursor is on the new entry, which is shown, and the bar is refreshed |
| Gui.MySoloKeeperGui.PrevDebugEntry | gui.py:759-766 | the cursor moves back by one unless at the first entry, shows the entry it moved to, and stays inside the history; when it does not move the panes are unchanged |
| Gui.MySoloKeeperGui.NextDebugEntry | gui.py:768-775 | the cursor moves forward by one unless at the last entry, shows the entry it moved to, and stays inside the history; when it does not move the panes are unchanged |
| Gui.MySoloKeeperGui.PrevDebugEntryWithNav | gui.py:759-766 | the same move and the same unchanged panes when it cannot move, after which the bar shows the cursor's position |
| Gui.MySoloKeeperGui.NextDebugEntryWithNav | gui.py:768-775 | the same move and the same unchanged panes when it cannot move, after which the bar shows the cursor's position |
| Gui.MySoloKeeperGui.ClearDebugInfo | gui.py:750-757 | the history and panes are emptied, the cursor is -1, and the bar shows "0/0" with both buttons disabled |
| Gui.MySoloKeeperGui.SelectProcess | gui.py:600-610 | the picked process's pid is remembered |
| Gui.MySoloKeeperGui.StartDetection | gui.py:439-445 | detection runs only once the camera has started |
| Gui.MySoloKeeperGui.StopDetection | gui.py:460-471 | detection stops and the processor forgets its boxes and counter |
| Gui.MySoloKeeperGui.ToggleGuard | gui.py:624-641 | switching on starts guarding only with a selected pid and running detection, else the switch is forced off and guarding is unchanged; switching off stops guarding |
| Gui.MySoloKeeperGui.ClickGuardSwitch | gui.py:179-184 | the whole new guard state: switching on starts guarding exactly when a pid is selected and detection runs, and otherwise the switch falls back off with guarding unchanged; switching off stops guarding; switch and guarding stay in step |
| Gui.MySoloKeeperGui.TriggerGuardAction | gui.py:643-670 | minimising is attempted iff the cooldown has elapsed; only a success restarts the cooldown and, with alerts on, sounds the alarm |
| Gui.MySoloKeeperGui.DetectionCycle | gui.py:486-509 | the processor gets the frame size; a non-empty reply is processed into the detected boxes; a guard action is attempted iff guarding a selected pid with boxes detected and the cooldown elapsed |
| Gui.StaleNavAfterPrev | gui.py:759-766 | after two entries and one step back, the panes show the first entry while the bar still reads "2/2" with next disabled |
| Gui.NavAfterPrevWithNav | gui.py:777-790 | with the bar refreshed after the step, it reads "1/2" with next enabled |

## Left out

- Threads, sleeps, the polling interval and the frame lock of the detection loop are not modelled. `DetectionCycle` is one pass of the loop body; the pass for a missing frame is not part of this model.
- The camera, the HTTP client and base64 are not modelled; the frame size and the reply are parameters of `DetectionCycle`. OpenCV, MediaPipe, psutil, win32gui, pygame and winsound are left out in the same way. `minimize_process_windows` is the boolean parameter `minimized`.
- Tk and customtkinter widgets, message boxes and status text are not modelled. Only the values written into the label, the buttons and the panes are kept.
- `Processor.CoordinateProcessor.FindMostSimilarHuman`: `math.sqrt` is the parameter `sqrt`, and floats are exact reals, so rounding error in the score is not modelled. The lemmas that need it assume that `sqrt` is the square root.
- `json.loads` is the parameter `decode`, giving the decoded object, a `JSONDecodeError`, or another exception (`RecursionError` on deep nesting, `ValueError` on an over-long integer). Which texts raise which exception is not modelled. The text it is given starts with `{` and ends with `}`, so a successful decode is an object.
- `ResponseParser.ParseOfListing`: it holds only when the listing does not decode to an object with a `humans` or `faces` list and `json.loads` raises nothing but a `JSONDecodeError` on it; the lemma takes that as a requirement on `decode`.
- `TextScan.DigitsOfShowNat`: `\d` is read as the ASCII digits. Other Unicode decimal digits, which Python's `\d` and `int()` also accept, are not modelled.
- `re.IGNORECASE` and `str.lower()` fold only the ASCII letters. Other Unicode case mappings are not modelled.
- Python's limit of 4300 digits in `int()`, which would raise inside the parser and give `[]`, is not modelled.
- `Processor.CoordinateProcessor.SmoothHumanCoordinates`: the model does not capture that the returned list aliases `previous_humans` on the hysteresis path. The model copies values.
- `Tracker.SmoothCoordBetween` is stated for integer coordinates, which is what the scanners produce. For float coordinates only the weighted average, and not the rounding, is shown to lie between them.
- The `if similar_previous_human` test treats an empty dict as no match. An empty dict cannot score above 0, so the model tests for a returned box instead.
- The `previous_faces` and `no_face_counter` fields that `reset` also clears, the `*_face_*` aliases and `detected_faces` are not modelled. Nothing reads them.
- Parsing the window's geometry string and reading the screen height are not modelled. `AdjustWindowSizeForDebug` takes the parsed geometry, the screen height and the minimum height.
- The timestamp `add_debug_info` makes from the clock, and `time.time()` in `trigger_guard_action`, are parameters.
- The exception handlers in `trigger_guard_action` and `_adjust_window_size_for_debug` only log, so they are not modelled.
- Confidence fusion between face and pose detection, and detection-mode switching, do not appear in the code, so they are not modelled.
- `Tracker.StepMatches`, `Processor.CoordinateProcessor.SmoothHumanCoordinates`: the weighted average is computed in exact reals and then rounded half to even, where the program rounds an IEEE double. When the exact average is a .5 tie, the double can fall just below or above it, and the model can round the other way: with current x 0, remembered x 45 and weight 0.3 the double is 31.499999999999996 and the program gives 31, while the model gives 32. Averages that are not exact ties, such as 103 and 97, are not affected, and neither is the 100.5 case at the default weight 0.3.
- `Tracker.SmoothCoordSame`: stated for integer coordinates only. A float coordinate comes back rounded, as `Tracker.SmoothCoordRoundsFloat` shows.
- `Tracker.SteadyBoxIsFixedPoint`: stated for a memory holding only that box. With several remembered boxes, an earlier one with the same centre and area also scores 1.0 and wins the tie, so the box is smoothed towards it.
- `Geometry.ValidInCanvas`, `Geometry.ValidIffSane`: JSON numbers are exact reals, so NaN and ±Infinity are not represented. `json.loads` accepts `NaN`, and every comparison with NaN is false, so the program's validator accepts a box with a NaN coordinate. The program's bounds reject the infinities.

## Findings

| source | as written | input that shows it | evidently intended | confidence | as-written member | corrected member |
|---|---|---|---|---|---|---|
| gui.py:759-775 | `prev_debug_entry` and `next_debug_entry` move the cursor and redraw the panes but do not call `update_debug_nav_info` | add two entries, then press prev once: the panes show entry 1 while the bar reads "2/2" and next stays disabled, so the newest entry cannot be reached until another arrives | refresh the navigation bar after each move, as `add_debug_info` and `clear_debug_info` do | not executed; high | Gui.StaleNavAfterPrev | Gui.MySoloKeeperGui.PrevDebugEntryWithNav |
