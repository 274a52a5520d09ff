/**
 * The state the main window keeps apart from its widgets: the bounded
 * history of vision-model exchanges with its navigation cursor, the guard
 * switch and its cooldown, one pass of the detection loop, and the window
 * height arithmetic of the debug panel. Widgets are reduced to the values
 * the program writes into them (label text, button state, pane text).
 */
module Gui {
  import opened Wrappers
  import opened Decimal
  import opened TextScan
  import opened JsonValues
  import opened Geometry
  import opened Tracker
  import opened ResponseParser
  import opened Processor

  /** The camera resolution the window builds its coordinate processor with. */
  const CameraWidth := 640
  const CameraHeight := 480
  /** How many exchanges the debug history keeps. */
  const MaxDebugEntries: nat := 10
  /** Seconds between two guard actions. */
  const GuardActionCooldown: real := 3.0
  /** The height the debug panel adds to the window when it is shown. */
  const DebugPanelHeight := 280

  // ---------------------------------------------------------------------------
  // The debug history as values
  // ---------------------------------------------------------------------------

  /** One prompt/response exchange with the vision model. */
  datatype DebugEntry = DebugEntry(timestamp: string, prompt: string, response: string)

  /** What a debug pane shows for an entry: the timestamp in brackets, a newline, the text. */
  function Stamped(timestamp: string, text: string): string {
    "[" + timestamp + "]\n" + text
  }

  /** The last `n` elements of `s` (all of `s` when it is shorter). */
  function LastN<T>(s: seq<T>, n: nat): (r: seq<T>)
    ensures |r| == if |s| <= n then |s| else n
  {
    if |s| <= n then s else s[|s| - n..]
  }

  /** `append` followed by `pop(0)` when the list has grown past `n`. */
  function PushBounded<T>(h: seq<T>, e: T, n: nat): seq<T> {
    var a := h + [e];
    if |a| > n then a[1..] else a
  }

  /**
   * Appending to a window of the last `n` entries, then trimming, gives the
   * window of the last `n` entries of the longer history: the buffer always
   * holds the most recent entries, oldest first.
   */
  lemma PushBoundedKeepsWindow<T>(all: seq<T>, e: T, n: nat)
    requires 1 <= n
    ensures PushBounded(LastN(all, n), e, n) == LastN(all + [e], n)
  {
    if n <= |all| {
      var w := LastN(all, n);
      assert (w + [e])[1..] == all[|all| - n + 1..] + [e];
      assert (all + [e])[|all| + 1 - n..] == all[|all| - n + 1..] + [e];
    }
  }

  /** The bounded append never grows past `n`, and ends with the new element. */
  lemma PushBoundedShape<T>(h: seq<T>, e: T, n: nat)
    requires 1 <= n && |h| <= n
    ensures var r := PushBounded(h, e, n);
      && 1 <= |r| <= n && r[|r| - 1] == e
      && |r| == if |h| < n then |h| + 1 else n
  {
  }

  /** The navigation label and the enabled state of the two buttons. */
  datatype NavView = NavView(text: string, prevEnabled: bool, nextEnabled: bool)

  /** An f-string rendering of an int. */
  function ShowInt(i: int): string {
    if 0 <= i then ShowNat(i) else "-" + ShowNat(-i)
  }

  /** What the navigation bar shows for a history of `total` entries with the cursor at `index`. */
  function NavFor(total: nat, index: int): NavView {
    if total == 0 then NavView("0/0", false, false)
    else NavView(ShowInt(index + 1) + "/" + ShowNat(total), index > 0, index < total - 1)
  }

  /** A position, a slash and a total read back as the position followed by the slash and the total. */
  lemma PositionTextReadsBack(position: nat, total: nat)
    ensures Digits(ShowNat(position) + "/" + ShowNat(total)) == Some((position, "/" + ShowNat(total)))
    ensures Digits(ShowNat(total)) == Some((total, ""))
  {
    var rest := "/" + ShowNat(total);
    assert ShowNat(position) + "/" + ShowNat(total) == ShowNat(position) + rest;
    DigitsOfShowNat(position, rest);
    DigitsOfShowNat(total, "");
    assert ShowNat(total) + "" == ShowNat(total);
  }

  /**
   * For a cursor inside the history, the label reads back as the 1-based
   * position, a slash and the total, and a button is disabled exactly at
   * its end of the history.
   */
  lemma NavLabelReadsBack(total: nat, index: int)
    requires 0 <= index < total
    ensures var v := NavFor(total, index);
      && Digits(v.text) == Some((index + 1, "/" + ShowNat(total)))
      && Digits(ShowNat(total)) == Some((total, ""))
      && (v.prevEnabled <==> index != 0)
      && (v.nextEnabled <==> index != total - 1)
  {
    PositionTextReadsBack(index + 1, total);
  }

  /** Two cursor positions that show the same label are the same position in histories of the same size. */
  lemma NavLabelDeterminesPosition(total1: nat, index1: int, total2: nat, index2: int)
    requires 0 <= index1 < total1 && 0 <= index2 < total2
    requires NavFor(total1, index1).text == NavFor(total2, index2).text
    ensures index1 == index2 && total1 == total2
  {
    NavLabelReadsBack(total1, index1);
    NavLabelReadsBack(total2, index2);
    assert ShowNat(total1) == ("/" + ShowNat(total1))[1..];
    assert ShowNat(total2) == ("/" + ShowNat(total2))[1..];
    ShowNatInjective(total1, total2);
  }

  // ---------------------------------------------------------------------------
  // Window height arithmetic
  // ---------------------------------------------------------------------------

  /** A window's `widthxheight+x+y`. */
  datatype WindowGeometry = WindowGeometry(width: int, height: int, x: int, y: int)

  function MaxInt(a: int, b: int): int {
    if a < b then b else a
  }

  /**
   * The geometry after showing (`expand`) or hiding the debug panel: showing
   * adds the panel height, capped 100 pixels short of the screen, and a
   * capped window that would reach within 50 pixels of the bottom moves up;
   * hiding removes the panel height down to the minimum window height.
   */
  function AdjustedGeometry(g: WindowGeometry, expand: bool, screenHeight: int, minHeight: int): WindowGeometry {
    if expand then
      var maxHeight := screenHeight - 100;
      if g.height + DebugPanelHeight > maxHeight then
        var y := if g.y + maxHeight > screenHeight - 50 then MaxInt(50, screenHeight - maxHeight - 50) else g.y;
        WindowGeometry(g.width, maxHeight, g.x, y)
      else
        WindowGeometry(g.width, g.height + DebugPanelHeight, g.x, g.y)
    else
      WindowGeometry(g.width, MaxInt(minHeight, g.height - DebugPanelHeight), g.x, g.y)
  }

  /** Hiding the panel never shrinks the window below the minimum height, and only the height changes. */
  lemma CollapseRespectsMinimum(g: WindowGeometry, screenHeight: int, minHeight: int)
    ensures var r := AdjustedGeometry(g, false, screenHeight, minHeight);
      && r.height >= minHeight && r.height >= g.height - DebugPanelHeight
      && (r.height == minHeight || r.height == g.height - DebugPanelHeight)
      && r.width == g.width && r.x == g.x && r.y == g.y
  {
  }

  /**
   * Showing the panel grows the window by the panel height up to the cap;
   * a capped window ends at least 50 pixels above the bottom of the screen:
   * its top moves up to 50 when it was lower, and stays otherwise; the width
   * and the horizontal position stay.
   */
  lemma ExpandFitsScreen(g: WindowGeometry, screenHeight: int, minHeight: int)
    ensures var r := AdjustedGeometry(g, true, screenHeight, minHeight);
      && r.height <= g.height + DebugPanelHeight && r.height <= screenHeight - 100
      && (r.height == g.height + DebugPanelHeight || r.height == screenHeight - 100)
      && r.width == g.width && r.x == g.x && r.y <= g.y
      && (r.height < g.height + DebugPanelHeight ==> r.y + r.height <= screenHeight - 50)
      && (r.height < g.height + DebugPanelHeight ==> r.y == if g.y > 50 then 50 else g.y)
  {
  }

  /** Hiding the panel right after showing it restores the window, when the screen did not cap it. */
  lemma CollapseUndoesExpand(g: WindowGeometry, screenHeight: int, minHeight: int)
    requires g.height + DebugPanelHeight <= screenHeight - 100
    requires minHeight <= g.height
    ensures AdjustedGeometry(AdjustedGeometry(g, true, screenHeight, minHeight), false, screenHeight, minHeight) == g
  {
  }

  /** Showing the panel right after hiding it restores the window, when the minimum did not hold it up. */
  lemma ExpandUndoesCollapse(g: WindowGeometry, screenHeight: int, minHeight: int)
    requires minHeight <= g.height - DebugPanelHeight
    requires g.height <= screenHeight - 100
    ensures AdjustedGeometry(AdjustedGeometry(g, false, screenHeight, minHeight), true, screenHeight, minHeight) == g
  {
  }

  /**
   * `_adjust_window_size_for_debug` on the parsed geometry: the new height and
   * position are computed into locals step by step. The screen height and the
   * minimum window height are what the windowing system and the configuration give.
   */
  method AdjustWindowSizeForDebug(current: WindowGeometry, expand: bool, screenHeight: int, minHeight: int)
    returns (r: WindowGeometry)
    ensures r == AdjustedGeometry(current, expand, screenHeight, minHeight)
  {
    var y := current.y;
    var newHeight;
    if expand {
      newHeight := current.height + DebugPanelHeight;
      var maxHeight := screenHeight - 100;
      if newHeight > maxHeight {
        newHeight := maxHeight;
        if y + newHeight > screenHeight - 50 {
          y := MaxInt(50, screenHeight - newHeight - 50);
        }
      }
    } else {
      newHeight := MaxInt(minHeight, current.height - DebugPanelHeight);
    }
    r := WindowGeometry(current.width, newHeight, current.x, y);
  }

  /** `not self.selected_process_pid`: no pid, or pid 0, counts as nothing selected. */
  predicate PidSelected(pid: Option<int>) {
    pid.Some? && pid.value != 0
  }

  // ---------------------------------------------------------------------------
  // The window object
  // ---------------------------------------------------------------------------

  class MySoloKeeperGui {
    var isDetecting: bool
    var isGuarding: bool
    /** The guard switch widget's value. */
    var guardEnabled: bool
    var selectedProcessPid: Option<int>
    var lastGuardActionTime: real
    const guardActionCooldown: real
    /** The audio-alert checkbox's value. */
    var enableAudioAlert: bool
    var detectedHumans: seq<Box>
    const coordinateProcessor: CoordinateProcessor

    var debugHistory: seq<DebugEntry>
    const maxDebugEntries: nat
    var currentDebugIndex: int
    /** Every entry added since the history was last cleared. */
    ghost var addedSinceClear: seq<DebugEntry>
    /** The navigation label's text and the two buttons' enabled state. */
    var debugInfoLabel: string
    var debugPrevEnabled: bool
    var debugNextEnabled: bool
    /** The text of the prompt and response panes. */
    var promptDisplay: string
    var responseDisplay: string

    /**
     * The history is the most recent entries added since the last clear, at
     * most `maxDebugEntries` of them, and the cursor is -1 on an empty history
     * and inside it otherwise.
     */
    ghost predicate DebugValid()
      reads this
    {
      && 1 <= maxDebugEntries
      && debugHistory == LastN(addedSinceClear, maxDebugEntries)
      && (debugHistory == [] <==> currentDebugIndex == -1)
      && -1 <= currentDebugIndex < |debugHistory|
    }

    /** The navigation bar shows the cursor's position. */
    ghost predicate NavConsistent()
      reads this
    {
      NavView(debugInfoLabel, debugPrevEnabled, debugNextEnabled) == NavFor(|debugHistory|, currentDebugIndex)
    }

    /** The two panes show `e`. */
    ghost predicate Showing(e: DebugEntry)
      reads this
    {
      promptDisplay == Stamped(e.timestamp, e.prompt) && responseDisplay == Stamped(e.timestamp, e.response)
    }

    /** The initial state of the window: nothing detected, guarded or recorded; buttons start enabled. */
    constructor(cfg: Thresholds, sqrt: real -> real)
      ensures !isDetecting && !isGuarding && !guardEnabled && selectedProcessPid == None
      ensures lastGuardActionTime == 0.0 && guardActionCooldown == GuardActionCooldown
      ensures enableAudioAlert && detectedHumans == []
      ensures debugHistory == [] && maxDebugEntries == MaxDebugEntries && currentDebugIndex == -1
      ensures debugInfoLabel == "0/0" && debugPrevEnabled && debugNextEnabled
      ensures promptDisplay == "" && responseDisplay == ""
      ensures fresh(coordinateProcessor)
      ensures coordinateProcessor.CanvasSize() == Canvas(CameraWidth, CameraHeight)
      ensures coordinateProcessor.State() == TrackState([], 0)
      ensures coordinateProcessor.cfg == cfg && coordinateProcessor.sqrt == sqrt
      ensures DebugValid()
    {
      isDetecting := false;
      isGuarding := false;
      guardEnabled := false;
      selectedProcessPid := None;
      lastGuardActionTime := 0.0;
      guardActionCooldown := GuardActionCooldown;
      enableAudioAlert := true;
      detectedHumans := [];
      coordinateProcessor := new CoordinateProcessor(CameraWidth, CameraHeight, cfg, sqrt);
      debugHistory := [];
      maxDebugEntries := MaxDebugEntries;
      currentDebugIndex := -1;
      addedSinceClear := [];
      debugInfoLabel := "0/0";
      debugPrevEnabled := true;
      debugNextEnabled := true;
      promptDisplay := "";
      responseDisplay := "";
    }

    /** `update_debug_display`: show the entry under the cursor, if there is one. */
    method UpdateDebugDisplay()
      requires currentDebugIndex < |debugHistory|
      modifies this`promptDisplay, this`responseDisplay
      ensures if debugHistory != [] && 0 <= currentDebugIndex
              then Showing(debugHistory[currentDebugIndex])
              else promptDisplay == old(promptDisplay) && responseDisplay == old(responseDisplay)
    {
      if debugHistory == [] || currentDebugIndex < 0 {
        return;
      }
      var entry := debugHistory[currentDebugIndex];
      promptDisplay := Stamped(entry.timestamp, entry.prompt);
      responseDisplay := Stamped(entry.timestamp, entry.response);
    }

    /** `update_debug_nav_info`: refresh the label and the two buttons from the cursor. */
    method UpdateDebugNavInfo()
      modifies this`debugInfoLabel, this`debugPrevEnabled, this`debugNextEnabled
      ensures NavConsistent()
    {
      if debugHistory == [] {
        debugInfoLabel := "0/0";
        debugPrevEnabled := false;
        debugNextEnabled := false;
      } else {
        var total := |debugHistory|;
        var current := currentDebugIndex + 1;
        debugInfoLabel := ShowInt(current) + "/" + ShowNat(total);
        debugPrevEnabled := currentDebugIndex > 0;
        debugNextEnabled := currentDebugIndex < total - 1;
      }
    }

    /**
     * `add_debug_info`: append the exchange, drop the oldest entry when over
     * the limit, put the cursor on the newest entry and show it.
     */
    method AddDebugInfo(prompt: string, response: string, timestamp: string)
      requires DebugValid()
      modifies this`debugHistory, this`currentDebugIndex, this`addedSinceClear
      modifies this`promptDisplay, this`responseDisplay
      modifies this`debugInfoLabel, this`debugPrevEnabled, this`debugNextEnabled
      ensures var entry := DebugEntry(timestamp, prompt, response);
        && debugHistory == PushBounded(old(debugHistory), entry, maxDebugEntries)
        && addedSinceClear == old(addedSinceClear) + [entry]
        && |debugHistory| <= maxDebugEntries
        && debugHistory[|debugHistory| - 1] == entry
        && currentDebugIndex == |debugHistory| - 1
        && Showing(entry)
      ensures DebugValid() && NavConsistent()
    {
      var entry := DebugEntry(timestamp, prompt, response);
      ghost var pushed := PushBounded(debugHistory, entry, maxDebugEntries);
      PushBoundedShape(debugHistory, entry, maxDebugEntries);
      PushBoundedKeepsWindow(addedSinceClear, entry, maxDebugEntries);
      debugHistory := debugHistory + [entry];
      if |debugHistory| > maxDebugEntries {
        debugHistory := debugHistory[1..];
      }
      assert debugHistory == pushed;
      addedSinceClear := addedSinceClear + [entry];
      currentDebugIndex := |debugHistory| - 1;
      UpdateDebugDisplay();
      UpdateDebugNavInfo();
    }

    /**
     * `prev_debug_entry`: step the cursor back by one unless it is at the
     * oldest entry and show that entry. The navigation bar is left as it was.
     */
    method PrevDebugEntry()
      requires DebugValid()
      modifies this`currentDebugIndex, this`promptDisplay, this`responseDisplay
      ensures currentDebugIndex == if old(currentDebugIndex) > 0 then old(currentDebugIndex) - 1 else old(currentDebugIndex)
      ensures currentDebugIndex != old(currentDebugIndex) ==> Showing(debugHistory[currentDebugIndex])
      ensures currentDebugIndex == old(currentDebugIndex) ==> promptDisplay == old(promptDisplay) && responseDisplay == old(responseDisplay)
      ensures DebugValid()
    {
      if debugHistory == [] {
        return;
      }
      if currentDebugIndex > 0 {
        currentDebugIndex := currentDebugIndex - 1;
        UpdateDebugDisplay();
      }
    }

    /**
     * `next_debug_entry`: step the cursor forward by one unless it is at the
     * newest entry and show that entry. The navigation bar is left as it was.
     */
    method NextDebugEntry()
      requires DebugValid()
      modifies this`currentDebugIndex, this`promptDisplay, this`responseDisplay
      ensures currentDebugIndex
              == if old(currentDebugIndex) < |debugHistory| - 1 then old(currentDebugIndex) + 1 else old(currentDebugIndex)
      ensures currentDebugIndex != old(currentDebugIndex) ==> Showing(debugHistory[currentDebugIndex])
      ensures currentDebugIndex == old(currentDebugIndex) ==> promptDisplay == old(promptDisplay) && responseDisplay == old(responseDisplay)
      ensures DebugValid()
    {
      if debugHistory == [] {
        return;
      }
      if currentDebugIndex < |debugHistory| - 1 {
        currentDebugIndex := currentDebugIndex + 1;
        UpdateDebugDisplay();
      }
    }

    /** `prev_debug_entry` with the navigation bar refreshed after the move. */
    method PrevDebugEntryWithNav()
      requires DebugValid()
      modifies this`currentDebugIndex, this`promptDisplay, this`responseDisplay
      modifies this`debugInfoLabel, this`debugPrevEnabled, this`debugNextEnabled
      ensures currentDebugIndex == if old(currentDebugIndex) > 0 then old(currentDebugIndex) - 1 else old(currentDebugIndex)
      ensures currentDebugIndex != old(currentDebugIndex) ==> Showing(debugHistory[currentDebugIndex])
      ensures currentDebugIndex == old(currentDebugIndex) ==> promptDisplay == old(promptDisplay) && responseDisplay == old(responseDisplay)
      ensures DebugValid() && NavConsistent()
    {
      PrevDebugEntry();
      UpdateDebugNavInfo();
    }

    /** `next_debug_entry` with the navigation bar refreshed after the move. */
    method NextDebugEntryWithNav()
      requires DebugValid()
      modifies this`currentDebugIndex, this`promptDisplay, this`responseDisplay
      modifies this`debugInfoLabel, this`debugPrevEnabled, this`debugNextEnabled
      ensures currentDebugIndex
              == if old(currentDebugIndex) < |debugHistory| - 1 then old(currentDebugIndex) + 1 else old(currentDebugIndex)
      ensures currentDebugIndex != old(currentDebugIndex) ==> Showing(debugHistory[currentDebugIndex])
      ensures currentDebugIndex == old(currentDebugIndex) ==> promptDisplay == old(promptDisplay) && responseDisplay == old(responseDisplay)
      ensures DebugValid() && NavConsistent()
    {
      NextDebugEntry();
      UpdateDebugNavInfo();
    }

    /** `clear_debug_info`: empty the history and both panes. */
    method ClearDebugInfo()
      requires 1 <= maxDebugEntries
      modifies this`debugHistory, this`currentDebugIndex, this`addedSinceClear
      modifies this`promptDisplay, this`responseDisplay
      modifies this`debugInfoLabel, this`debugPrevEnabled, this`debugNextEnabled
      ensures debugHistory == [] && addedSinceClear == [] && currentDebugIndex == -1
      ensures promptDisplay == "" && responseDisplay == ""
      ensures debugInfoLabel == "0/0" && !debugPrevEnabled && !debugNextEnabled
      ensures DebugValid() && NavConsistent()
    {
      debugHistory := [];
      addedSinceClear := [];
      currentDebugIndex := -1;
      promptDisplay := "";
      responseDisplay := "";
      UpdateDebugNavInfo();
    }

    /** `select_process`: remember the pid of the process picked in the list. */
    method SelectProcess(pid: int)
      modifies this`selectedProcessPid
      ensures selectedProcessPid == Some(pid)
    {
      selectedProcessPid := Some(pid);
    }

    /** `start_detection`: detection runs once the camera has started; otherwise nothing changes. */
    method StartDetection(cameraStarted: bool)
      modifies this`isDetecting
      ensures isDetecting == (cameraStarted || old(isDetecting))
    {
      if !cameraStarted {
        return;
      }
      isDetecting := true;
    }

    /** `stop_detection`: stop and forget everything the tracker remembers. */
    method StopDetection()
      modifies this`isDetecting, coordinateProcessor`previousHumans, coordinateProcessor`noHumanCounter
      ensures !isDetecting && coordinateProcessor.State() == TrackState([], 0)
    {
      isDetecting := false;
      coordinateProcessor.Reset();
    }

    /**
     * `toggle_guard`, run after the switch changed: switching on starts
     * guarding only with a selected process and running detection, and
     * otherwise turns the switch back off and leaves guarding as it was;
     * switching off stops guarding.
     */
    method ToggleGuard()
      modifies this`guardEnabled, this`isGuarding
      ensures guardEnabled == (old(guardEnabled) && PidSelected(selectedProcessPid) && isDetecting)
      ensures isGuarding
              == if !old(guardEnabled) then false
                 else if PidSelected(selectedProcessPid) && isDetecting then true
                 else old(isGuarding)
    {
      if guardEnabled {
        if !PidSelected(selectedProcessPid) {
          guardEnabled := false;
          return;
        }
        if !isDetecting {
          guardEnabled := false;
          return;
        }
        isGuarding := true;
      } else {
        isGuarding := false;
      }
    }

    /**
     * A click on the guard switch: the switch flips, then `toggle_guard` runs.
     * Switching on starts guarding exactly when a process is selected and
     * detection runs; switching off stops it. Switch and guarding stay in step.
     */
    method ClickGuardSwitch()
      modifies this`guardEnabled, this`isGuarding
      ensures guardEnabled == (!old(guardEnabled) && PidSelected(selectedProcessPid) && isDetecting)
      ensures isGuarding
              == if old(guardEnabled) then false
                 else if PidSelected(selectedProcessPid) && isDetecting then true
                 else old(isGuarding)
      ensures old(isGuarding == guardEnabled) ==> isGuarding == guardEnabled
      ensures isGuarding && !old(isGuarding) ==> PidSelected(selectedProcessPid) && isDetecting
    {
      guardEnabled := !guardEnabled;
      ToggleGuard();
    }

    /**
     * `trigger_guard_action` at time `now`; `minimized` is whether minimising
     * the guarded process's windows succeeded. Within the cooldown nothing
     * happens; otherwise minimising is attempted, and only a success restarts
     * the cooldown and, with alerts on, sounds the alarm.
     */
    method TriggerGuardAction(now: real, minimized: bool) returns (attempted: bool, alerted: bool)
      modifies this`lastGuardActionTime
      ensures attempted <==> now - old(lastGuardActionTime) >= guardActionCooldown
      ensures lastGuardActionTime == if attempted && minimized then now else old(lastGuardActionTime)
      ensures alerted <==> attempted && minimized && enableAudioAlert
    {
      if now - lastGuardActionTime < guardActionCooldown {
        return false, false;
      }
      attempted := true;
      alerted := false;
      if minimized {
        lastGuardActionTime := now;
        if enableAudioAlert {
          alerted := true;
        }
      }
    }

    /**
     * One pass of the detection loop after a frame of `imageWidth` by
     * `imageHeight` was captured and `response` came back: the processor
     * takes the frame's size; a non-empty reply is processed and becomes the
     * detected boxes; a guard action is tried only while guarding a selected
     * process with something detected.
     */
    method DetectionCycle(imageWidth: int, imageHeight: int, response: string,
                          decode: string -> Decoded, now: real, minimized: bool)
      returns (attempted: bool, alerted: bool)
      modifies this`detectedHumans, this`lastGuardActionTime
      modifies coordinateProcessor`canvasWidth, coordinateProcessor`canvasHeight
      modifies coordinateProcessor`previousHumans, coordinateProcessor`noHumanCounter
      ensures coordinateProcessor.CanvasSize() == Canvas(imageWidth, imageHeight)
      ensures response == [] ==>
        && detectedHumans == old(detectedHumans)
        && coordinateProcessor.State() == old(coordinateProcessor.State())
      ensures response != [] ==>
        var canvas := Canvas(imageWidth, imageHeight);
        (coordinateProcessor.State(), detectedHumans)
        == Step(old(coordinateProcessor.State()), KeepValid(Parse(response, decode), canvas, coordinateProcessor.cfg),
                canvas, coordinateProcessor.cfg, coordinateProcessor.sqrt)
      ensures attempted <==>
        && response != [] && isGuarding && detectedHumans != [] && PidSelected(selectedProcessPid)
        && now - old(lastGuardActionTime) >= guardActionCooldown
      ensures lastGuardActionTime == if attempted && minimized then now else old(lastGuardActionTime)
      ensures alerted <==> attempted && minimized && enableAudioAlert
      ensures old(coordinateProcessor.Valid()) ==> coordinateProcessor.Valid()
    {
      coordinateProcessor.canvasWidth := imageWidth;
      coordinateProcessor.canvasHeight := imageHeight;
      attempted, alerted := false, false;
      if response != [] {
        var humans := coordinateProcessor.ProcessHumans(response, decode);
        detectedHumans := humans;
        if isGuarding && humans != [] && PidSelected(selectedProcessPid) {
          attempted, alerted := TriggerGuardAction(now, minimized);
        }
      }
    }
  }

  /** The labels of a two-entry history. */
  lemma NavTextsOfTwoEntries()
    ensures NavFor(2, 1).text == "2/2" && NavFor(2, 0).text == "1/2"
  {
    assert ShowNat(1) == ['1'] && ShowNat(2) == ['2'];
  }

  /**
   * Two exchanges are recorded and the user steps back once: the panes show
   * the first exchange, but the bar still reads "2/2" with "next" disabled,
   * because `prev_debug_entry` does not refresh the navigation bar.
   */
  method StaleNavAfterPrev(cfg: Thresholds, sqrt: real -> real, first: DebugEntry, second: DebugEntry)
    returns (navText: string, nextEnabled: bool, index: int, total: int, shownPrompt: string)
    ensures index == 0 && total == 2 && shownPrompt == Stamped(first.timestamp, first.prompt)
    ensures navText == "2/2" && !nextEnabled
  {
    var gui := new MySoloKeeperGui(cfg, sqrt);
    gui.AddDebugInfo(first.prompt, first.response, first.timestamp);
    gui.AddDebugInfo(second.prompt, second.response, second.timestamp);
    assert |gui.debugHistory| == 2 && gui.currentDebugIndex == 1;
    assert gui.debugInfoLabel == NavFor(2, 1).text;
    gui.PrevDebugEntry();
    NavTextsOfTwoEntries();
    navText, nextEnabled, index, total := gui.debugInfoLabel, gui.debugNextEnabled, gui.currentDebugIndex, |gui.debugHistory|;
    shownPrompt := gui.promptDisplay;
  }

  /** The same steps with the bar refreshed after the move: it reads "1/2" with "next" enabled. */
  method NavAfterPrevWithNav(cfg: Thresholds, sqrt: real -> real, first: DebugEntry, second: DebugEntry)
    returns (navText: string, nextEnabled: bool, index: int, total: int, shownPrompt: string)
    ensures index == 0 && total == 2 && shownPrompt == Stamped(first.timestamp, first.prompt)
    ensures navText == "1/2" && nextEnabled
  {
    var gui := new MySoloKeeperGui(cfg, sqrt);
    gui.AddDebugInfo(first.prompt, first.response, first.timestamp);
    gui.AddDebugInfo(second.prompt, second.response, second.timestamp);
    assert |gui.debugHistory| == 2 && gui.currentDebugIndex == 1;
    gui.PrevDebugEntryWithNav();
    NavTextsOfTwoEntries();
    navText, nextEnabled, index, total := gui.debugInfoLabel, gui.debugNextEnabled, gui.currentDebugIndex, |gui.debugHistory|;
    shownPrompt := gui.promptDisplay;
  }
}
