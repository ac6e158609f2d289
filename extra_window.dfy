/**
 * The non-rendering logic of ExtraWindow.js: which configured windows a scene
 * shows, the automatic height written back into the configuration entry, and
 * the `Window_SceneExtra` openness and redraw rules.
 */
module ExtraWindow {
  import opened Common

  /** The height the auto-height rule falls back to when `LineHeight` is 0. */
  const DEFAULT_LINE_HEIGHT := 36

  /** Openness of a fully open window. */
  const OPENNESS_OPEN := 255

  /**
   * One entry of the `WindowList` parameter. `height` is 0 when unset and is the
   * one field the plugin writes back.
   */
  class WindowData {
    const sceneName: string
    const text: string
    const lineHeight: int
    const switchId: int
    const showOpenAnimation: bool
    const width: int
    var height: int

    constructor (sceneName: string, text: string, lineHeight: int, switchId: int,
                 showOpenAnimation: bool, width: int, height: int)
      ensures this.sceneName == sceneName && this.text == text && this.lineHeight == lineHeight
      ensures this.switchId == switchId && this.showOpenAnimation == showOpenAnimation
      ensures this.width == width && this.height == height
    {
      this.sceneName := sceneName;
      this.text := text;
      this.lineHeight := lineHeight;
      this.switchId := switchId;
      this.showOpenAnimation := showOpenAnimation;
      this.width := width;
      this.height := height;
    }
  }

  /** The entries configured for the scene named `sceneName`, in configured order. */
  function FilterScene(list: seq<WindowData>, sceneName: string): (r: seq<WindowData>)
    ensures |r| <= |list|
    ensures forall k :: 0 <= k < |r| ==> r[k] in list && r[k].sceneName == sceneName
    ensures forall k :: 0 <= k < |list| && list[k].sceneName == sceneName ==> list[k] in r
  {
    if list == [] then []
    else
      var front := FilterScene(list[..|list| - 1], sceneName);
      var last := list[|list| - 1];
      assert forall k :: 0 <= k < |list| - 1 ==> list[k] == list[..|list| - 1][k];
      if last.sceneName == sceneName then front + [last] else front
  }

  /** Selecting distributes over concatenation: the configured order is kept. */
  lemma {:induction false} FilterSceneAppend(a: seq<WindowData>, b: seq<WindowData>, sceneName: string)
    ensures FilterScene(a + b, sceneName) == FilterScene(a, sceneName) + FilterScene(b, sceneName)
    decreases |b|
  {
    if b != [] {
      var front := b[..|b| - 1];
      assert (a + b)[..|a + b| - 1] == a + front;
      assert (a + b)[|a + b| - 1] == b[|b| - 1];
      FilterSceneAppend(a, front, sceneName);
    } else {
      assert a + b == a;
    }
  }

  /** A single entry is kept exactly when its scene name matches. */
  lemma FilterSceneSingle(w: WindowData, sceneName: string)
    ensures FilterScene([w], sceneName) == (if w.sceneName == sceneName then [w] else [])
  {
    assert [w][..0] == [];
  }

  /** `findExtraWindowList()`: a missing `WindowList` parameter selects nothing. */
  function FindExtraWindowList(list: Option<seq<WindowData>>, sceneName: string): (r: seq<WindowData>)
    ensures list.None? ==> r == []
    ensures forall k :: 0 <= k < |r| ==> list.Some? && r[k] in list.value && r[k].sceneName == sceneName
    ensures list.Some? ==>
      forall k :: 0 <= k < |list.value| && list.value[k].sceneName == sceneName ==> list.value[k] in r
  {
    if list.Some? then FilterScene(list.value, sceneName) else []
  }

  /** `text.split('\n')`: the pieces between newlines, at least one. */
  function SplitLines(s: string): (r: seq<string>)
    ensures |r| >= 1
    ensures forall k :: 0 <= k < |r| ==> '\n' !in r[k]
  {
    if s == [] then [[]]
    else
      var rest := SplitLines(s[1..]);
      if s[0] == '\n' then [[]] + rest
      else
        var r := [[s[0]] + rest[0]] + rest[1..];
        assert forall k :: 1 <= k < |r| ==> r[k] == rest[k];
        r
  }

  /** The pieces joined back with newlines. */
  function JoinLines(parts: seq<string>): (r: string)
    requires |parts| >= 1
  {
    if |parts| == 1 then parts[0] else parts[0] + ['\n'] + JoinLines(parts[1..])
  }

  /** Splitting at newlines and joining with newlines gives the text back. */
  lemma {:induction false} SplitJoin(s: string)
    ensures JoinLines(SplitLines(s)) == s
  {
    if s != [] {
      var rest := SplitLines(s[1..]);
      SplitJoin(s[1..]);
      if s[0] == '\n' {
        assert SplitLines(s)[1..] == rest;
        assert JoinLines(SplitLines(s)) == [] + ['\n'] + JoinLines(rest);
      } else {
        var r := SplitLines(s);
        assert r[1..] == rest[1..];
        if |rest| == 1 {
          assert JoinLines(r) == [s[0]] + rest[0];
        } else {
          assert JoinLines(rest) == rest[0] + ['\n'] + JoinLines(rest[1..]);
          assert JoinLines(r) == ([s[0]] + rest[0]) + ['\n'] + JoinLines(rest[1..]);
        }
      }
    }
  }

  /** The number of newline characters in `s`. */
  function CountNewlines(s: string): (r: nat)
  {
    if s == [] then 0 else (if s[0] == '\n' then 1 else 0) + CountNewlines(s[1..])
  }

  /** There is one more line than there are newlines. */
  lemma {:induction false} SplitLinesCount(s: string)
    ensures |SplitLines(s)| == CountNewlines(s) + 1
  {
    if s != [] {
      SplitLinesCount(s[1..]);
    }
  }

  /** `lineCount * (LineHeight || 36) + windowPadding() * 2` */
  function AutoHeight(text: string, lineHeight: int, padding: int): (r: int)
    ensures r == (CountNewlines(text) + 1) * (if lineHeight != 0 then lineHeight else DEFAULT_LINE_HEIGHT) + 2 * padding
  {
    SplitLinesCount(text);
    |SplitLines(text)| * (if lineHeight != 0 then lineHeight else DEFAULT_LINE_HEIGHT) + padding * 2
  }

  /** With non-negative line height and padding the automatic height is at least one line. */
  lemma AutoHeightPositive(text: string, lineHeight: int, padding: int)
    requires lineHeight >= 0 && padding >= 0
    ensures AutoHeight(text, lineHeight, padding) >= (if lineHeight != 0 then lineHeight else DEFAULT_LINE_HEIGHT)
  {
  }

  /** The height an entry has after a scene creates its window: a configured height is kept. */
  function HeightAfterCreate(height: int, w: WindowData, padding: int): (h: int)
    ensures height != 0 ==> h == height
    ensures height == 0 ==> h == AutoHeight(w.text, w.lineHeight, padding)
  {
    if height != 0 then height else AutoHeight(w.text, w.lineHeight, padding)
  }

  /**
   * Because the height is written back, creating the scene again changes
   * nothing more: the entry keeps the height the first creation gave it.
   */
  lemma HeightSettles(height: int, w: WindowData, padding: int)
    ensures HeightAfterCreate(HeightAfterCreate(height, w, padding), w, padding)
      == HeightAfterCreate(height, w, padding)
  {
  }

  /**
   * The openness a new window starts with: closed when it animates its opening
   * or its switch is off, fully open otherwise.
   */
  function InitialOpenness(data: WindowData, switches: SwitchStore): (r: int)
    ensures r == 0 || r == OPENNESS_OPEN
    ensures r == OPENNESS_OPEN <==> !data.showOpenAnimation && (data.switchId == 0 || SwitchValue(switches, data.switchId))
  {
    if data.showOpenAnimation || !(data.switchId == 0 || SwitchValue(switches, data.switchId)) then 0 else OPENNESS_OPEN
  }

  /** What `open()` and `close()` ask of the engine's openness animation. */
  datatype OpenRequest = NoRequest | OpenRequested | CloseRequested

  /** `Window_SceneExtra` */
  class WindowSceneExtra {
    const data: WindowData
    var openness: int
    var request: OpenRequest
    /** `_text`: the converted text last drawn, `None` before the first draw. */
    var text: Option<string>
    /** The texts drawn so far, each after clearing the contents. */
    var drawn: seq<string>

    /** The cached text is the one on screen. */
    predicate Valid()
      reads this
    {
      (text.None? <==> drawn == []) && (text.Some? ==> drawn[|drawn| - 1] == text.value)
    }

    /**
     * The state a new window is in: its text drawn once and cached, openness
     * as `InitialOpenness` gives it, and no open or close requested.
     */
    predicate InitialState(switches: SwitchStore, converted: string)
      reads this
    {
      && text == Some(converted) && drawn == [converted] && Valid()
      && openness == InitialOpenness(data, switches) && request == NoRequest
    }

    /** `isValid()`: no switch configured, or that switch is on. */
    function IsValid(switches: SwitchStore): (r: bool)
      ensures data.switchId == 0 ==> r
      ensures data.switchId != 0 ==> (r <==> data.switchId in switches && switches[data.switchId])
    {
      data.switchId == 0 || SwitchValue(switches, data.switchId)
    }

    /** `lineHeight()`: the configured `LineHeight`, or the inherited one when it is 0. */
    function LineHeight(inherited: int): (r: int)
      ensures data.lineHeight != 0 ==> r == data.lineHeight
      ensures data.lineHeight == 0 ==> r == inherited
    {
      if data.lineHeight != 0 then data.lineHeight else inherited
    }

    /**
     * The constructor: the window starts fully open unless it animates its
     * opening or is not valid yet, then draws its text. `converted` is the
     * result of `convertEscapeCharacters(Text)`.
     */
    constructor (data: WindowData, switches: SwitchStore, converted: string)
      ensures this.data == data
      ensures openness == InitialOpenness(data, switches)
      ensures request == NoRequest
      ensures text == Some(converted) && drawn == [converted]
      ensures Valid()
    {
      this.data := data;
      openness := OPENNESS_OPEN;
      request := NoRequest;
      text := None;
      drawn := [];
      new;
      if data.showOpenAnimation || !IsValid(switches) {
        openness := 0;
      }
      DrawAllText(converted);
    }

    /** `drawAllText()`: clears and redraws only when the converted text changed. */
    method DrawAllText(newText: string)
      requires Valid()
      modifies this
      ensures text == Some(newText)
      ensures drawn == (if old(text) == Some(newText) then old(drawn) else old(drawn) + [newText])
      ensures openness == old(openness) && request == old(request)
      ensures Valid()
    {
      if text != Some(newText) {
        text := Some(newText);
        drawn := drawn + [newText];
      }
    }

    /**
     * `update()`: an animated window asks to open or close with the switch; any
     * other window is set fully open or fully closed. Then the text is redrawn
     * if it changed.
     */
    method Update(switches: SwitchStore, newText: string)
      requires Valid()
      modifies this
      ensures !data.showOpenAnimation ==>
        openness == (if IsValid(switches) then OPENNESS_OPEN else 0) && request == old(request)
      ensures data.showOpenAnimation ==>
        openness == old(openness) && request == (if IsValid(switches) then OpenRequested else CloseRequested)
      ensures text == Some(newText)
      ensures drawn == (if old(text) == Some(newText) then old(drawn) else old(drawn) + [newText])
      ensures Valid()
    {
      if IsValid(switches) {
        if data.showOpenAnimation {
          request := OpenRequested;
        } else {
          openness := OPENNESS_OPEN;
        }
      } else {
        if data.showOpenAnimation {
          request := CloseRequested;
        } else {
          openness := 0;
        }
      }
      DrawAllText(newText);
    }
  }

  /**
   * The callback `Scene_Base.create` maps over the selected entries: an unset
   * (zero) height is replaced, in place, by the automatic height, and a window
   * is created over the entry.
   */
  method CreateExtraWindow(windowData: WindowData, padding: int, switches: SwitchStore, converted: string)
    returns (window: WindowSceneExtra)
    modifies windowData
    ensures windowData.height == HeightAfterCreate(old(windowData.height), windowData, padding)
    ensures fresh(window) && window.data == windowData
    ensures window.text == Some(converted) && window.Valid()
    ensures window.openness == InitialOpenness(windowData, switches) && window.request == NoRequest
    ensures window.drawn == [converted]
  {
    if windowData.height == 0 {
      windowData.height := AutoHeight(windowData.text, windowData.lineHeight, padding);
    }
    window := new WindowSceneExtra(windowData, switches, converted);
  }

  /**
   * The part of `Scene_Base.create` this plugin adds: every window configured
   * for the scene gets its height filled in (written back into its entry) and a
   * `Window_SceneExtra`, in configured order. `convert` stands for
   * `PluginManagerEx.convertEscapeCharacters` and `padding` for
   * `$gameSystem.windowPadding()`.
   */
  method CreateExtraWindows(list: Option<seq<WindowData>>, sceneName: string, padding: int,
                            switches: SwitchStore, convert: string -> string)
    returns (windows: seq<WindowSceneExtra>)
    modifies set w | w in FindExtraWindowList(list, sceneName)
    ensures |windows| == |FindExtraWindowList(list, sceneName)|
    ensures forall w :: w in FindExtraWindowList(list, sceneName) ==>
      w.height == HeightAfterCreate(old(w.height), w, padding)
    ensures forall k :: 0 <= k < |windows| ==>
      fresh(windows[k]) && windows[k].data == FindExtraWindowList(list, sceneName)[k]
    ensures forall k :: 0 <= k < |windows| ==> windows[k].InitialState(switches, convert(windows[k].data.text))
  {
    var selected := FindExtraWindowList(list, sceneName);
    windows := [];
    ghost var done: set<WindowData> := {};
    var i := 0;
    while i < |selected|
      invariant 0 <= i <= |selected|
      invariant |windows| == i
      invariant forall k :: 0 <= k < i ==> selected[k] in done
      invariant forall w :: w in done ==> w in selected
      invariant forall w :: w in done ==> w.height == HeightAfterCreate(old(w.height), w, padding)
      invariant forall w :: w in selected && w !in done ==> w.height == old(w.height)
      invariant forall k :: 0 <= k < i ==> fresh(windows[k]) && windows[k].data == selected[k]
      invariant forall k :: 0 <= k < i ==> windows[k].InitialState(switches, convert(windows[k].data.text))
    {
      var windowData := selected[i];
      var window := CreateExtraWindow(windowData, padding, switches, convert(windowData.text));
      done := done + {windowData};
      windows := windows + [window];
      i := i + 1;
    }
  }
}
