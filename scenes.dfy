/** The application's scene machine: which scene object is current, the state each scene
    reports, the transitions the briefing scene's keys and the top scene's file choice cause,
    and the 16:9 clamp applied to a resized window. Dialogs, widgets and the display are
    inputs: the answer to the exit dialog, the path the file dialog returns, whether a click
    landed on the back widgets. */
module Scenes {
  import opened Geometry

  datatype Option<T> = None | Some(value: T)

  /** The states a scene can report, in the order of the source enum. */
  datatype SceneState = Top | Briefing | Game | Exit | Quit

  /** Which of the three scene classes an object is. */
  datatype SceneKind = TopKind | BriefingKind | GameKind

  /** A path as the scenes use it: its text, whether it names an existing file system entry,
      and its suffix (the text from the last dot of the final component, or empty). */
  datatype FilePath = FilePath(text: string, present: bool, suffix: string)

  /** `Path("")`, the top scene's initial choice: it denotes the current directory, which
      exists, and has no suffix. */
  const EmptyPath := FilePath("", true, "")

  /** An existing path with the `.ork` suffix: the only kind of file for which a briefing
      scene builds and simulates a rocket. */
  predicate IsOrkFile(p: FilePath)
  {
    p.present && p.suffix == ".ork"
  }

  /** pygame key codes. */
  const KeyBackspace := 8
  const KeyReturn := 13
  const KeyEscape := 27

  /** The events the scenes react to. `onBack` says whether a mouse press lands on the back
      icon or its label (the widgets' hit test is not modelled). */
  datatype Event = KeyDown(key: int) | MouseDown(onBack: bool) | OtherEvent

  /** What a scene object holds that the transitions look at. `orkFile` is present exactly for
      a top scene (the only scene class with that attribute); `runsSimulation` says whether a
      briefing scene's constructor took the branch that builds and simulates a rocket; it
      does not say that the constructor finished. */
  datatype SceneView = SceneView(kind: SceneKind, state: SceneState, orkFile: Option<FilePath>, runsSimulation: bool)

  const TopView := SceneView(TopKind, Top, Some(EmptyPath), false)

  /** A fresh briefing scene: it takes the simulation branch only for a `.ork` file that
      exists. */
  function BriefingView(orkFile: Option<FilePath>): (v: SceneView)
    ensures v.kind == BriefingKind && v.state == Briefing && v.orkFile.None?
    ensures v.runsSimulation <==> orkFile.Some? && IsOrkFile(orkFile.value)
  {
    SceneView(BriefingKind, Briefing, None, orkFile.Some? && IsOrkFile(orkFile.value))
  }

  const GameView := SceneView(GameKind, Game, None, false)

  /** The base scene's event handling: Escape asks whether to exit and, if confirmed,
      requests EXIT; nothing else produces a request. */
  function BaseResponse(ev: Event, confirmExit: bool): (r: Option<SceneState>)
    ensures r.Some? <==> ev == KeyDown(KeyEscape) && confirmExit
    ensures r.Some? ==> r.value == Exit
  {
    if ev.KeyDown? && ev.key == KeyEscape && confirmExit then Some(Exit) else None
  }

  /** The state the briefing scene's `handle_event` returns. */
  function BriefingResponse(ev: Event, confirmExit: bool): (r: Option<SceneState>)
    ensures r == Some(Exit) <==> ev == KeyDown(KeyEscape) && confirmExit
    ensures r == Some(Top) <==> ev == KeyDown(KeyBackspace)
    ensures r == Some(Game) <==> ev == KeyDown(KeyReturn)
    ensures r.None? <==> !(ev == KeyDown(KeyBackspace) || ev == KeyDown(KeyReturn)
                           || (ev == KeyDown(KeyEscape) && confirmExit))
  {
    var base := BaseResponse(ev, confirmExit);
    if base.Some? then base
    else if ev.KeyDown? && ev.key == KeyBackspace then Some(Top)
    else if ev.KeyDown? && ev.key == KeyReturn then Some(Game)
    else None
  }

  /** The top scene after its file dialog returned `chosen`: the path is always stored, and
      the scene asks for the briefing only when the path is an existing `.ork` file. */
  function ChooseOrkFile(v: SceneView, chosen: FilePath): (w: SceneView)
    ensures w.orkFile == Some(chosen) && w.kind == v.kind && w.runsSimulation == v.runsSimulation
    ensures w.state == Briefing <==> IsOrkFile(chosen) || v.state == Briefing
    ensures !IsOrkFile(chosen) ==> w.state == v.state
  {
    v.(orkFile := Some(chosen), state := if IsOrkFile(chosen) then Briefing else v.state)
  }

  /** The scene object `switch_scene` installs, or None when it keeps the current one: a
      request for the current state, EXIT or QUIT keeps it. A briefing scene receives the old
      scene's file only when the old scene is a top scene. */
  function SwitchedScene(current: SceneState, newState: SceneState, previous: SceneView): (r: Option<SceneView>)
    ensures r.None? <==> newState == current || newState == Exit || newState == Quit
    ensures r.Some? ==> r.value.state == newState
    ensures r.Some? && newState == Top ==> r.value == TopView
    ensures r.Some? && newState == Game ==> r.value.kind == GameKind
    ensures r.Some? && newState == Briefing ==>
      r.value.kind == BriefingKind &&
      (r.value.runsSimulation <==> previous.kind == TopKind && previous.orkFile.Some? && IsOrkFile(previous.orkFile.value))
  {
    if newState == current then None
    else
      match newState
      case Top => Some(TopView)
      case Briefing =>
        if previous.kind == TopKind && previous.orkFile.Some? then Some(BriefingView(previous.orkFile))
        else Some(BriefingView(None))
      case Game => Some(GameView)
      case Exit => None
      case Quit => None
  }

  /** Switching twice to the same state is the same as switching once: the second request
      names the state the first one installed. */
  lemma SwitchIdempotent(newState: SceneState, installed: SceneView)
    ensures SwitchedScene(newState, newState, installed).None?
  {
  }

  /** From the top scene, a dialog choice decides everything that follows: an existing `.ork`
      file makes the scene report BRIEFING, and the next switch builds a briefing scene from
      that file, which takes the simulation branch; any other choice keeps the top scene
      reporting TOP, so no switch happens. */
  lemma ChoosingOrkFileLeadsToBriefing(v: SceneView, chosen: FilePath)
    requires v.kind == TopKind && v.state == Top
    ensures ChooseOrkFile(v, chosen).state == Briefing <==> IsOrkFile(chosen)
    ensures !IsOrkFile(chosen) ==> ChooseOrkFile(v, chosen).state == Top
    ensures IsOrkFile(chosen) ==>
      SwitchedScene(Top, Briefing, ChooseOrkFile(v, chosen)) == Some(BriefingView(Some(chosen))) &&
      BriefingView(Some(chosen)).runsSimulation
  {
  }

  /** Leaving a briefing or game scene for a briefing never takes the simulation branch. */
  lemma BriefingFromNonTopSkipsSimulation(current: SceneState, previous: SceneView)
    requires previous.kind != TopKind && current != Briefing
    ensures SwitchedScene(current, Briefing, previous) == Some(BriefingView(None))
    ensures !BriefingView(None).runsSimulation
  {
  }

  class Scene {
    const kind: SceneKind
    var state: SceneState
    var orkFile: Option<FilePath>
    const runsSimulation: bool

    ghost function View(): SceneView
      reads this
    {
      SceneView(kind, state, orkFile, runsSimulation)
    }

    constructor TopScene()
      ensures View() == TopView
    {
      kind := TopKind;
      state := Top;
      orkFile := Some(EmptyPath);
      runsSimulation := false;
    }

    /** A briefing scene; it runs the simulation only for an existing `.ork` file. */
    constructor BriefingScene(ork: Option<FilePath>)
      ensures View() == BriefingView(ork)
    {
      kind := BriefingKind;
      state := Briefing;
      orkFile := None;
      runsSimulation := ork.Some? && IsOrkFile(ork.value);
    }

    constructor GameScene()
      ensures View() == GameView
    {
      kind := GameKind;
      state := Game;
      orkFile := None;
      runsSimulation := false;
    }

    /** One frame of a scene: it reports its own state (the updating and drawing of its
        widgets is not modelled). */
    method Exec() returns (s: SceneState)
      ensures s == state
    {
      s := state;
    }

    /** The top scene's file choice, with `chosen` standing for what the dialog returned. */
    method SetOrkFile(chosen: FilePath)
      requires kind == TopKind
      modifies this
      ensures View() == ChooseOrkFile(old(View()), chosen)
    {
      orkFile := Some(chosen);
      if IsOrkFile(chosen) {
        state := Briefing;
      }
    }

    /** The briefing scene's back widgets' action. */
    method BackToTop()
      requires kind == BriefingKind
      modifies this
      ensures View() == old(View()).(state := Top)
    {
      state := Top;
    }

    /** The briefing scene's event handling: the base scene's exit request first, then the
        back widgets (a press on them returns the scene to TOP), then the keys. */
    method HandleBriefingEvent(ev: Event, confirmExit: bool) returns (r: Option<SceneState>)
      requires kind == BriefingKind
      modifies this
      ensures r == BriefingResponse(ev, confirmExit)
      ensures View() == old(View()).(state := if ev == MouseDown(true) then Top else old(state))
    {
      var result := BaseResponse(ev, confirmExit);
      if result.Some? {
        return result;
      }
      if ev.MouseDown? && ev.onBack {
        BackToTop();
      }
      if ev.KeyDown? {
        if ev.key == KeyBackspace {
          return Some(Top);
        }
        if ev.key == KeyReturn {
          return Some(Game);
        }
      }
      return None;
    }
  }

  /** Python's `int()` on a float: truncation toward zero. */
  function Trunc(x: real): (t: int)
    ensures 0.0 <= x ==> t as real <= x < t as real + 1.0
    ensures x < 0.0 ==> t as real - 1.0 < x <= t as real
  {
    if x >= 0.0 then x.Floor else -((-x).Floor)
  }

  /** The window size `adjust_window_size` asks for: a request wider than 16:9 keeps its height
      and truncates `height * 16/9`; any other keeps its width and truncates `width / (16/9)`. */
  function AdjustedSize(width: int, height: int): (int, int)
    requires height != 0
  {
    var targetRatio := 16.0 / 9.0;
    var currentRatio := (width as real) / (height as real);
    if currentRatio > targetRatio then (Trunc((height as real) * targetRatio), height)
    else (width, Trunc((width as real) / targetRatio))
  }

  /** Comparing the float ratio with 16/9 is comparing 9 * width with 16 * height. */
  lemma WiderThanTarget(width: int, height: int)
    requires height > 0
    ensures (width as real) / (height as real) > 16.0 / 9.0 <==> 9 * width > 16 * height
  {
    var w, h := width as real, height as real;
    var q := w / h;
    assert w == q * h;
    var d := q - 16.0 / 9.0;
    assert h * d == w - 16.0 * h / 9.0;
    if d > 0.0 {
      MulPositive(h, d);
    } else {
      MulPositive(h, -d);
    }
  }

  /** The clamp in integers: a wide request keeps its height and gets the largest width not
      above 16:9; any other keeps its width and gets the height that truncates 9/16 of it. */
  lemma AdjustedSizeExact(width: int, height: int)
    requires height > 0
    ensures 9 * width > 16 * height ==>
      AdjustedSize(width, height).1 == height &&
      9 * AdjustedSize(width, height).0 <= 16 * height < 9 * AdjustedSize(width, height).0 + 9
    ensures 9 * width <= 16 * height && 0 <= width ==>
      AdjustedSize(width, height).0 == width &&
      16 * AdjustedSize(width, height).1 <= 9 * width < 16 * AdjustedSize(width, height).1 + 16
    ensures width < 0 ==>
      AdjustedSize(width, height).0 == width &&
      16 * AdjustedSize(width, height).1 - 16 < 9 * width <= 16 * AdjustedSize(width, height).1
  {
    WiderThanTarget(width, height);
    var w, h := width as real, height as real;
    assert h * (16.0 / 9.0) == 16.0 * h / 9.0;
    assert w / (16.0 / 9.0) == 9.0 * w / 16.0;
  }

  /** The clamp never enlarges the window, keeps at least one requested dimension, and keeps
      both exactly when the request is already 16:9. */
  lemma AdjustedSizeBounds(width: int, height: int)
    requires height > 0
    ensures AdjustedSize(width, height).0 <= width && AdjustedSize(width, height).1 <= height
    ensures AdjustedSize(width, height).0 == width || AdjustedSize(width, height).1 == height
    ensures AdjustedSize(width, height) == (width, height) <==> 9 * width == 16 * height
  {
    AdjustedSizeExact(width, height);
  }

  /** The clamp is not idempotent: a request just wider than 16:9 loses a pixel of width, and
      clamping that result again loses a pixel of height. */
  lemma AdjustedSizeNotIdempotent()
    ensures AdjustedSize(1000, 562) == (999, 562)
    ensures AdjustedSize(999, 562) == (999, 561)
  {
    AdjustedSizeExact(1000, 562);
    AdjustedSizeExact(999, 562);
  }

  /** The application: the window size last set and the current scene with the state it was
      installed for. */
  class AppMain {
    var windowSize: (int, int)
    var scene: Scene
    var currentState: SceneState

    /** A window half the screen's width at 16:9, showing the top scene. */
    constructor (screenWidth: int, screenHeight: int)
      ensures windowSize == (screenWidth / 2, Trunc(((screenWidth / 2) * 9) as real / 16.0))
      ensures fresh(scene) && scene.View() == TopView && currentState == Top
    {
      var baseWidth := screenWidth / 2;
      var baseHeight := Trunc((baseWidth * 9) as real / 16.0);
      windowSize := (baseWidth, baseHeight);
      scene := new Scene.TopScene();
      currentState := Top;
    }

    /** Sets the window to the 16:9 clamp of the requested size and returns it. */
    method AdjustWindowSize(width: int, height: int) returns (newWidth: int, newHeight: int)
      requires height != 0
      modifies this
      ensures (newWidth, newHeight) == AdjustedSize(width, height)
      ensures windowSize == (newWidth, newHeight)
      ensures scene == old(scene) && currentState == old(currentState)
    {
      var targetRatio := 16.0 / 9.0;
      var currentRatio := (width as real) / (height as real);
      if currentRatio > targetRatio {
        newWidth := Trunc((height as real) * targetRatio);
        newHeight := height;
      } else {
        newWidth := width;
        newHeight := Trunc((width as real) / targetRatio);
      }
      windowSize := (newWidth, newHeight);
    }

    /** Installs the scene for `newState`; a request for the current state changes nothing. */
    method SwitchScene(newState: SceneState)
      modifies this
      ensures currentState == newState && windowSize == old(windowSize)
      ensures var next := SwitchedScene(old(currentState), newState, old(scene.View()));
        if next.None? then scene == old(scene) else fresh(scene) && scene.View() == next.value
    {
      if newState == currentState {
        return;
      }
      var oldScene := scene;
      if newState == Top {
        scene := new Scene.TopScene();
      } else if newState == Briefing {
        if oldScene.kind == TopKind && oldScene.orkFile.Some? {
          scene := new Scene.BriefingScene(oldScene.orkFile);
        } else {
          scene := new Scene.BriefingScene(None);
        }
      } else if newState == Game {
        scene := new Scene.GameScene();
      }
      currentState := newState;
    }
  }

  /** The window the application opens with is a fixed point of the clamp exactly when 9/16
      of its width is a whole number; otherwise the truncated height makes it slightly wider
      than 16:9, and clamping it takes a pixel off the width (a 1366-pixel screen opens
      683x384, which clamps to 682x384). */
  lemma InitialSizeStability(screenWidth: int)
    requires screenWidth >= 4
    ensures var w := screenWidth / 2;
            var h := Trunc((w * 9) as real / 16.0);
            h > 0 && (AdjustedSize(w, h) == (w, h) <==> (w * 9) % 16 == 0)
  {
    var w := screenWidth / 2;
    var h := Trunc((w * 9) as real / 16.0);
    assert (w * 9) as real / 16.0 >= 1.0;
    assert 16 * h <= 9 * w < 16 * h + 16;
    AdjustedSizeBounds(w, h);
  }

  /** The 1366-pixel case of the lemma above, worked out. */
  lemma InitialSizeExample()
    ensures 1366 / 2 == 683 && Trunc((683 * 9) as real / 16.0) == 384
    ensures AdjustedSize(683, 384) == (682, 384)
  {
    AdjustedSizeExact(683, 384);
  }
}
