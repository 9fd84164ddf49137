/** game/game_manager.py: which screen is shown, whether the game keeps running, the window fit
    on resize, and the per-event dispatch of poll_events. */
module Session {
  import opened Config
  import opened Geometry
  import opened Events
  import opened Levels
  import opened Players
  import opened Floors
  import opened Physics
  import opened Interface
  import opened Editor

  /** The navigation part of the manager's state. */
  datatype Nav = Nav(state: WindowState, running: bool)

  /** ESC in each screen: the menu quits, the game and the pause screen swap, level select goes
      back to the menu, the editor and its confirmation screen swap. */
  function OnEscape(n: Nav): (r: Nav)
    ensures r.state == Menu <==> n.state == Menu || n.state == Select
    ensures r.running == (n.running && n.state != Menu)
  {
    match n.state
    case Menu => n.(running := false)
    case Game => n.(state := Pause)
    case Pause => n.(state := Game)
    case Select => n.(state := Menu)
    case Edit => n.(state := EditConfirm)
    case EditConfirm => n.(state := Edit)
  }

  /** The navigation effect of one polled event: a window-close request clears `running`, then the
      handler of the current screen sees the event. */
  function OnEvent(n: Nav, ev: Event): (r: Nav)
    ensures !ev.Quit? && !IsKey(ev, Escape) ==> r == n
    ensures ev.Quit? ==> !r.running && r.state == n.state
  {
    var n1 := if ev.Quit? then n.(running := false) else n;
    if IsKey(ev, Escape) then OnEscape(n1) else n1
  }

  /** poll_events' navigation as written. On the editor screen handle_level_editor_events passes
      the exit action to level_editor.handle_event, which accepts only the event, so every event
      there raises TypeError before the ESC test; None stands for that exception. */
  function OnEventAsWritten(n: Nav, ev: Event): Option<Nav>
  {
    if n.state == Edit then None else Some(OnEvent(n, ev))
  }

  /** Off the editor screen the handler as written and the intended one agree on every event; on
      it the handler as written has no result for any event. */
  lemma AsWrittenAgreesOffEditor(n: Nav, ev: Event)
    ensures n.state != Edit ==> OnEventAsWritten(n, ev) == Some(OnEvent(n, ev))
    ensures n.state == Edit ==> OnEventAsWritten(n, ev).None?
  {
  }

  /** As written ESC cannot leave the editor screen; the intended handler opens the confirmation
      screen, and ESC there comes back. */
  lemma EditorEscapeAsWritten(n: Nav)
    requires n.state == Edit
    ensures OnEventAsWritten(n, KeyDown(Escape, "")).None?
    ensures OnEvent(n, KeyDown(Escape, "")) == n.(state := EditConfirm)
    ensures OnEvent(OnEvent(n, KeyDown(Escape, "")), KeyDown(Escape, "")) == n
  {
  }

  /** The editor's exit action: to the menu when the level is saved, otherwise to the
      confirmation screen. It never ends the session, and leaving an unsaved level is undone by
      ESC, which takes the confirmation screen back to the editor. */
  function OnEditorExit(n: Nav, isSaved: bool): (r: Nav)
    ensures r.running == n.running
    ensures !isSaved ==> OnEvent(r, KeyDown(Escape, "")) == n.(state := Edit)
    ensures isSaved ==> r.state == Menu && OnEvent(r, KeyDown(Escape, "")) == n.(state := Menu, running := false)
  {
    n.(state := if isSaved then Menu else EditConfirm)
  }

  /** In the editor the exit button of an unsaved level goes where ESC goes. */
  lemma UnsavedExitIsEscape(n: Nav)
    requires n.state == Edit
    ensures OnEditorExit(n, false) == OnEvent(n, KeyDown(Escape, ""))
    ensures OnEvent(OnEditorExit(n, false), KeyDown(Escape, "")) == n
  {
  }

  /** The exit action as written reads `level_editor.is_saved`, an attribute LevelEditor never
      defines, so it raises AttributeError whatever the editor holds; None stands for that. */
  function OnEditorExitAsWritten(n: Nav): Option<Nav>
  {
    None
  }

  /** As written the exit action never moves; as intended it leaves the editor screen whether or
      not the level was saved. */
  lemma EditorExitAsWrittenRaises(n: Nav, isSaved: bool)
    requires n.state == Edit
    ensures OnEditorExitAsWritten(n).None?
    ensures OnEditorExit(n, isSaved).state != Edit
  {
  }

  function RunEvents(n: Nav, evs: seq<Event>): Nav
    decreases |evs|
  {
    if evs == [] then n else RunEvents(OnEvent(n, evs[0]), evs[1..])
  }

  /** ESC twice returns to the same screen in the game and in the editor. */
  lemma EscapeRoundTrip(n: Nav)
    requires n.state in {Game, Pause, Edit, EditConfirm}
    ensures OnEscape(OnEscape(n)) == n
    ensures OnEscape(n) != n
  {
  }

  /** Only ESC in the menu ends the game; ESC from the level select takes two presses. */
  lemma OnlyMenuEscapeQuits(n: Nav)
    requires n.running
    ensures !OnEscape(n).running <==> n.state == Menu
    ensures n.state == Select ==> OnEscape(n).running && !OnEscape(OnEscape(n)).running
  {
  }

  /** The game is entered by ESC only from the pause screen: ESC never starts a level. */
  lemma EscapeEntersGameOnlyFromPause(n: Nav)
    ensures OnEscape(n).state == Game <==> n.state == Pause
  {
  }

  /** Once the game has stopped running no event restarts it. */
  lemma {:induction false} QuitIsPermanent(n: Nav, evs: seq<Event>)
    requires !n.running
    ensures !RunEvents(n, evs).running
    decreases |evs|
  {
    if evs != [] {
      QuitIsPermanent(OnEvent(n, evs[0]), evs[1..]);
    }
  }

  function Escapes(k: nat): seq<Event>
  {
    seq(k, i => KeyDown(Escape, ""))
  }

  /** Any number of ESC presses in the editor or the game only toggles between the two screens of
      the pair, by parity, and never quits. */
  lemma {:induction false} EscapesAlternate(n: Nav, k: nat)
    requires n.state in {Game, Pause, Edit, EditConfirm}
    ensures RunEvents(n, Escapes(k)) == (if k % 2 == 0 then n else OnEscape(n))
    decreases k
  {
    if k > 0 {
      assert Escapes(k)[0] == KeyDown(Escape, "");
      assert Escapes(k)[1..] == Escapes(k - 1);
      EscapeRoundTrip(n);
      EscapesAlternate(OnEscape(n), k - 1);
    }
  }

  /** handle_resize's window size: keep the requested width and derive the height from the 16:9
      ratio; if that is too tall, keep the height and derive the width. */
  function FitWindow(width: int, height: int): (r: (nat, nat))
    requires width > 0 && height > 0
    ensures r.0 <= width && r.1 <= height && 1 <= r.0
    ensures r.0 == width || r.1 == height
    ensures -9 < 9 * r.0 - 16 * r.1 < 16
  {
    var h := Trunc(width as real / AspectRatio);
    assert width as real / AspectRatio == (9 * width) as real / 16.0;
    assert 16 * h <= 9 * width < 16 * h + 16;
    if h > height then
      var w := Trunc(height as real * AspectRatio);
      assert height as real * AspectRatio == (16 * height) as real / 9.0;
      assert 9 * w <= 16 * height < 9 * w + 9;
      (w, height)
    else
      (width, h)
  }

  /** A window already at 16:9 is kept as it is. */
  lemma FitWindowKeepsExactRatio(k: int)
    requires k > 0
    ensures FitWindow(16 * k, 9 * k) == (16 * k, 9 * k)
  {
    assert (16 * k) as real / AspectRatio == (9 * k) as real;
    TruncOfInt(9 * k);
  }

  class GameManager {
    var running: bool
    var windowState: WindowState
    const floor: Floor
    const player: Player
    const engine: Engine
    const ui: UIManager
    const levelEditor: LevelEditor
    const levels: seq<Level>

    function CurrentNav(): Nav
      reads this
    {
      Nav(windowState, running)
    }

    ghost predicate Valid()
      reads this, ui
    {
      ui.Valid() && engine.floor == floor
    }

    /** __init__ followed by init, with the level list that load_levels reads from disk given as
        a parameter. init fails when no level has index 1 (the level-select view looks it up). */
    constructor (levels: seq<Level>)
      requires LastWithIndex(levels, 1).Some?
      ensures Valid() && fresh(ui) && fresh(player) && fresh(floor)
      ensures CurrentNav() == Nav(Menu, true)
      ensures player.Kin() == ResetState(FloorY) == Kinematics(100.0, 720.0, 0.0, true, 0)
      ensures floor.floorY == FloorY && floor.floorYRatio == DesignFloorRatio
      ensures ui.windowWidth == ScreenWidth && ui.windowHeight == ScreenHeight
      ensures ui.levels == levels && ui.currentPage == 1
      ensures levelEditor.levels == levels && levelEditor.currentLevel == None
    {
      this.levels := levels;
      var u := new UIManager();
      var ok := u.Init(levels);
      ui := u;
      var f := new Floor(FloorY);
      floor := f;
      var e := new Engine(f);
      engine := e;
      levelEditor := new LevelEditor(levels, f);
      var p := new Player();
      e.ResetPlayer(p);
      player := p;
      windowState := Menu;
      running := true;
    }

    /** update's physics step: the player moves only while a level is being played, on the
        current window. */
    method Update(dt: real)
      requires dt > 0.0
      modifies player
      ensures windowState == Game ==>
                player.Kin() == Step(old(player.Kin()), old(player.outerRect.h), ui.windowWidth,
                                     ui.windowHeight, engine.floor.floorYRatio, dt)
      ensures windowState == Game ==>
                var f := Fall(old(player.Kin()), ui.windowHeight, dt);
                && player.outerRect == OuterRectAt(ui.windowWidth, ui.windowHeight, f.x, f.y)
                && player.innerRect == InnerRectAt(ui.windowWidth, ui.windowHeight, f.x, f.y)
      ensures windowState != Game ==>
                player.Kin() == old(player.Kin()) && player.outerRect == old(player.outerRect)
                && player.innerRect == old(player.innerRect)
    {
      if windowState == Game {
        engine.UpdatePlayer(player, dt, ui.windowWidth, ui.windowHeight);
      }
    }

    method GameQuit()
      modifies this`running
      ensures !running
    {
      running := false;
    }

    method SetWindowState(state: WindowState)
      modifies this`windowState
      ensures windowState == state
    {
      windowState := state;
    }

    /** The exit action the editor screen hands to the level editor, reading the editor's saved
        flag. */
    method ExitEditor()
      modifies this`windowState
      ensures CurrentNav() == OnEditorExit(old(CurrentNav()), levelEditor.isSaved)
    {
      if levelEditor.isSaved {
        SetWindowState(Menu);
      } else {
        SetWindowState(EditConfirm);
      }
    }

    /** handle_resize: the window becomes the 16:9 fit of the requested size, and a grounded
        player is put back on the floor of the new window. */
    method HandleResize(width: int, height: int)
      requires width > 0 && height > 0
      modifies ui`windowWidth, ui`windowHeight, player`y
      ensures (ui.windowWidth, ui.windowHeight) == FitWindow(width, height)
      ensures player.onGround ==>
                player.y == ScreenFloorY(ui.windowHeight, floor.floorYRatio) as real - player.outerRect.h as real / 2.0
      ensures !player.onGround ==> player.y == old(player.y)
    {
      var size := FitWindow(width, height);
      ui.windowWidth, ui.windowHeight := size.0, size.1;
      if player.onGround {
        var floorY := floor.GetScreenFloorY(ui.windowHeight);
        player.y := floorY as real - player.outerRect.h as real / 2.0;
      }
    }

    /** One pass of poll_events' loop. `jumpHeld` says whether the up key or the left mouse
        button is held (the game screen jumps on every event while it is). `ok` is false where
        the level-select view fails to find the level of the new page. */
    method HandleEvent(ev: Event, jumpHeld: bool) returns (ok: bool)
      requires Valid()
      requires ev.VideoResize? ==> ev.w > 0 && ev.h > 0
      modifies this`running, this`windowState, ui`windowWidth, ui`windowHeight, player`y,
               player`velocityY, player`onGround, player`rotation,
               ui`currentPage, ui`levelButtonText, ui`pageLabelText
      ensures Valid()
      ensures CurrentNav() == OnEvent(old(CurrentNav()), ev)
      ensures ev.VideoResize? ==> (ui.windowWidth, ui.windowHeight) == FitWindow(ev.w, ev.h)
      ensures !ev.VideoResize? ==> ui.windowWidth == old(ui.windowWidth) && ui.windowHeight == old(ui.windowHeight)
      ensures !ev.VideoResize? ==> player.y == old(player.y)
      ensures ev.VideoResize? && old(player.onGround) ==>
                player.y == ScreenFloorY(ui.windowHeight, floor.floorYRatio) as real - player.outerRect.h as real / 2.0
      ensures ev.VideoResize? && !old(player.onGround) ==> player.y == old(player.y)
      ensures old(windowState) == Game && jumpHeld ==>
                player.Kin() == Jump(old(player.Kin()), ui.windowHeight).(y := player.y)
      ensures old(windowState) != Game || !jumpHeld ==>
                player.velocityY == old(player.velocityY) && player.onGround == old(player.onGround)
                && player.rotation == old(player.rotation)
      ensures old(windowState) == Select && IsKey(ev, LeftArrow) ==>
                ui.currentPage == PageAfter(old(ui.currentPage), |ui.levels|, "left")
      ensures old(windowState) == Select && IsKey(ev, RightArrow) ==>
                ui.currentPage == PageAfter(old(ui.currentPage), |ui.levels|, "right")
      ensures old(windowState) == Select && (IsKey(ev, LeftArrow) || IsKey(ev, RightArrow)) ==>
                && (ui.currentPage == old(ui.currentPage) ==>
                      ok && ui.levelButtonText == old(ui.levelButtonText) && ui.pageLabelText == old(ui.pageLabelText))
                && (ui.currentPage != old(ui.currentPage) ==>
                      && (ok <==> LastWithIndex(ui.levels, ui.currentPage).Some?)
                      && (ok ==> ui.levelButtonText == Some(LastWithIndex(ui.levels, ui.currentPage).value.name)
                                 && ui.pageLabelText == Some(PageLabel(ui.currentPage)))
                      && (!ok ==> ui.levelButtonText == old(ui.levelButtonText) && ui.pageLabelText == old(ui.pageLabelText)))
      ensures !(old(windowState) == Select && (IsKey(ev, LeftArrow) || IsKey(ev, RightArrow))) ==>
                ok && ui.currentPage == old(ui.currentPage)
                && ui.levelButtonText == old(ui.levelButtonText) && ui.pageLabelText == old(ui.pageLabelText)
    {
      ok := true;
      if ev.VideoResize? {
        HandleResize(ev.w, ev.h);
      }
      if ev.Quit? {
        GameQuit();
      }
      var escape := IsKey(ev, Escape);
      match windowState {
        case Menu =>
          if escape {
            GameQuit();
          }
        case Game =>
          if jumpHeld {
            engine.PlayerJump(player, ui.windowHeight);
          }
          if escape {
            SetWindowState(Pause);
          }
        case Pause =>
          if escape {
            SetWindowState(Game);
          }
        case Select =>
          if IsKey(ev, LeftArrow) {
            ok := ui.ChangeLevelSelectPage("left");
          }
          if IsKey(ev, RightArrow) {
            ok := ui.ChangeLevelSelectPage("right");
          }
          if escape {
            SetWindowState(Menu);
          }
        case Edit =>
          if escape {
            SetWindowState(EditConfirm);
          }
        case EditConfirm =>
          if escape {
            SetWindowState(Edit);
          }
      }
    }
  }
}
