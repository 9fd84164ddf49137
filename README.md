# JumpGame core in Dafny

A model of the game logic of JumpGame, a pygame side-scroller in which a square jumps over
spikes. It covers:

- the player's physics (gravity, landing on the floor, jumping, reset, game over) in the engine,
  with the player and floor objects it updates;
- the spike's triangle geometry and collision rectangle;
- the session state machine of the game manager: which screen is shown, whether the game keeps
  running, the 16:9 window fit on resize;
- the level list operations of the level editor (save as upsert, load by index) and of the
  level-select screen (page counter, level lookup);
- the input state machines of the widgets: text input field, button, checkbox, slider.

Each source file is one module: `Physics` (game/engine.py), `Players` (game/player.py), `Floors`
(game/floor.py), `Spikes` (objects/spike.py), `Session` (game/game_manager.py), `Editor`
(game/level_editor.py), `Interface` (ui/ui_manager.py), `TextInputs`, `Buttons`, `Checkboxes`,
`Sliders` (ui/*.py). Shared modules: `Config` holds the constants and the `WindowState` enum,
`Geometry` holds pygame's `Rect` and Python's `int()`, `Colors` holds the widget colour
arithmetic, `Events` holds the pygame events the handlers read, and `Levels` holds the level
records and the two list lookups.

Objects whose fields the source updates in place are classes whose methods update those fields.
Each method is specified by a pure function: `Step`, `Jump` and `ResetState` for the engine,
`Upsert` and `LastWithIndex` for the level list, `PageAfter` for the pages, `EditText`,
`ButtonStep`, `CheckboxStep` and `DragPosition` for the widgets, `OnEvent` and `FitWindow` for
the session. The lemmas state what the game promises about those functions.

Modelling conventions:

- Python floats are `real`, with no rounding.
- `int(x)` truncates toward zero (`Geometry.Trunc`).
- `pygame.Rect` is an integer record `(left, top, w, h)`. Setting its centre uses C's truncating
  `w / 2`. `colliderect` is strict overlap of non-empty rectangles. `collidepoint` excludes the
  right and bottom edges.
- The screen size is a parameter, and so are the mouse position, hover and held keys.
  pygame.display and pygame.mouse are not part of this model.

The engine's three pure checks are modelled as predicates of `Physics.Engine`:
`check_player_collision_with_floor`, `check_player_collision_with_object` and
`_check_player_coherence`. `UpdatePlayer` uses the floor check and `IsGameOver` the object check.
The coherence check has no caller, in the source or in the model.

## Model

| member | source | states |
|---|---|---|
| Geometry.Trunc | game/player.py:39-42 | `int()` of a float lies within one unit of it: at or below a non-negative value, at or above a negative one |
| Geometry.TruncBetween | game/player.py:39-42 | truncating a value that lies between two integers gives a result between them |
| Geometry.Scale | objects/spike.py:36-43 | a length scaled from the design resolution to the screen stays non-negative |
| Geometry.HalfTrunc | game/player.py:13-14 | pygame's halving of a width when it places a rectangle by its centre: within one unit of half, rounded toward zero |
| Geometry.CenteredAt | game/player.py:13-14 | a rectangle placed by `center` keeps its size, and its centre is the requested point |
| Geometry.Collide | game/engine.py:23-26 | `colliderect`: both rectangles are non-empty and they overlap strictly on both axes |
| Geometry.ContainsPoint | ui/slider.py:51-53 | `collidepoint`: the point lies in the rectangle with its right and bottom edges excluded |
| Geometry.CollideSymmetric | game/engine.py:23-26 | `colliderect` is symmetric |
| Geometry.TouchingDoesNotCollide | game/engine.py:23-26 | rectangles that only share an edge do not collide |
| Geometry.SharedPointCollides | game/engine.py:23-26 | two rectangles that contain a common point collide |
| Colors.Channel | ui/button.py:32-33 | `min(255, int(c*k))` never exceeds 255; it is non-negative for non-negative input and never below `c` when `k >= 1` |
| Colors.Brighten | ui/button.py:32-33 | hover, click and active colours of a valid colour are valid, and each channel is at least the base channel |
| Players.ScaleCoord | game/player.py:39-42 | a non-negative design coordinate gives a non-negative screen coordinate |
| Players.OuterRectAt | game/player.py:39-45 | the outer square whose side follows the screen width, centred on the scaled position |
| Players.InnerRectAt | game/player.py:40-48 | the inner square whose side follows the screen height, centred on the same point |
| Players.RectsShareCentre | game/player.py:39-48 | update_size gives two squares centred on the same point, on any screen |
| Players.OuterRectAtDesign | game/player.py:39-45 | at 1600x900 the outer square is 60x60 around `(int(x), int(y))`, with its bottom at `int(y) + 30` |
| Players.Player.constructor | game/player.py:6-24 | a new player is at (120, 690), not moving, not rotated and not marked grounded; its outer square's bottom lies on the floor line 720 |
| Players.Player.UpdateSize | game/player.py:34-48 | rebuilds both squares for the screen from the current position and changes nothing else |
| Floors.ScreenFloorYAtDesign | game/floor.py:43-46 | at the design height the screen floor is the floor the object was built with |
| Floors.ScreenFloorYMonotone | game/floor.py:43-46 | a taller screen never moves the floor up |
| Floors.Floor.constructor | game/floor.py:6-16 | stores `y` and `y / 900`; the inner band runs from the floor line to the bottom of the design screen |
| Floors.Floor.GetScreenFloorY | game/floor.py:43-46 | the floor line on a screen of the given height: `int(height * ratio)` |
| Floors.Floor.UpdateSize | game/floor.py:26-41 | the floor line becomes `get_screen_floor_y` of the screen, and the inner band starts there and ends at the screen bottom |
| Physics.Fall | game/engine.py:35-37 | one frame of free fall: scaled gravity into the velocity, then the velocity into y |
| Physics.Step | game/engine.py:35-50 | the whole frame of update_player: the fall, then the landing test on the rebuilt rectangle |
| Physics.Jump | game/engine.py:53-62 | a jump is taken only from the ground |
| Physics.ResetState | game/engine.py:84-91 | the state reset_player sets |
| Physics.GameOver | game/engine.py:71-82 | below the design screen height, or overlapping some obstacle |
| Physics.GravityAccelerates | game/engine.py:93-99 | on a visible screen gravity strictly increases the downward velocity; at 900 px high it adds exactly `4500 * dt` |
| Physics.LandingRule | game/engine.py:35-50 | after update_player the player is grounded iff the rebuilt bottom edge reaches the screen floor. If so, the velocity is 0 and y is the floor minus half the old rectangle height. If not, the fall is kept. x and rotation never change |
| Physics.DesignFloor | game/floor.py:7-10 | the floor built from FLOOR_Y sits at 720 on the design screen |
| Physics.RestingIsStable | game/engine.py:30-50 | a player standing still on the floor at 1600x900 stays exactly where it is and becomes grounded |
| Physics.ResetThenStepLands | game/engine.py:84-91 | reset puts the player's centre on the floor line; the next frame lifts it onto the floor at y = 690, grounded and still |
| Physics.StepAsWritten | game/engine.py:43 | the state update_player leaves when the update_size call raises: the fall has been applied, while x, rotation and the grounded flag are unchanged |
| Physics.StepAsWrittenSinks | game/engine.py:35-43 | as written, the frame after a reset leaves the player below the floor, still marked grounded and falling, unlike the intended step |
| Physics.JumpLeavesGround | game/engine.py:53-62 | a jump from rest is airborne, above the floor and rising on the next frame for any frame shorter than 0.3 s |
| Physics.NoDoubleJump | game/engine.py:56 | a jump in the air changes nothing, and a second jump adds nothing to the first |
| Physics.JumpGoesUp | game/engine.py:56-60 | a grounded jump sets an upward velocity, −1350 at 900 px high, without moving the player |
| Physics.JumpRotation | game/engine.py:62 | a jump turns the square by half a turn within [0, 360), and two jumps restore the rotation |
| Physics.Engine.constructor | game/engine.py:8-16 | the engine keeps the given floor |
| Physics.Engine.CheckPlayerCoherence | game/engine.py:18-20 | the square's bottom is not below the floor line |
| Physics.Engine.CheckPlayerCollisionWithObject | game/engine.py:23-26 | the square overlaps the obstacle |
| Physics.Engine.CheckPlayerCollisionWithFloor | game/engine.py:65-68 | the square's bottom reaches the floor line of the screen |
| Physics.Engine.ApplyGravity | game/engine.py:93-99 | adds exactly the scaled gravity times `dt` to the velocity |
| Physics.Engine.UpdatePlayer | game/engine.py:30-50 | the new kinematic state is `Step` of the old one, using the old rectangle height; the rectangles are rebuilt at the fallen position |
| Physics.Engine.PlayerJump | game/engine.py:53-62 | the new kinematic state is `Jump` of the old one |
| Physics.Engine.IsGameOver | game/engine.py:71-82 | true iff the player is below y = 900 or its square overlaps some obstacle |
| Physics.Engine.ResetPlayer | game/engine.py:84-91 | sets x = 100, y = floor_y, velocity 0, rotation 0, grounded |
| Spikes.OuterTriangle | objects/spike.py:39-49 | the outer vertices form an upright triangle: the apex is above the midpoint of a horizontal base |
| Spikes.InnerTriangle | objects/spike.py:51-58 | the inner triangle's base corners are symmetric about the apex's x |
| Spikes.CollisionRectOf | objects/spike.py:60-61 | the rectangle get_collision_rect builds from the vertex list |
| Spikes.RectCoversUpright | objects/spike.py:60-61 | for any upright triangle the unscaled 60x60 rectangle holds the apex iff the triangle is at most 120 px wide, the base-left vertex iff it is at most 60 px tall, and the base-right vertex iff both sizes are at most 60 |
| Spikes.OuterTriangleExtent | objects/spike.py:42-49 | the outer triangle spans twice the halved scaled width and height |
| Spikes.CollisionRectOnScreen | objects/spike.py:36-61 | on every screen, with W and H the scaled outer width and height: the rectangle holds the apex iff W ≤ 121, the base-left vertex iff H ≤ 61, and the base-right vertex iff W ≤ 61 and H ≤ 61 |
| Spikes.SmallScreenRectCovers | objects/spike.py:36-61 | on a window no larger than 1600x900 the rectangle holds all three outer vertices |
| Spikes.WideScreenMissesCorner | objects/spike.py:36-61 | from 1654 px wide on, the base-right vertex lies outside the rectangle, because its size is not rescaled |
| Spikes.OuterTriangleAtDesign | objects/spike.py:36-49 | at 1600x900 the outer triangle is (x, y−30), (x−30, y+30), (x+30, y+30) |
| Spikes.InnerTriangleAtDesign | objects/spike.py:51-58 | at 1600x900 the inner triangle is (x, y−25), (x−25, y+27), (x+25, y+27) |
| Spikes.InnerInsideOuterAtDesign | objects/spike.py:45-58 | at 1600x900 every inner vertex lies inside the outer triangle |
| Spikes.CollisionRectBoundsTriangleAtDesign | objects/spike.py:60-61 | at 1600x900 the collision rectangle contains all three outer vertices |
| Spikes.Spike.constructor | objects/spike.py:6-21 | a new spike has no vertices until update_size runs |
| Spikes.Spike.UpdateSize | objects/spike.py:31-58 | the vertex lists become the outer and inner triangles for the screen |
| Spikes.Spike.GetCollisionRect | objects/spike.py:60-61 | needs update_size first. Which stored outer vertices the rectangle holds follows `RectCoversUpright`, from the stored triangle's width and height |
| Spikes.Spike.GetCollisionPoints | objects/spike.py:63-64 | returns the outer vertices: an upright triangle, or empty before update_size |
| Levels.FirstWithIndex | game/level_editor.py:97-101 | finds the first level with the index, or reports that none has it |
| Levels.LastPos | game/level_editor.py:111-116 | finds the last level with the index, or reports that none has it |
| Levels.LastWithIndex | ui/ui_manager.py:113-118 | gives the last level with the index; nothing exactly when no level has it |
| Levels.Upsert | game/level_editor.py:95-101 | the list update of save_levels |
| Levels.UpsertAppends | game/level_editor.py:95-96 | saving an index past the end grows the list by exactly one: the new level goes last and the rest is kept |
| Levels.UpsertReplacesFirst | game/level_editor.py:97-101 | saving any other index keeps the length, replaces only the first level with that index, and changes nothing when no level has it |
| Levels.NumberedLast | ui/ui_manager.py:116-118 | in a list numbered 1..n, the lookup of page k finds the k-th level |
| Levels.SaveThenLoad | game/level_editor.py:95-116 | saving into a numbered list keeps it numbered, and loading that index then finds the saved level |
| Levels.DuplicatesDefeatSaveThenLoad | game/level_editor.py:98-116 | with duplicate indices, save overwrites the first match while load reads the last, so loading does not return what was saved |
| Editor.LevelEditor.constructor | game/level_editor.py:10-40 | a new editor points one past the last level and has no current level (create_empty_level, lines 120-121, returns nothing). Its camera is at 0, nothing is selected, the tool is "select", the grid is shown, the inputs are empty and nothing is saved yet |
| Editor.LevelEditor.SaveLevels | game/level_editor.py:95-101 | the list becomes `Upsert` of the old list and the current level, and the saved flag is set. Without a current level it fails and changes nothing |
| Editor.LevelEditor.LoadLevel | game/level_editor.py:108-116 | takes the level, name and difficulty of the last level with the index; changes nothing when there is none |
| Interface.PageAfter | ui/ui_manager.py:130-140 | the page number change_level_select_page moves to |
| Interface.PageStaysInRange | ui/ui_manager.py:130-140 | the page stays within [1, max(1, number of levels)]; other directions change nothing |
| Interface.LeftRightRoundTrip | ui/ui_manager.py:130-140 | "left" then "right" returns to the page, and so does "right" then "left" when not on the last page |
| Interface.PressRightReaches | ui/ui_manager.py:136-140 | n presses of "right" reach page min(p + n, count) and never pass the last level |
| Interface.UIManager.constructor | ui/ui_manager.py:36-47 | the level-select screen starts on page 1, with no window and no level list |
| Interface.UIManager.Init | ui/ui_manager.py:49-60 | opens the design-size window, labels page 1 and shows the level with index 1, failing when there is none |
| Interface.UIManager.CreateLevelButton | ui/ui_manager.py:113-128 | shows the name of the last level whose index is the current page; fails and keeps the old button when there is none |
| Interface.UIManager.ChangeLevelSelectPage | ui/ui_manager.py:130-140 | the page becomes `PageAfter`. When it moves, the button and the label "Page n" follow, unless the lookup fails |
| TextInputs.EditText | ui/text_input_field.py:75-81 | the key branch of handle_event on the buffer |
| TextInputs.EditKeepsCap | ui/text_input_field.py:75-81 | a buffer within `max_length` stays within it for single-character keys |
| TextInputs.BackspaceUndoesTyping | ui/text_input_field.py:76-81 | typing an alphanumeric character into a buffer with room, then backspace, restores the buffer |
| TextInputs.TypeAllTruncates | ui/text_input_field.py:80-81 | typing a run of alphanumeric characters keeps the longest prefix that fits within `max_length` |
| TextInputs.TypeAllFull | ui/text_input_field.py:80-81 | once the buffer is full, typed characters are dropped |
| TextInputs.ScreenRect | ui/text_input_field.py:54-63 | the rescaled rectangle; a non-negative layout gives a non-negative size |
| TextInputs.ScreenRectAtDesign | ui/text_input_field.py:30-31 | at 1600x900 the rescaled rectangle is the construction rectangle |
| TextInputs.ScreenRectHoldsCentre | ui/text_input_field.py:57-68 | on any screen where the rescaled field is non-empty, a click on its rescaled centre hits it |
| TextInputs.HalfScreenRect | ui/text_input_field.py:57-63 | on an 800x450 window a field with even layout numbers is rebuilt at exactly half its position and size |
| TextInputs.HalfScreenField | ui/text_input_field.py:57-68 | a 400x50 field at (800, 450) becomes 200x25 at (400, 225) on an 800x450 window: a click at (400, 225) hits it, and misses the construction rectangle |
| TextInputs.TextInputField.constructor | ui/text_input_field.py:6-42 | needs positive sizes, valid colours and a positive `max_length`; stores the layout (x, y, width, height), the text colour and size as given; starts inactive with the given text, and the active colour is the base colour × 1.5, capped |
| TextInputs.TextInputField.UpdateSize | ui/text_input_field.py:54-63 | the rectangle becomes `ScreenRect` of the layout for the screen |
| TextInputs.TextInputField.HandleEvent | ui/text_input_field.py:66-81 | a mouse press focuses the field iff it lands inside the current rectangle, the one the last `UpdateSize` built, and sets the matching colour; keys edit the text only while the field is focused |
| Buttons.ButtonStep | ui/button.py:78-90 | clicks iff a left release over the button follows a press; a release always clears the press; motion off the button clears it; other events change nothing |
| Buttons.ClicksNeedPresses | ui/button.py:81-90 | over any event trace, the callback never fires more often than the button was pressed |
| Buttons.FullClickFires | ui/button.py:81-90 | a press and release over the button fire it exactly once |
| Buttons.DragOffCancels | ui/button.py:84-85 | leaving the button between press and release cancels the click |
| Buttons.Button.constructor | ui/button.py:6-38 | needs positive sizes and valid colours; hover and click colours are the base × 1.2 and × 1.4, capped, and the button starts released |
| Buttons.Button.HandleEvent | ui/button.py:78-90 | the new pressed flag and the click follow `ButtonStep` |
| Checkboxes.CheckboxStep | ui/checkbox.py:69-79 | toggles iff a left release over the box follows a press. `checked` flips exactly then, a release always clears the press, and other events change nothing |
| Checkboxes.CheckedParity | ui/checkbox.py:73-79 | after any trace `checked` has flipped once per toggle |
| Checkboxes.TwoClicksRestore | ui/checkbox.py:69-79 | two complete clicks restore `checked` |
| Checkboxes.PressSurvivesLeaving | ui/checkbox.py:69-79 | unlike a button, leaving and returning does not cancel a press |
| Checkboxes.CheckColorOverflows | ui/checkbox.py:31 | a valid base colour with a channel of 107 gives a tick colour channel of 256 |
| Checkboxes.CheckColor | ui/checkbox.py:29-31 | the capped tick colour is valid for valid input and equals the uncapped one whenever no channel overflows |
| Checkboxes.Checkbox.constructor | ui/checkbox.py:6-39 | needs a positive size and valid colours; starts released with the given `checked` and derives the hover, click and tick colours |
| Checkboxes.Checkbox.HandleEvent | ui/checkbox.py:69-79 | follows `CheckboxStep`; the toggle callback runs only when one is given |
| Sliders.TrackBounds | ui/slider.py:68-69 | the track for the handle's centre is the outer width less a handle and 20 px of margin |
| Sliders.DragPosition | ui/slider.py:65-72 | the position is in [0, 1]: 0 iff the cursor is at or left of the track, 1 iff at or right of it, and always 0 on an inverted track |
| Sliders.DragMonotone | ui/slider.py:71-72 | moving the cursor right never moves the handle left |
| Sliders.SliderValue | ui/slider.py:73 | the value shown for a relative position |
| Sliders.ValueInRange | ui/slider.py:72-73 | the value stays in [min, max]; it is min iff the position is 0, and max iff it is 1 |
| Sliders.HandleX | ui/slider.py:94-97 | the drawn handle centre lies on the track |
| Sliders.HandleFollowsCursor | ui/slider.py:68-97 | after a drag to a cursor on the track, the handle is drawn exactly under the cursor |
| Sliders.Slider.constructor | ui/slider.py:6-40 | needs min < max and a start value in range; stores the layout, the range and the colour as given; the position is `(start − min) / (max − min)`, in [0, 1] |
| Sliders.Slider.IsHovered | ui/slider.py:51-53 | the cursor is on the handle |
| Sliders.Slider.HandleEvent | ui/slider.py:55-73 | a left press on the handle starts a drag and a left release ends it. While dragging, any other event sets the position to `DragPosition` of the cursor and the value follows. A track with no room fails with nothing changed |
| Sliders.Slider.UpdateSize | ui/slider.py:75-101 | rebuilds the track, its inner bar and the handle for the screen, with the handle centre on the track |
| Session.OnEscape | game/game_manager.py:62-111 | ESC leads to the menu exactly from the menu and the level select; it stops the game exactly in the menu |
| Session.OnEvent | game/game_manager.py:153-178 | a window-close request stops the game and keeps the screen; events other than ESC and close change nothing |
| Session.OnEventAsWritten | game/game_manager.py:94-104 | poll_events' navigation as written |
| Session.AsWrittenAgreesOffEditor | game/game_manager.py:94-104 | for every event, the handler as written agrees with `OnEvent` off the editor screen and has no result on it |
| Session.EditorEscapeAsWritten | game/game_manager.py:101-104 | as written ESC cannot leave the editor. The intended handler goes to the confirmation screen, and a second ESC comes back |
| Session.OnEditorExit | game/game_manager.py:95-99 | the exit action never stops the game. After an unsaved exit, ESC comes back to the editor; after a saved one the menu is shown, where ESC quits |
| Session.UnsavedExitIsEscape | game/game_manager.py:95-104 | on the editor screen, exiting an unsaved level goes where ESC goes, and ESC then returns to the editor |
| Session.OnEditorExitAsWritten | game/game_manager.py:96 | the exit action as written |
| Session.EditorExitAsWrittenRaises | game/game_manager.py:95-99 | as written the exit action has no result; as intended it leaves the editor screen, saved or not |
| Session.EscapeRoundTrip | game/game_manager.py:72-111 | in the game, pause, editor and confirmation screens ESC changes the screen, and a second ESC undoes it |
| Session.OnlyMenuEscapeQuits | game/game_manager.py:62-92 | ESC stops the game iff pressed in the menu; from the level select it takes two |
| Session.EscapeEntersGameOnlyFromPause | game/game_manager.py:62-111 | ESC enters the game exactly from the pause screen |
| Session.QuitIsPermanent | game/game_manager.py:116-117 | once stopped, no sequence of events restarts the game |
| Session.EscapesAlternate | game/game_manager.py:72-111 | k ESC presses on the game or editor screens alternate between the two screens of the pair by parity and never quit |
| Session.FitWindow | game/game_manager.py:127-135 | the fitted window is no larger than requested and keeps its full width or its full height. It is 16:9 up to truncation: `−9 < 9w − 16h < 16` |
| Session.FitWindowKeepsExactRatio | game/game_manager.py:127-135 | a request that is exactly 16:9 is kept as it is |
| Session.GameManager.constructor | game/game_manager.py:18-47 | needs a level with index 1. After init the menu is shown, the game runs and the player is reset to (100, 720), grounded; the window is 1600x900 on page 1 |
| Session.GameManager.Update | game/game_manager.py:49-55 | the player steps only on the game screen, on the current window, and both squares are rebuilt at the fallen position; on other screens nothing about the player changes |
| Session.GameManager.GameQuit | game/game_manager.py:116-117 | stops the game |
| Session.GameManager.SetWindowState | game/game_manager.py:122-125 | sets the screen and nothing else |
| Session.GameManager.ExitEditor | game/game_manager.py:95-99 | follows `OnEditorExit` with the level editor's saved flag |
| Session.GameManager.HandleResize | game/game_manager.py:127-142 | the window becomes `FitWindow` of the request. A grounded player is put on the new floor minus half its square; an airborne one does not move |
| Session.GameManager.HandleEvent | game/game_manager.py:153-178 | one pass of the event loop. The screen and running flag follow `OnEvent`, a resize refits the window, and a held jump key jumps on the game screen. The arrow keys turn pages on the level select, and the level button and page label follow as in `ChangeLevelSelectPage`; otherwise the page, button and label are unchanged. y changes only on a resize, as in `HandleResize` |

## Left out

- Drawing is not modelled: every `draw` and `render`, fonts, labels, the progress bar, and the
  colours used only for drawing. The button's and checkbox's `update_size` methods are left
  out too. In the source they rebuild the rectangle that `is_hovered` tests; here hover is
  a parameter of their handlers, which covers it. The text field's `_update_size` is
  modelled as `TextInputField.UpdateSize`.
- Reading and writing levels.json is not modelled. `load_levels` becomes the constructor's
  `levels` parameter, and the file write and message in save_levels are dropped.
- The event loop's `pygame.event.get`, `pygame.key.get_pressed`, `pygame.mouse.get_pos` and
  `pygame.display` become parameters: the event, whether the jump key is held, hover, mouse x,
  and the screen size.
- The callbacks of the menu, pause, level-select and confirmation buttons are left out, and so
  are the level editor's own buttons. Their wiring is view set-up; the button state machine
  itself is modelled in `Buttons`.
- The game manager, the UI manager and the level editor share one Python list of levels. The
  model keeps a copy in each, so a save in the editor does not show up in the level select.
- Floating-point rounding is abstracted: floats are exact reals, and ASPECT_RATIO is exactly
  16/9.
- `str.isalnum` is modelled for ASCII letters and digits only.
- pygame normalises rectangles of negative size in some operations. That normalisation is not
  modelled; sizes stay as computed.
- The Python type and `isinstance` assertions become preconditions on the values, not on
  their types.
- Session.GameManager.HandleEvent: events on the editor screen follow the evident intent (ESC
  opens the confirmation screen) rather than the TypeError raised as written; see Findings.
- Physics.Engine.UpdatePlayer: models `update_size(screen)`, the evident intent, not the
  TypeError raised as written; see Findings.
- Checkboxes.Checkbox.constructor: stores the corrected, capped tick colour `CheckColor`, not
  the uncapped one of ui/checkbox.py:31; see Findings.
- Session.GameManager.ExitEditor: reads the editor's saved flag, which the source reads as
  `is_saved` but never defines; see Findings.
- Level indices are integers. The source compares them raw on one line (game/level_editor.py:99)
  and through `int()` on others (lines 95 and 112, ui/ui_manager.py:117). An index stored as
  a string in levels.json would therefore load but never be overwritten by a save. The model
  does not capture that.
- Session.GameManager.constructor: requires a level with index 1. On a level list without one,
  init raises TypeError in create_level_button (ui/ui_manager.py:128, reached from
  game/game_manager.py:35); that startup crash is excluded here, while `Interface.UIManager.Init`
  models the same case as `ok == false`.
- Interface.UIManager.Init requires page 1, which holds because init is called once, right
  after construction.

## Findings

| source | as written | input that shows it | evidently intended | confidence | as-written member | corrected member |
|---|---|---|---|---|---|---|
| ui/checkbox.py:31 | `check_color = tuple(int(x * 2.4) for x in color)` has no cap at 255 | a base colour (107, 0, 0), accepted by the constructor, gives a tick colour (256, 0, 0), which pygame rejects when the box is drawn checked | cap each channel at 255 like the hover and click colours on lines 29-30 | high (not executed) | Checkboxes.CheckColorAsWritten, Checkboxes.CheckColorOverflows | Checkboxes.CheckColor |
| game/engine.py:43 | `player.update_size(screen, self.floor)` passes two arguments to `Player.update_size(self, screen)` (game/player.py:34) | any call of update_player, e.g. the first frame on the game screen: TypeError after the fall, before the landing test | `player.update_size(screen)` | high (not executed) | Physics.StepAsWritten, Physics.StepAsWrittenSinks | Physics.Step, Physics.RestingIsStable, Physics.ResetThenStepLands |
| game/game_manager.py:101 | `self.level_editor.handle_event(event, exit_button_event)` passes two arguments to `LevelEditor.handle_event(self, event)` (game/level_editor.py:123) | any event on the editor screen, e.g. ESC: TypeError before the ESC test on line 103 | pass the exit action the editor can call, so ESC opens the confirmation screen | high (not executed) | Session.OnEventAsWritten, Session.EditorEscapeAsWritten | Session.OnEvent, Session.EscapeRoundTrip |
| game/game_manager.py:96 | `exit_button_event` reads `self.level_editor.is_saved`, an attribute LevelEditor never defines (game/level_editor.py:10-61) | calling the exit action in any state: AttributeError. (Line 101 fails first, so it is not reached as written) | a saved flag that a successful `save_levels` sets | high (not executed) | Session.OnEditorExitAsWritten, Session.EditorExitAsWrittenRaises | Editor.LevelEditor.SaveLevels, Session.GameManager.ExitEditor, Session.OnEditorExit |
