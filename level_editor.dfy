/** game/level_editor.py: the editor's state, saving the current level into the level list and
    loading a level by index. */
module Editor {
  import opened Config
  import opened Levels
  import opened Floors

  class LevelEditor {
    const floor: Floor
    var levels: seq<Level>
    var currentLevelIndex: int
    var currentLevel: Option<Level>
    const screenWidth: int := ScreenWidth
    const screenHeight: int := ScreenHeight
    const gridSize: int := GridSize
    var cameraOffsetX: int
    var cameraOffsetY: int
    var selectedObject: Option<Placement>
    var selectedObjectIndex: int
    /** One of "select", "delete", "block", "spike", "jump_pad", "jump_orb". */
    var selectedTool: string
    var showGrid: bool
    const toolbarHeight: int := ToolbarHeight
    var nameInput: string
    var difficultyInput: string
    /** Whether the current level has been written to the list since the editor opened. The
        source reads `is_saved` here without ever defining it; this is the flag it evidently
        meant: false at the start and set by a successful save. */
    var isSaved: bool

    /** A new editor points one past the last level and holds no level yet: create_empty_level
        has an empty body, so it yields None. */
    constructor (levels: seq<Level>, floor: Floor)
      ensures this.levels == levels && this.floor == floor
      ensures currentLevelIndex == |levels| && currentLevel == None
      ensures cameraOffsetX == 0 && cameraOffsetY == 0
      ensures selectedObject == None && selectedObjectIndex == -1
      ensures selectedTool == "select" && showGrid
      ensures nameInput == "" && difficultyInput == ""
      ensures !isSaved
    {
      this.levels := levels;
      currentLevelIndex := |levels|;
      currentLevel := None;
      this.floor := floor;
      cameraOffsetX := 0;
      cameraOffsetY := 0;
      selectedObject := None;
      selectedObjectIndex := -1;
      selectedTool := "select";
      showGrid := true;
      nameInput := "";
      difficultyInput := "";
      isSaved := false;
    }

    /** The list update of save_levels. With no current level the source fails on
        `None["index"]` before touching the list: `ok` is false and nothing changes. */
    method SaveLevels() returns (ok: bool)
      modifies this`levels, this`isSaved
      ensures ok <==> currentLevel.Some?
      ensures ok ==> levels == Upsert(old(levels), currentLevel.value) && isSaved
      ensures !ok ==> levels == old(levels) && isSaved == old(isSaved)
    {
      if currentLevel.None? {
        return false;
      }
      var cur := currentLevel.value;
      if cur.index > |levels| {
        levels := levels + [cur];
      } else {
        var i := 0;
        while i < |levels|
          invariant 0 <= i <= |levels|
          invariant levels == old(levels)
          invariant forall j :: 0 <= j < i ==> levels[j].index != cur.index
        {
          if levels[i].index == cur.index {
            levels := levels[i := cur];
            break;
          }
          i := i + 1;
        }
      }
      isSaved := true;
      return true;
    }

    /** load_level: every level with that index is visited in order, so the last one wins;
        with none the editor is unchanged. */
    method LoadLevel(index: int)
      requires index > 0
      modifies this`currentLevel, this`currentLevelIndex, this`nameInput, this`difficultyInput
      ensures match LastWithIndex(levels, index)
              case Some(l) =>
                currentLevel == Some(l) && currentLevelIndex == index
                && nameInput == l.name && difficultyInput == l.difficulty
              case None =>
                currentLevel == old(currentLevel) && currentLevelIndex == old(currentLevelIndex)
                && nameInput == old(nameInput) && difficultyInput == old(difficultyInput)
    {
      var i := 0;
      while i < |levels|
        invariant 0 <= i <= |levels|
        invariant match LastWithIndex(levels[..i], index)
                  case Some(l) =>
                    currentLevel == Some(l) && currentLevelIndex == index
                    && nameInput == l.name && difficultyInput == l.difficulty
                  case None =>
                    currentLevel == old(currentLevel) && currentLevelIndex == old(currentLevelIndex)
                    && nameInput == old(nameInput) && difficultyInput == old(difficultyInput)
      {
        var level := levels[i];
        assert levels[..i + 1][..i] == levels[..i];
        if level.index == index {
          currentLevel := Some(level);
          currentLevelIndex := index;
          nameInput := level.name;
          difficultyInput := level.difficulty;
        }
        i := i + 1;
      }
      assert levels[..i] == levels;
    }
  }
}
