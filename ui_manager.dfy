/** ui/ui_manager.py: the window size and the level-select screen's page state. Labels and
    buttons are kept only as the texts they show. */
module Interface {
  import opened Config
  import opened Levels

  /** Decimal digits of n, as an f-string prints an int. */
  function NatToString(n: nat): string
  {
    if n < 10 then [Digit(n)] else NatToString(n / 10) + [Digit(n % 10)]
  }

  function Digit(d: nat): char
    requires d < 10
  {
    "0123456789"[d]
  }

  function PageLabel(page: nat): string
  {
    "Page " + NatToString(page)
  }

  /** change_level_select_page on the page number alone. */
  function PageAfter(page: int, count: nat, direction: string): int
  {
    if direction == "left" then (if page > 1 then page - 1 else page)
    else if direction == "right" then (if page < count then page + 1 else page)
    else page
  }

  /** Pages stay within [1, max(1, number of levels)]. */
  lemma PageStaysInRange(page: int, count: nat, direction: string)
    requires 1 <= page && (page <= count || page == 1)
    ensures var p := PageAfter(page, count, direction); 1 <= p && (p <= count || p == 1)
    ensures direction != "left" && direction != "right" ==> PageAfter(page, count, direction) == page
  {
  }

  /** "left" and "right" undo each other away from the ends. */
  lemma LeftRightRoundTrip(page: int, count: nat)
    requires 1 < page <= count
    ensures PageAfter(PageAfter(page, count, "left"), count, "right") == page
    ensures page < count ==> PageAfter(PageAfter(page, count, "right"), count, "left") == page
  {
  }

  /** n presses of "right" from page p: page min(p + n, count), never past the last level. */
  function PressRight(page: int, count: nat, n: nat): int
    decreases n
  {
    if n == 0 then page else PressRight(PageAfter(page, count, "right"), count, n - 1)
  }

  lemma {:induction false} PressRightReaches(page: int, count: nat, n: nat)
    requires 1 <= page && (page <= count || page == 1)
    ensures PressRight(page, count, n) == if page + n <= count then page + n else (if count < page then page else count)
    decreases n
  {
    if n > 0 {
      PressRightReaches(PageAfter(page, count, "right"), count, n - 1);
    }
  }

  class UIManager {
    /** Size of the window surface; 0 x 0 until init creates the window. */
    var windowWidth: nat
    var windowHeight: nat
    var currentPage: int
    /** Text of page_label and of the level button; None until init creates them. */
    var pageLabelText: Option<string>
    var levelButtonText: Option<string>
    var levels: seq<Level>
    const screenWidth: int := ScreenWidth
    const screenHeight: int := ScreenHeight

    ghost predicate Valid()
      reads this
    {
      1 <= currentPage && (currentPage <= |levels| || currentPage == 1)
    }

    constructor ()
      ensures currentPage == 1 && levels == []
      ensures windowWidth == 0 && windowHeight == 0
      ensures pageLabelText == None && levelButtonText == None
      ensures Valid()
    {
      windowWidth, windowHeight := 0, 0;
      currentPage := 1;
      pageLabelText := None;
      levelButtonText := None;
      levels := [];
    }

    /** init: opens the design-size window and builds the level-select view for the current
        page; fails (ok false) when no level has that index. */
    method Init(levels: seq<Level>) returns (ok: bool)
      requires Valid() && currentPage == 1
      modifies this
      ensures Valid() && this.levels == levels && currentPage == 1
      ensures windowWidth == ScreenWidth && windowHeight == ScreenHeight
      ensures pageLabelText == Some(PageLabel(1))
      ensures ok <==> LastWithIndex(levels, 1).Some?
      ensures ok ==> levelButtonText == Some(LastWithIndex(levels, 1).value.name)
      ensures !ok ==> levelButtonText == old(levelButtonText)
    {
      this.levels := levels;
      windowWidth, windowHeight := ScreenWidth, ScreenHeight;
      pageLabelText := Some(PageLabel(currentPage));
      ok := CreateLevelButton();
    }

    /** create_level_button: the button shows the name of the last level whose index is the
        current page; with none the source fails on `None["name"]`. */
    method CreateLevelButton() returns (ok: bool)
      modifies this`levelButtonText
      ensures ok <==> LastWithIndex(levels, currentPage).Some?
      ensures ok ==> levelButtonText == Some(LastWithIndex(levels, currentPage).value.name)
      ensures !ok ==> levelButtonText == old(levelButtonText)
    {
      var currentLevel: Option<Level> := None;
      var i := 0;
      while i < |levels|
        invariant 0 <= i <= |levels|
        invariant currentLevel == LastWithIndex(levels[..i], currentPage)
      {
        assert levels[..i + 1][..i] == levels[..i];
        if levels[i].index == currentPage {
          currentLevel := Some(levels[i]);
        }
        i := i + 1;
      }
      assert levels[..i] == levels;
      if currentLevel.None? {
        return false;
      }
      levelButtonText := Some(currentLevel.value.name);
      return true;
    }

    /** change_level_select_page. When the page moves, the button is rebuilt and then the
        label rewritten; if the rebuild fails the page has already moved but the label has not. */
    method ChangeLevelSelectPage(direction: string) returns (ok: bool)
      requires Valid()
      modifies this`currentPage, this`levelButtonText, this`pageLabelText
      ensures Valid()
      ensures currentPage == PageAfter(old(currentPage), |levels|, direction)
      ensures currentPage == old(currentPage) ==>
                ok && levelButtonText == old(levelButtonText) && pageLabelText == old(pageLabelText)
      ensures currentPage != old(currentPage) ==>
                && (ok <==> LastWithIndex(levels, currentPage).Some?)
                && (ok ==> levelButtonText == Some(LastWithIndex(levels, currentPage).value.name)
                           && pageLabelText == Some(PageLabel(currentPage)))
                && (!ok ==> levelButtonText == old(levelButtonText) && pageLabelText == old(pageLabelText))
    {
      ok := true;
      if direction == "left" {
        if currentPage > 1 {
          currentPage := currentPage - 1;
          ok := CreateLevelButton();
          if ok {
            pageLabelText := Some(PageLabel(currentPage));
          }
        }
      } else if direction == "right" {
        if currentPage < |levels| {
          currentPage := currentPage + 1;
          ok := CreateLevelButton();
          if ok {
            pageLabelText := Some(PageLabel(currentPage));
          }
        }
      }
    }
  }
}
