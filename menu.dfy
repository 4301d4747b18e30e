/** The stack of menus of internal/tui/menu_entry.go. The terminal's list
    widget is reduced to what these operations touch: the titles of its
    entries and the size last set on it. */
module Menu {
  import opened Strings

  /** A list widget: its entries' titles and its width and height. */
  datatype ListModel = ListModel(titles: seq<Text>, width: int, height: int)

  /** `newMenuModel`: one item per entry, in order, at size 0 x 0. */
  function NewMenuModel(titles: seq<Text>): (m: ListModel)
    ensures m.titles == titles && m.width == 0 && m.height == 0
  {
    ListModel(titles, 0, 0)
  }

  /** `SetSize` on a list widget. */
  function SetSize(m: ListModel, width: int, height: int): ListModel {
    m.(width := width, height := height)
  }

  /** `menuHeight`: the window height less 14 rows of chrome, but never fewer
      than 4 rows. */
  function MenuHeight(windowHeight: int): (r: int)
    ensures r >= 4 && r >= windowHeight - 14
    ensures r == 4 || r == windowHeight - 14
  {
    if windowHeight - 14 > 4 then windowHeight - 14 else 4
  }

  /** From a window of 18 rows on, the menu gets all but 14 of them. */
  lemma MenuHeightTall(windowHeight: int)
    requires windowHeight >= 18
    ensures MenuHeight(windowHeight) == windowHeight - 14
  {
  }

  /** The shown menu and the menus beneath it, the last one on top. */
  datatype MenuView = MenuView(menu: ListModel, stack: seq<ListModel>)

  /** `pushMenu`: the shown menu goes on the stack and `next`, sized to the
      window, is shown. */
  function Push(v: MenuView, next: ListModel, windowWidth: int, windowHeight: int): MenuView {
    MenuView(SetSize(next, windowWidth, MenuHeight(windowHeight)), v.stack + [v.menu])
  }

  /** `popMenu`: whether a menu was popped, and the view after. */
  function Pop(v: MenuView): (bool, MenuView) {
    if |v.stack| == 0 then (false, v)
    else (true, MenuView(v.stack[|v.stack| - 1], v.stack[..|v.stack| - 1]))
  }

  /** `resizeMenus`: every menu, shown or stacked, gets the same size. */
  function ResizeAll(v: MenuView, width: int, height: int): MenuView {
    var size := MenuHeight(height);
    MenuView(SetSize(v.menu, width, size),
      seq(|v.stack|, i requires 0 <= i < |v.stack| => SetSize(v.stack[i], width, size)))
  }

  /** Pushing deepens the stack by one and shows the new menu at the window's
      width and menu height, keeping its entries. */
  lemma PushShape(v: MenuView, next: ListModel, windowWidth: int, windowHeight: int)
    ensures var w := Push(v, next, windowWidth, windowHeight);
      && |w.stack| == |v.stack| + 1 && w.stack[..|v.stack|] == v.stack && w.stack[|v.stack|] == v.menu
      && w.menu.titles == next.titles
      && w.menu.width == windowWidth && w.menu.height >= 4
  {
    var w := Push(v, next, windowWidth, windowHeight);
    assert w.stack[..|v.stack|] == v.stack;
  }

  /** Popping an empty stack reports false and changes nothing. */
  lemma PopEmpty(v: MenuView)
    requires v.stack == []
    ensures Pop(v) == (false, v)
  {
  }

  /** Popping after a push reports true and restores the view from before the
      push: the pushed menu, with the size it was given, is dropped. */
  lemma PushThenPop(v: MenuView, next: ListModel, windowWidth: int, windowHeight: int)
    ensures Pop(Push(v, next, windowWidth, windowHeight)) == (true, v)
  {
    var w := Push(v, next, windowWidth, windowHeight);
    assert w.stack[..|w.stack| - 1] == v.stack;
  }

  /** Pushing back the menu a pop replaced restores the stack; that menu is
      shown again, sized to the window. */
  lemma PopThenPush(v: MenuView, windowWidth: int, windowHeight: int)
    requires |v.stack| > 0
    ensures var w := Pop(v).1;
      var u := Push(w, v.menu, windowWidth, windowHeight);
      u.stack == v.stack && u.menu == SetSize(v.menu, windowWidth, MenuHeight(windowHeight))
  {
    assert v.stack[..|v.stack| - 1] + [v.stack[|v.stack| - 1]] == v.stack;
  }

  /** Resizing gives every menu the same width and height and keeps the depth,
      the order and the entries. */
  lemma ResizeAllUniform(v: MenuView, width: int, height: int)
    ensures var w := ResizeAll(v, width, height);
      && |w.stack| == |v.stack|
      && w.menu.width == width && w.menu.height == MenuHeight(height) && w.menu.titles == v.menu.titles
      && forall i :: 0 <= i < |w.stack| ==>
           w.stack[i].width == width && w.stack[i].height == MenuHeight(height)
           && w.stack[i].titles == v.stack[i].titles
  {
  }

  /** After a resize, pushing at the same window size keeps every menu the same
      size, and popping does too. */
  lemma ResizeThenPushPop(v: MenuView, next: ListModel, width: int, height: int)
    ensures var w := Push(ResizeAll(v, width, height), next, width, height);
      && w.menu.height == MenuHeight(height)
      && forall i :: 0 <= i < |w.stack| ==> w.stack[i].width == width && w.stack[i].height == MenuHeight(height)
    ensures var w := Pop(ResizeAll(v, width, height)).1;
      forall i :: 0 <= i < |w.stack| ==> w.stack[i].width == width && w.stack[i].height == MenuHeight(height)
  {
    var r := ResizeAll(v, width, height);
    var w := Push(r, next, width, height);
    forall i | 0 <= i < |w.stack|
      ensures w.stack[i].width == width && w.stack[i].height == MenuHeight(height)
    {
      if i < |r.stack| {
        assert w.stack[i] == r.stack[i];
      }
    }
  }

  /** The menu fields of the TUI model. */
  class MenuState {
    var menu: ListModel
    var menuStack: seq<ListModel>
    var windowWidth: int
    var windowHeight: int

    /** The menus as a value. */
    function View(): MenuView
      reads this
    {
      MenuView(menu, menuStack)
    }

    constructor (root: ListModel)
      ensures View() == MenuView(root, []) && windowWidth == 0 && windowHeight == 0
    {
      menu := root;
      menuStack := [];
      windowWidth := 0;
      windowHeight := 0;
    }

    /** `pushMenu`. */
    method PushMenu(next: ListModel)
      modifies this`menu, this`menuStack
      ensures View() == Push(old(View()), next, windowWidth, windowHeight)
    {
      var sized := SetSize(next, windowWidth, MenuHeight(windowHeight));
      menuStack := menuStack + [menu];
      menu := sized;
    }

    /** `popMenu`. */
    method PopMenu() returns (popped: bool)
      modifies this`menu, this`menuStack
      ensures (popped, View()) == Pop(old(View()))
    {
      if |menuStack| == 0 {
        return false;
      }
      var last := menuStack[|menuStack| - 1];
      menuStack := menuStack[..|menuStack| - 1];
      menu := last;
      return true;
    }

    /** `resizeMenus`: the window size fields are not touched. */
    method ResizeMenus(width: int, height: int)
      modifies this`menu, this`menuStack
      ensures View() == ResizeAll(old(View()), width, height)
    {
      var size := MenuHeight(height);
      menu := SetSize(menu, width, size);
      var i := 0;
      while i < |menuStack|
        invariant 0 <= i <= |menuStack| == |old(menuStack)|
        invariant menu == SetSize(old(menu), width, size)
        invariant forall j :: 0 <= j < i ==> menuStack[j] == SetSize(old(menuStack)[j], width, size)
        invariant forall j :: i <= j < |menuStack| ==> menuStack[j] == old(menuStack)[j]
      {
        menuStack := menuStack[i := SetSize(menuStack[i], width, size)];
        i := i + 1;
      }
      assert menuStack == ResizeAll(old(View()), width, height).stack;
    }
  }
}
