/** Native tray menus: who owns a handle, while a menu is built and while one is shown. */
module MenuOwnership {

  /** 0 is the null handle. */
  type Handle = nat

  datatype Kind = PlainItem | Separator | Checkbox | Submenu

  datatype Entry = Entry(kind: Kind, id: nat, text: string, disabled: bool, checked: bool, children: seq<Entry>)

  /** A native menu: its handle and what was appended to it. */
  datatype Menu = Menu(handle: Handle, items: seq<Item>)

  datatype Item = Leaf(entry: Entry) | Branch(parent: Entry, submenu: Menu)

  function Size(entry: Entry): nat {
    1 + SizeOf(entry.children)
  }

  function SizeOf(entries: seq<Entry>): nat {
    if entries == [] then 0 else Size(entries[0]) + SizeOf(entries[1..])
  }

  lemma {:induction false} ChildrenAreSmaller(entries: seq<Entry>, i: nat)
    requires i < |entries|
    ensures SizeOf(entries[i].children) < Size(entries[i]) <= SizeOf(entries)
    decreases |entries|
  {
    if i > 0 {
      ChildrenAreSmaller(entries[1..], i - 1);
    }
  }

  /** The native tree shows exactly the described one. */
  predicate Shows(menu: Menu, entries: seq<Entry>)
    decreases SizeOf(entries)
  {
    && |menu.items| == |entries|
    && forall i :: 0 <= i < |entries| ==>
         if entries[i].kind == Submenu
         then
           && menu.items[i].Branch? && menu.items[i].parent == entries[i]
           && (ChildrenAreSmaller(entries, i); Shows(menu.items[i].submenu, entries[i].children))
         else menu.items[i] == Leaf(entries[i])
  }

  function Handles(menu: Menu): set<Handle> {
    {menu.handle} + HandlesOf(menu.items)
  }

  function HandlesIn(item: Item): set<Handle> {
    if item.Branch? then Handles(item.submenu) else {}
  }

  function HandlesOf(items: seq<Item>): set<Handle> {
    if items == [] then {} else HandlesIn(items[0]) + HandlesOf(items[1..])
  }

  lemma {:induction false} HandlesAppend(items: seq<Item>, item: Item)
    ensures HandlesOf(items + [item]) == HandlesOf(items) + HandlesIn(item)
    decreases |items|
  {
    if items == [] {
      assert [item][1..] == [];
    } else {
      HandlesAppend(items[1..], item);
      assert (items + [item])[1..] == items[1..] + [item];
    }
  }

  /** The platform: the menus nobody owns but the program, each a whole tree.
      Destroying one destroys its tree; appending one gives it to its parent. Its
      answers are handles for Create, 0 being a failure, and non-zero for a success.
      `error` changes with every failure, and `failure` is the kind of the last one. */
  class Platform {
    var roots: map<Handle, Menu>
    var live: set<Handle>
    var answers: seq<nat>
    var error: nat
    ghost var destroyed: seq<Handle>
    ghost var failure: BuildError

    ghost predicate Valid()
      reads this
    {
      && (forall h :: h in roots ==> h != 0 && roots[h].handle == h)
      && (forall h :: h in roots ==> Handles(roots[h]) <= live)
      && (forall g, h :: g in roots && h in roots && g != h ==> Handles(roots[g]) !! Handles(roots[h]))
    }

    constructor (answers: seq<nat>)
      ensures Valid() && roots == map[] && live == {} && destroyed == []
    {
      roots, live, this.answers, error, destroyed, failure := map[], {}, answers, 0, [], NoError;
    }

    method Answer() returns (answer: nat)
      modifies `answers
    {
      answer := 0;
      if answers != [] {
        answer, answers := answers[0], answers[1..];
      }
    }

    method Fail(kind: BuildError)
      modifies `error, `failure
      ensures error == old(error) + 1 && failure == kind
    {
      error, failure := error + 1, kind;
    }

    /** A new handle is not one in use; a destroyed one may come back. */
    method Create() returns (handle: Handle)
      requires Valid()
      modifies this
      ensures Valid() && destroyed == old(destroyed)
      ensures handle == 0 ==> roots == old(roots) && live == old(live) && error == old(error) + 1 && failure == CreateFailed
      ensures handle != 0 ==> error == old(error)
      ensures handle != 0 ==>
        handle !in old(live) && roots == old(roots)[handle := Menu(handle, [])] && live == old(live) + {handle}
    {
      handle := Answer();
      if handle in live {
        handle := 0;
      }
      if handle == 0 {
        Fail(CreateFailed);
      } else {
        roots, live := roots[handle := Menu(handle, [])], live + {handle};
      }
    }

    method Append(menu: Handle, entry: Entry, child: Handle) returns (appended: bool)
      requires Valid() && menu in roots && (child != 0 ==> child in roots && child != menu)
      requires child != 0 <==> entry.kind == Submenu
      modifies this
      ensures Valid() && live == old(live) && destroyed == old(destroyed)
      ensures !appended ==> roots == old(roots) && error == old(error) + 1 && failure == AppendFailed
      ensures appended ==> error == old(error)
      ensures appended ==>
        roots == (old(roots) - {child})[menu := Menu(menu, old(roots)[menu].items +
                    [if child != 0 then Branch(entry, old(roots)[child]) else Leaf(entry)])]
    {
      var answer := Answer();
      appended := answer != 0;
      if appended {
        var item := if child != 0 then Branch(entry, roots[child]) else Leaf(entry);
        HandlesAppend(roots[menu].items, item);
        roots := (roots - {child})[menu := Menu(menu, roots[menu].items + [item])];
      } else {
        Fail(AppendFailed);
      }
    }

    /** Only a live menu that no parent owns may be destroyed. */
    method Destroy(handle: Handle)
      requires Valid() && handle in roots
      modifies this
      ensures Valid() && roots == old(roots) - {handle} && live == old(live) - Handles(old(roots)[handle])
      ensures destroyed == old(destroyed) + [handle] && error == old(error) && failure == old(failure)
    {
      live := live - Handles(roots[handle]);
      roots, destroyed := roots - {handle}, destroyed + [handle];
    }
  }

  /** A handle with one owner. What C++ does when an owner goes out of scope is the
      call of Reset that its owner makes here. */
  class OwnedMenu {
    var handle: Handle

    constructor (handle: Handle)
      ensures this.handle == handle
    {
      this.handle := handle;
    }

    method Release() returns (released: Handle)
      modifies this
      ensures released == old(handle) && handle == 0
    {
      released := handle;
      handle := 0;
    }

    method Reset(platform: Platform)
      requires platform.Valid() && (handle != 0 ==> handle in platform.roots)
      modifies this, platform
      ensures platform.Valid() && handle == 0
      ensures platform.live == old(platform.live) - (if old(handle) == 0 then {} else Handles(old(platform.roots)[old(handle)]))
      ensures platform.roots == old(platform.roots) - {old(handle)}
      ensures platform.destroyed == old(platform.destroyed) + Given(old(handle))
      ensures platform.error == old(platform.error) && platform.failure == old(platform.failure)
    {
      if handle != 0 {
        platform.Destroy(handle);
        handle := 0;
      }
    }

    /** Move assignment: what was owned goes, what the other owned comes. */
    method TakeFrom(other: OwnedMenu, platform: Platform)
      requires this != other
      requires platform.Valid() && (handle != 0 ==> handle in platform.roots)
      modifies this, other, platform
      ensures platform.Valid() && handle == old(other.handle) && other.handle == 0
      ensures platform.live == old(platform.live) - (if old(handle) == 0 then {} else Handles(old(platform.roots)[old(handle)]))
      ensures platform.roots == old(platform.roots) - {old(handle)}
      ensures platform.destroyed == old(platform.destroyed) + Given(old(handle))
      ensures platform.error == old(platform.error) && platform.failure == old(platform.failure)
    {
      Reset(platform);
      handle := other.Release();
    }
  }

  function Given(handle: Handle): seq<Handle> {
    if handle == 0 then [] else [handle]
  }

  datatype BuildError = NoError | CreateFailed | AppendFailed

  lemma ShowsMore(menu: Menu, entries: seq<Entry>, i: nat, item: Item)
    requires i < |entries| && Shows(menu, entries[..i])
    requires if entries[i].kind == Submenu then item.Branch? && item.parent == entries[i] && Shows(item.submenu, entries[i].children)
             else item == Leaf(entries[i])
    ensures Shows(Menu(menu.handle, menu.items + [item]), entries[..i + 1])
  {
    var more := menu.items + [item];
    var shown := entries[..i + 1];
    forall k | 0 <= k < |shown|
      ensures if shown[k].kind == Submenu
              then
                && more[k].Branch? && more[k].parent == shown[k]
                && (ChildrenAreSmaller(shown, k); Shows(more[k].submenu, shown[k].children))
              else more[k] == Leaf(shown[k])
    {
      if k < i {
        assert shown[k] == entries[..i][k];
      }
    }
  }

  /** The item an entry becomes, with its submenu if it has one. */
  predicate ShowsEntry(item: Item, entry: Entry) {
    if entry.kind == Submenu then item.Branch? && item.parent == entry && Shows(item.submenu, entry.children)
    else item == Leaf(entry)
  }

  predicate GrewBy(before: Menu, after: Menu, entry: Entry) {
    && |after.items| == |before.items| + 1
    && after == Menu(before.handle, before.items + [after.items[|before.items|]])
    && ShowsEntry(after.items[|before.items|], entry)
  }

  /** The platform has exactly one root more than `roots`, with handles not in `live`. */
  ghost predicate OneMore(platform: Platform, handle: Handle, roots: map<Handle, Menu>, live: set<Handle>)
    reads platform
  {
    && platform.Valid() && handle != 0 && handle in platform.roots && handle !in roots
    && platform.roots == roots[handle := platform.roots[handle]]
    && platform.live == live + Handles(platform.roots[handle])
    && Handles(platform.roots[handle]) !! live
  }

  ghost predicate AsBefore(platform: Platform, roots: map<Handle, Menu>, live: set<Handle>)
    reads platform
  {
    platform.Valid() && platform.roots == roots && platform.live == live
  }

  /** Destroying the one new menu leaves the platform as it was. */
  method Undo(platform: Platform, menu: OwnedMenu, ghost roots: map<Handle, Menu>, ghost live: set<Handle>)
    requires OneMore(platform, menu.handle, roots, live)
    modifies platform, menu
    ensures AsBefore(platform, roots, live) && menu.handle == 0
    ensures platform.error == old(platform.error) && platform.failure == old(platform.failure)
  {
    assert platform.roots - {menu.handle} == roots;
    assert platform.live - Handles(platform.roots[menu.handle]) == live;
    menu.Reset(platform);
  }

  /** The parent first, then the child it never got: the platform is as it was. */
  method UndoBoth(platform: Platform, menu: OwnedMenu, child: OwnedMenu, ghost before: map<Handle, Menu>, ghost beforeLive: set<Handle>,
                  ghost roots: map<Handle, Menu>, ghost live: set<Handle>)
    requires menu != child && menu.handle in before && before == roots[menu.handle := before[menu.handle]] && menu.handle !in roots
    requires beforeLive == live + Handles(before[menu.handle]) && Handles(before[menu.handle]) !! live
    requires OneMore(platform, child.handle, before, beforeLive)
    modifies platform, menu, child
    ensures AsBefore(platform, roots, live) && menu.handle == 0 && child.handle == 0
    ensures platform.error == old(platform.error) && platform.failure == old(platform.failure)
  {
    ghost var menuTree, childTree := platform.roots[menu.handle], platform.roots[child.handle];
    assert menuTree == before[menu.handle];
    menu.Reset(platform);
    assert platform.roots == roots[child.handle := childTree];
    child.Reset(platform);
    assert platform.roots == roots;
    assert platform.live == beforeLive + Handles(childTree) - Handles(menuTree) - Handles(childTree);
  }

  /** Appends one entry, building its submenu first; a failure destroys everything
      built so far, the menu itself included. */
  method AddEntry(platform: Platform, menu: OwnedMenu, entry: Entry, ghost roots: map<Handle, Menu>, ghost live: set<Handle>)
    returns (error: BuildError, platformError: nat)
    requires OneMore(platform, menu.handle, roots, live)
    modifies platform, menu
    ensures error == NoError ==>
      && menu.handle == old(menu.handle) && OneMore(platform, menu.handle, roots, live)
      && GrewBy(old(platform.roots[menu.handle]), platform.roots[menu.handle], entry)
    ensures error != NoError ==> AsBefore(platform, roots, live) && menu.handle == 0
    ensures error == NoError ==> platform.error == old(platform.error)
    ensures error != NoError ==> platform.error == old(platform.error) + 1 && error == platform.failure && platformError == platform.error
    decreases Size(entry), 0
  {
    if entry.kind == Submenu {
      error, platformError := AddSubmenu(platform, menu, entry, roots, live);
      return;
    }
    ghost var before := platform.roots;
    HandlesAppend(before[menu.handle].items, Leaf(entry));
    assert before - {0} == before;
    var appended := platform.Append(menu.handle, entry, 0);
    if !appended {
      error, platformError := AppendFailed, platform.error;
      Undo(platform, menu, roots, live);
      return;
    }
    error, platformError := NoError, 0;
    assert platform.roots == roots[menu.handle := platform.roots[menu.handle]];
  }

  method AddSubmenu(platform: Platform, menu: OwnedMenu, entry: Entry, ghost roots: map<Handle, Menu>, ghost live: set<Handle>)
    returns (error: BuildError, platformError: nat)
    requires OneMore(platform, menu.handle, roots, live) && entry.kind == Submenu
    modifies platform, menu
    ensures error == NoError ==>
      && menu.handle == old(menu.handle) && OneMore(platform, menu.handle, roots, live)
      && GrewBy(old(platform.roots[menu.handle]), platform.roots[menu.handle], entry)
    ensures error != NoError ==> AsBefore(platform, roots, live) && menu.handle == 0
    ensures error == NoError ==> platform.error == old(platform.error)
    ensures error != NoError ==> platform.error == old(platform.error) + 1 && error == platform.failure && platformError == platform.error
    decreases SizeOf(entry.children), 2
  {
    ghost var before, beforeLive := platform.roots, platform.live;
    var child, childError, childPlatformError := BuildMenu(platform, entry.children);
    if childError != NoError {
      error, platformError := childError, childPlatformError;
      Undo(platform, menu, roots, live);
      return;
    }
    var appended := AppendChild(platform, menu, child, entry, before, beforeLive, roots, live);
    if !appended {
      error, platformError := AppendFailed, platform.error;
      UndoBoth(platform, menu, child, before, beforeLive, roots, live);
      return;
    }
    error, platformError := NoError, 0;
    var released := child.Release();
  }

  /** Hands a finished submenu to its parent, or leaves both as they are. */
  method AppendChild(platform: Platform, menu: OwnedMenu, child: OwnedMenu, entry: Entry,
                     ghost before: map<Handle, Menu>, ghost beforeLive: set<Handle>, ghost roots: map<Handle, Menu>, ghost live: set<Handle>)
    returns (appended: bool)
    requires menu.handle in before && before == roots[menu.handle := before[menu.handle]] && menu.handle !in roots && menu.handle != 0
    requires beforeLive == live + Handles(before[menu.handle]) && Handles(before[menu.handle]) !! live
    requires OneMore(platform, child.handle, before, beforeLive) && entry.kind == Submenu
    requires Shows(platform.roots[child.handle], entry.children)
    modifies platform
    ensures !appended ==> OneMore(platform, child.handle, before, beforeLive) && platform.error == old(platform.error) + 1 && platform.failure == AppendFailed
    ensures appended ==> platform.error == old(platform.error)
    ensures appended ==> OneMore(platform, menu.handle, roots, live) && GrewBy(before[menu.handle], platform.roots[menu.handle], entry)
  {
    ghost var childMenu := platform.roots[child.handle];
    assert platform.roots[menu.handle] == before[menu.handle];
    HandlesAppend(before[menu.handle].items, Branch(entry, childMenu));
    appended := platform.Append(menu.handle, entry, child.handle);
    if appended {
      assert platform.roots == roots[menu.handle := platform.roots[menu.handle]];
    }
  }

  /** Builds the described tree. On any failing create or append, at any depth,
      every handle made on the way is gone again and nothing else has changed; it
      fails only with a call that failed, at the first one and with its kind. */
  method BuildMenu(platform: Platform, entries: seq<Entry>) returns (menu: OwnedMenu, error: BuildError, platformError: nat)
    requires platform.Valid()
    modifies platform
    ensures fresh(menu)
    ensures error == NoError ==>
      OneMore(platform, menu.handle, old(platform.roots), old(platform.live)) && Shows(platform.roots[menu.handle], entries)
    ensures error != NoError ==> AsBefore(platform, old(platform.roots), old(platform.live)) && menu.handle == 0
    ensures error == NoError ==> platform.error == old(platform.error)
    ensures error != NoError ==> platform.error == old(platform.error) + 1 && error == platform.failure && platformError == platform.error
    decreases SizeOf(entries), 1
  {
    var handle := platform.Create();
    menu := new OwnedMenu(handle);
    if menu.handle == 0 {
      return menu, CreateFailed, platform.error;
    }
    error, platformError := NoError, 0;
    assert old(platform.roots)[handle := Menu(handle, [])] == platform.roots;
    for i := 0 to |entries|
      invariant fresh(menu) && error == NoError && platform.error == old(platform.error)
      invariant OneMore(platform, menu.handle, old(platform.roots), old(platform.live))
      invariant Shows(platform.roots[menu.handle], entries[..i])
    {
      ChildrenAreSmaller(entries, i);
      ghost var shown := platform.roots[menu.handle];
      error, platformError := AddEntry(platform, menu, entries[i], old(platform.roots), old(platform.live));
      if error != NoError {
        return;
      }
      ShowsMore(shown, entries, i, platform.roots[menu.handle].items[|shown.items|]);
    }
    assert entries[..|entries|] == entries;
  }
}
