/**
 * The sidebar of every authenticated page: active menus in sort order, each
 * with the active submenus the user's role may see, and only menus left with
 * at least one submenu.
 */
module Sidebar {
  import opened Wrappers

  datatype Menu = Menu(id: int, title: string, icon: string, sortOrder: int, isActive: bool)

  datatype SubMenu = SubMenu(
    id: int, menuId: int, title: string, endpoint: Option<string>, url: Option<string>,
    icon: string, sortOrder: int, isActive: bool, permissionCode: Option<string>)

  /** Where a submenu links: a named endpoint, a hard URL, or "#". */
  datatype Href = ToEndpoint(endpoint: string) | ToUrl(url: string) | NoLink

  datatype SubEntry = SubEntry(title: string, icon: string, href: Href, endpoint: string)
  datatype MenuEntry = MenuEntry(title: string, icon: string, submenus: seq<SubEntry>)

  /** A submenu without a permission code (or with an empty one) is open to all; otherwise the code must be held. */
  predicate Permitted(s: SubMenu, perms: set<string>)
  {
    s.permissionCode.None? || s.permissionCode.value == [] || s.permissionCode.value in perms
  }

  /** An active submenu of menu `m` the holder of `perms` may see. */
  predicate Shown(m: Menu, s: SubMenu, perms: set<string>)
  {
    s.menuId == m.id && s.isActive && Permitted(s, perms)
  }

  function LinkOf(s: SubMenu): Href
  {
    if s.endpoint.Some? && s.endpoint.value != [] then ToEndpoint(s.endpoint.value)
    else if s.url.Some? && s.url.value != [] then ToUrl(s.url.value)
    else NoLink
  }

  function EntryOf(s: SubMenu): SubEntry
  {
    SubEntry(s.title, s.icon, LinkOf(s), if s.endpoint.Some? then s.endpoint.value else [])
  }

  /** The submenu rows of `m` that are shown, in the given (sort) order. */
  function ShownSubs(m: Menu, subs: seq<SubMenu>, perms: set<string>): (r: seq<SubMenu>)
    ensures |r| <= |subs|
    ensures forall s :: s in r <==> s in subs && Shown(m, s, perms)
  {
    if subs == [] then []
    else
      var last := subs[|subs| - 1];
      assert subs == subs[..|subs| - 1] + [last];
      ShownSubs(m, subs[..|subs| - 1], perms) + (if Shown(m, last, perms) then [last] else [])
  }

  /** The menus that make it into the sidebar: active, with at least one shown submenu. */
  function ShownMenus(menus: seq<Menu>, subs: seq<SubMenu>, perms: set<string>): (r: seq<Menu>)
    ensures forall m :: m in r <==> m in menus && m.isActive && ShownSubs(m, subs, perms) != []
  {
    if menus == [] then []
    else
      var last := menus[|menus| - 1];
      assert menus == menus[..|menus| - 1] + [last];
      ShownMenus(menus[..|menus| - 1], subs, perms) +
        (if last.isActive && ShownSubs(last, subs, perms) != [] then [last] else [])
  }

  function Entries(subs: seq<SubMenu>): (r: seq<SubEntry>)
    ensures |r| == |subs|
  {
    seq(|subs|, i requires 0 <= i < |subs| => EntryOf(subs[i]))
  }

  function Render(shown: seq<Menu>, subs: seq<SubMenu>, perms: set<string>): (r: seq<MenuEntry>)
    ensures |r| == |shown|
  {
    seq(|shown|, i requires 0 <= i < |shown| =>
      MenuEntry(shown[i].title, shown[i].icon, Entries(ShownSubs(shown[i], subs, perms))))
  }

  /** The sidebar as a value: empty for anonymous requests, else the rendered shown menus. */
  function SidebarOf(authenticated: bool, menus: seq<Menu>, subs: seq<SubMenu>, perms: set<string>): seq<MenuEntry>
  {
    if !authenticated then [] else Render(ShownMenus(menus, subs, perms), subs, perms)
  }

  /** Every menu in the sidebar carries at least one submenu. */
  lemma NoEmptyMenus(menus: seq<Menu>, subs: seq<SubMenu>, perms: set<string>)
    ensures forall e :: e in SidebarOf(true, menus, subs, perms) ==> e.submenus != []
  {
    var shown := ShownMenus(menus, subs, perms);
    forall e | e in SidebarOf(true, menus, subs, perms) ensures e.submenus != [] {
      var i :| 0 <= i < |shown| && Render(shown, subs, perms)[i] == e;
      assert shown[i] in shown;
    }
  }

  /** A user with no permission codes (no role) sees only submenus without a code. */
  lemma NoRoleSeesOnlyOpenSubmenus(m: Menu, subs: seq<SubMenu>, s: SubMenu)
    requires s in ShownSubs(m, subs, {})
    ensures s.permissionCode.None? || s.permissionCode == Some([])
  {
  }

  /** `inject_sidebar_menus`: the nested loops over menus and their submenus. */
  method BuildSidebar(authenticated: bool, menus: seq<Menu>, subs: seq<SubMenu>, perms: set<string>)
    returns (sidebar: seq<MenuEntry>)
    ensures sidebar == SidebarOf(authenticated, menus, subs, perms)
  {
    if !authenticated {
      return [];
    }
    sidebar := [];
    ghost var shown: seq<Menu> := [];
    var i := 0;
    while i < |menus|
      invariant 0 <= i <= |menus|
      invariant shown == ShownMenus(menus[..i], subs, perms)
      invariant sidebar == Render(shown, subs, perms)
    {
      var m := menus[i];
      ShownMenusStep(menus, i, subs, perms);
      if m.isActive {
        var visible := VisibleSubs(m, subs, perms);
        if visible != [] {
          RenderStep(shown, m, subs, perms);
          shown := shown + [m];
          sidebar := sidebar + [MenuEntry(m.title, m.icon, visible)];
        }
      }
      i := i + 1;
    }
    assert menus[..i] == menus;
  }

  /** One more menu row: it joins the shown menus exactly when it is active with a shown submenu. */
  lemma ShownMenusStep(menus: seq<Menu>, i: nat, subs: seq<SubMenu>, perms: set<string>)
    requires i < |menus|
    ensures var m := menus[i];
            ShownMenus(menus[..i + 1], subs, perms) ==
              ShownMenus(menus[..i], subs, perms) + (if m.isActive && ShownSubs(m, subs, perms) != [] then [m] else [])
  {
    assert menus[..i + 1][..i] == menus[..i];
  }

  /** Rendering one more shown menu appends its entry. */
  lemma RenderStep(shown: seq<Menu>, m: Menu, subs: seq<SubMenu>, perms: set<string>)
    ensures Render(shown + [m], subs, perms) ==
              Render(shown, subs, perms) + [MenuEntry(m.title, m.icon, Entries(ShownSubs(m, subs, perms)))]
  {
    var l, r := Render(shown + [m], subs, perms), Render(shown, subs, perms) + [MenuEntry(m.title, m.icon, Entries(ShownSubs(m, subs, perms)))];
    assert |l| == |r|;
    forall k | 0 <= k < |l| ensures l[k] == r[k] {
      if k < |shown| {
        assert (shown + [m])[k] == shown[k];
      }
    }
  }

  /** The inner loop: entries of the submenus of `m` that are shown. */
  method VisibleSubs(m: Menu, subs: seq<SubMenu>, perms: set<string>) returns (visible: seq<SubEntry>)
    ensures visible == Entries(ShownSubs(m, subs, perms))
  {
    visible := [];
    var j := 0;
    while j < |subs|
      invariant 0 <= j <= |subs|
      invariant visible == Entries(ShownSubs(m, subs[..j], perms))
    {
      var s := subs[j];
      ShownSubsStep(m, subs, j, perms);
      if Shown(m, s, perms) {
        EntriesStep(ShownSubs(m, subs[..j], perms), s);
        visible := visible + [EntryOf(s)];
      }
      j := j + 1;
    }
    assert subs[..j] == subs;
  }

  lemma ShownSubsStep(m: Menu, subs: seq<SubMenu>, j: nat, perms: set<string>)
    requires j < |subs|
    ensures ShownSubs(m, subs[..j + 1], perms) ==
              ShownSubs(m, subs[..j], perms) + (if Shown(m, subs[j], perms) then [subs[j]] else [])
  {
    assert subs[..j + 1][..j] == subs[..j];
  }

  lemma EntriesStep(xs: seq<SubMenu>, s: SubMenu)
    ensures Entries(xs + [s]) == Entries(xs) + [EntryOf(s)]
  {
    var l, r := Entries(xs + [s]), Entries(xs) + [EntryOf(s)];
    assert |l| == |r|;
    forall k | 0 <= k < |l| ensures l[k] == r[k] {
      if k < |xs| {
        assert (xs + [s])[k] == xs[k];
      }
    }
  }
}
