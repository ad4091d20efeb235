/**
 * The menu of src/components/Sidebar.jsx: three entries for everyone, two
 * more under an admin heading for administrators, and the entry whose link
 * is exactly the current path marked active.
 */
module Sidebar {

  /** One menu entry; the icon is named by its component. */
  datatype MenuItem = MenuItem(icon: string, title: string, link: string)

  const MenuItems: seq<MenuItem> := [
    MenuItem("Box", "어플리케이션", "/applications"),
    MenuItem("User", "내 정보", "/profile"),
    MenuItem("Bell", "알림", "/notifications")
  ]

  const AdminMenuItems: seq<MenuItem> := [
    MenuItem("Users", "사용자 관리", "/admin/users"),
    MenuItem("Shield", "애플리케이션 관리", "/admin/applications")
  ]

  /** A rendered `NavItem`: the entry and its `$isActive` flag. */
  datatype NavEntry = NavEntry(item: MenuItem, active: bool)

  /** The rendered menu: the entries, and whether the divider and admin heading are shown. */
  datatype SidebarView = SidebarView(entries: seq<NavEntry>, adminSection: bool)

  /** `items.map(item => <NavItem $isActive={pathname === item.link}>)`. */
  function Entries(items: seq<MenuItem>, pathname: string): (r: seq<NavEntry>)
    ensures |r| == |items|
    ensures forall i :: 0 <= i < |items| ==> r[i].item == items[i]
    ensures forall i :: 0 <= i < |items| ==> (r[i].active <==> items[i].link == pathname)
  {
    if items == [] then [] else [NavEntry(items[0], items[0].link == pathname)] + Entries(items[1..], pathname)
  }

  /** The sidebar for a session and a path. */
  function Render(isAdmin: bool, pathname: string): (r: SidebarView)
    ensures r.adminSection == isAdmin
    ensures |r.entries| == if isAdmin then 5 else 3
    ensures forall i :: 0 <= i < |r.entries| ==> r.entries[i].item == (MenuItems + AdminMenuItems)[i]
    ensures forall i :: 0 <= i < |r.entries| ==> (r.entries[i].active <==> r.entries[i].item.link == pathname)
  {
    SidebarView(Entries(MenuItems, pathname) + (if isAdmin then Entries(AdminMenuItems, pathname) else []), isAdmin)
  }

  function Links(entries: seq<NavEntry>): seq<string>
  {
    seq(|entries|, i requires 0 <= i < |entries| => entries[i].item.link)
  }

  /** A user who is not an administrator sees exactly the three common entries, in order. */
  lemma MemberMenu(pathname: string)
    ensures Links(Render(false, pathname).entries) == ["/applications", "/profile", "/notifications"]
    ensures !Render(false, pathname).adminSection
  {
  }

  /** An administrator sees the same three first, then the two admin entries. */
  lemma AdminMenu(pathname: string)
    ensures Links(Render(true, pathname).entries) ==
      ["/applications", "/profile", "/notifications", "/admin/users", "/admin/applications"]
    ensures Render(true, pathname).entries[..3] == Render(false, pathname).entries
  {
  }

  /** No entry of a non-administrator's menu leads under /admin. */
  lemma NoAdminEntriesForMembers(pathname: string, i: nat)
    requires i < |Render(false, pathname).entries|
    ensures Render(false, pathname).entries[i].item !in AdminMenuItems
    ensures var link := Render(false, pathname).entries[i].item.link;
      !(|link| >= 7 && link[..7] == "/admin/")
  {
    var link := Render(false, pathname).entries[i].item.link;
    assert link == MenuItems[i].link;
    assert link[2] != "/admin/"[2];
  }

  /** The links are pairwise different. */
  lemma LinksDistinct(i: nat, j: nat)
    requires i < j < |MenuItems + AdminMenuItems|
    ensures (MenuItems + AdminMenuItems)[i].link != (MenuItems + AdminMenuItems)[j].link
  {
  }

  /** At most one entry is active, because the links differ. */
  lemma AtMostOneActive(isAdmin: bool, pathname: string, i: nat, j: nat)
    requires i < j < |Render(isAdmin, pathname).entries|
    ensures !(Render(isAdmin, pathname).entries[i].active && Render(isAdmin, pathname).entries[j].active)
  {
    LinksDistinct(i, j);
  }

  /**
   * Activity is exact: a path below an entry's link, such as
   * /applications/5, activates no entry at all.
   */
  lemma ExactMatchOnly(isAdmin: bool, pathname: string, i: nat)
    requires i < |Render(isAdmin, pathname).entries|
    requires pathname !in Links(Render(isAdmin, pathname).entries)
    ensures !Render(isAdmin, pathname).entries[i].active
  {
    assert Links(Render(isAdmin, pathname).entries)[i] == Render(isAdmin, pathname).entries[i].item.link;
  }

  /** On its own page, each entry is the active one. */
  lemma OwnPageActive(isAdmin: bool, i: nat)
    requires i < (if isAdmin then 5 else 3)
    ensures Render(isAdmin, (MenuItems + AdminMenuItems)[i].link).entries[i].active
  {
  }
}
