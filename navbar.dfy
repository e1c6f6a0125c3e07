/** The navigation bar: each role's links, the active-link rule, the role label and the
    mobile menu's open state. */
module Navigation {
  import opened Common
  import opened Tables
  import opened ClientRoutes

  datatype NavItem = NavItem(name: string, href: string)

  /** getNavItems: three admin links, two user links, the owner's dashboard, and nothing for
      any other role or for no user. */
  function NavItems(role: Option<string>): (items: seq<NavItem>)
    ensures role == Some(SystemAdmin) ==>
      items == [NavItem("Dashboard", "/admin/dashboard"), NavItem("Users", "/admin/users"), NavItem("Stores", "/admin/stores")]
    ensures role == Some(NormalUser) ==>
      items == [NavItem("Dashboard", "/user/dashboard"), NavItem("Stores", "/user/stores")]
    ensures role == Some(StoreOwner) ==> items == [NavItem("Dashboard", "/store/dashboard")]
    ensures items == [] <==> role.None? || role.value !in Roles
  {
    if role == Some(SystemAdmin) then
      [NavItem("Dashboard", "/admin/dashboard"), NavItem("Users", "/admin/users"), NavItem("Stores", "/admin/stores")]
    else if role == Some(NormalUser) then
      [NavItem("Dashboard", "/user/dashboard"), NavItem("Stores", "/user/stores")]
    else if role == Some(StoreOwner) then
      [NavItem("Dashboard", "/store/dashboard")]
    else []
  }

  /** A link is highlighted exactly when the current path is its target. */
  predicate LinkActive(pathname: string, item: NavItem)
  {
    pathname == item.href
  }

  /** Each role's first link is "Dashboard" and goes where the home redirect sends that role. */
  lemma DashboardLinkIsLanding(role: string)
    requires role in Roles
    ensures var items := NavItems(Some(role));
      items != [] && items[0].name == "Dashboard" && HomeRedirect(Some(role)) == Redirect(items[0].href)
  {
  }

  /** Every link a role is shown opens a page that admits that role. */
  lemma NavLinksAdmitRole(role: string)
    requires role in Roles
    ensures forall item :: item in NavItems(Some(role)) ==> Visit(Session(false, Some(role)), item.href) == Render
  {
    var items := NavItems(Some(role));
    forall item | item in items
      ensures Visit(Session(false, Some(role)), item.href) == Render
    {
      PlainPathKey(item.href);
      if role == SystemAdmin {
        AdminPageGuards(item.href);
      } else if role == NormalUser {
        UserPageGuards(item.href);
      } else {
        OwnerPageGuard(item.href);
      }
      OwnPageRenders(role, item.href);
    }
  }

  /** The links of a role have different targets, so at most one is highlighted at a time. */
  lemma AtMostOneActive(role: Option<string>, pathname: string)
    ensures var items := NavItems(role);
      forall i, j :: 0 <= i < |items| && 0 <= j < |items| && LinkActive(pathname, items[i]) && LinkActive(pathname, items[j]) ==> i == j
  {
  }

  /** `role.replace('_', ' ')`: only the first underscore becomes a space. */
  function RoleLabel(role: string): (text: string)
    ensures |text| == |role|
    ensures Mentions(role, "_") ==> CountChar(text, '_') == CountChar(role, '_') - 1
    ensures !Mentions(role, "_") ==> text == role
  {
    ReplaceFirstCharCount(role, '_', ' ');
    ReplaceFirst(role, "_", " ")
  }

  /** A role whose first underscore follows `before` gets a space there and nothing else. */
  lemma FirstUnderscore(before: string, after: string)
    requires forall j :: 0 <= j < |before| ==> before[j] != '_'
    ensures RoleLabel(before + "_" + after) == before + " " + after
  {
    var role := before + "_" + after;
    var i := |before|;
    assert role[i..i + 1] == "_";
    assert OccursAt(role, "_", i);
    var r := IndexOfFrom(role, "_", 0);
    assert r.Some?;
    assert r.value == i by {
      assert role[r.value..r.value + 1] == [role[r.value]];
    }
    assert role[..i] == before && role[i + 1..] == after;
  }

  /** The administrator's role reads "system admin". */
  lemma SystemAdminLabel()
    ensures RoleLabel("system_admin") == "system admin"
  {
    FirstUnderscore("system", "admin");
    assert "system_admin" == "system" + "_" + "admin";
    assert "system admin" == "system" + " " + "admin";
  }

  /** The owner's role reads "store owner". */
  lemma StoreOwnerLabel()
    ensures RoleLabel("store_owner") == "store owner"
  {
    FirstUnderscore("store", "owner");
    assert "store_owner" == "store" + "_" + "owner";
    assert "store owner" == "store" + " " + "owner";
  }

  /** A role without an underscore, such as "user", is shown as it is. */
  lemma PlainRoleLabel(role: string)
    requires forall j :: 0 <= j < |role| ==> role[j] != '_'
    ensures RoleLabel(role) == role
  {
    forall j ensures !OccursAt(role, "_", j) {
      if 0 <= j && j + 1 <= |role| {
        assert role[j..j + 1] == [role[j]];
      }
    }
  }

  /** The mobile menu. */
  class Navbar {
    var isMenuOpen: bool

    constructor ()
      ensures !isMenuOpen
    {
      isMenuOpen := false;
    }

    /** The menu button. */
    method ToggleMenu()
      modifies this`isMenuOpen
      ensures isMenuOpen == !old(isMenuOpen)
    {
      isMenuOpen := !isMenuOpen;
    }

    /** A menu link, the profile link and the logout button all close the menu. */
    method CloseMenu()
      modifies this`isMenuOpen
      ensures !isMenuOpen
    {
      isMenuOpen := false;
    }
  }
}
