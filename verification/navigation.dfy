/** The active-route rule shared by the desktop header and the mobile bar. */
module Navigation {
  import opened Text

  const DashboardPath: string := "/dashboard"
  const AccountsPath: string := "/accounts"
  const ProfilePath: string := "/profile"

  /** `isActive(path)`: the current pathname is `path` itself or lies below
      it, one `/` further down. */
  predicate IsActive(pathname: string, path: string)
    ensures IsActive(pathname, path) ==> StartsWith(pathname, path)
  {
    pathname == path || StartsWith(pathname, path + "/")
  }

  /** A link rendered in a navigation bar, with whether it is highlighted. */
  datatype NavLink = NavLink(name: string, href: string, highlighted: bool)

  /** Being on `path` or below it activates `path`; a pathname that runs on
      past `path` without a `/` boundary (`/dashboards` for `/dashboard`) does
      not, and neither does anything shorter than `path` (such as `/`). */
  lemma IsActiveCharacterised(pathname: string, path: string)
    ensures IsActive(pathname, path) <==>
      |path| <= |pathname| && pathname[..|path|] == path
      && (|pathname| == |path| || pathname[|path|] == '/')
  {
    if |path| < |pathname| && pathname[..|path|] == path && pathname[|path|] == '/' {
      assert pathname[..|path| + 1] == pathname[..|path|] + [pathname[|path|]];
    }
    if StartsWith(pathname, path + "/") {
      assert pathname[..|path|] == pathname[..|path| + 1][..|path|];
      assert pathname[|path|] == pathname[..|path| + 1][|path|];
    }
  }

  lemma ActiveBelow(path: string, rest: string)
    ensures IsActive(path + "/" + rest, path)
  {
    assert (path + "/" + rest)[..|path| + 1] == path + "/";
  }

  lemma ShorterNeverActive(pathname: string, path: string)
    requires |pathname| < |path|
    ensures !IsActive(pathname, path)
  {
  }

  lemma DashboardsIsNotDashboard()
    ensures !IsActive("/dashboards", DashboardPath)
  {
    IsActiveCharacterised("/dashboards", DashboardPath);
    assert "/dashboards"[|DashboardPath|] == 's';
  }

  /** Two routes active at once lie on one branch: the shorter one is the
      longer one or one of its `/`-separated ancestors. */
  lemma BothActiveNested(pathname: string, p: string, q: string)
    requires IsActive(pathname, p) && IsActive(pathname, q) && |p| <= |q|
    ensures p == q || StartsWith(q, p + "/")
  {
    IsActiveCharacterised(pathname, p);
    IsActiveCharacterised(pathname, q);
    assert q[..|p|] == pathname[..|q|][..|p|];
    if |p| < |q| {
      assert q[|p|] == pathname[|p|];
      IsActiveCharacterised(q, p);
    }
  }

  /** Routes that part at their first segment's first letter are never active
      together. */
  lemma SiblingsExclusive(pathname: string, p: string, q: string)
    requires |p| >= 2 && |q| >= 2 && p[1] != q[1]
    ensures !(IsActive(pathname, p) && IsActive(pathname, q))
  {
    if IsActive(pathname, p) {
      ActiveAgreesAt(pathname, p, 1);
    }
    if IsActive(pathname, q) {
      ActiveAgreesAt(pathname, q, 1);
    }
  }

  lemma ActiveAgreesAt(pathname: string, path: string, k: nat)
    requires IsActive(pathname, path) && k < |path|
    ensures k < |pathname| && pathname[k] == path[k]
  {
    IsActiveCharacterised(pathname, path);
    assert pathname[..|path|][k] == path[k];
  }
}

/** `components/app-header.tsx`: the Home and Accounts links of the header. */
module AppHeader {
  import opened Navigation

  function Links(pathname: string): (r: seq<NavLink>)
    ensures |r| == 2
    ensures r[0].name == "Home" && r[0].href == DashboardPath
    ensures r[1].name == "Accounts" && r[1].href == AccountsPath
    ensures forall i :: 0 <= i < |r| ==> r[i].highlighted == IsActive(pathname, r[i].href)
  {
    [NavLink("Home", DashboardPath, IsActive(pathname, DashboardPath)),
     NavLink("Accounts", AccountsPath, IsActive(pathname, AccountsPath))]
  }

  /** Home and Accounts are never highlighted together. */
  lemma NeverBothHighlighted(pathname: string)
    ensures !(Links(pathname)[0].highlighted && Links(pathname)[1].highlighted)
  {
    SiblingsExclusive(pathname, DashboardPath, AccountsPath);
  }
}

/** `components/bottom-nav.tsx`: the mobile bar, `navItems` followed by the
    separately written Profile link. */
module BottomNav {
  import opened Navigation

  datatype NavItem = NavItem(name: string, href: string)

  const NavItems: seq<NavItem> := [NavItem("Home", DashboardPath), NavItem("Accounts", AccountsPath)]

  function Entries(pathname: string): (r: seq<NavLink>)
    ensures |r| == 3
    ensures r[0].name == "Home" && r[0].href == DashboardPath
    ensures r[1].name == "Accounts" && r[1].href == AccountsPath
    ensures r[2].name == "Profile" && r[2].href == ProfilePath
    ensures forall i :: 0 <= i < |r| ==> r[i].highlighted == IsActive(pathname, r[i].href)
  {
    seq(|NavItems|, i requires 0 <= i < |NavItems| =>
      NavLink(NavItems[i].name, NavItems[i].href, IsActive(pathname, NavItems[i].href)))
    + [NavLink("Profile", ProfilePath, IsActive(pathname, ProfilePath))]
  }

  /** At most one of the three entries is highlighted. */
  lemma AtMostOneHighlighted(pathname: string)
    ensures forall i, j :: 0 <= i < j < |Entries(pathname)| ==>
      !(Entries(pathname)[i].highlighted && Entries(pathname)[j].highlighted)
  {
    SiblingsExclusive(pathname, DashboardPath, AccountsPath);
    SiblingsExclusive(pathname, DashboardPath, ProfilePath);
    SiblingsExclusive(pathname, AccountsPath, ProfilePath);
  }

  /** A page below `/profile/` highlights Profile and nothing else. */
  lemma ProfileSubpageHighlightsProfile(rest: string)
    ensures Entries(ProfilePath + "/" + rest)[2].highlighted
    ensures !Entries(ProfilePath + "/" + rest)[0].highlighted && !Entries(ProfilePath + "/" + rest)[1].highlighted
  {
    ActiveBelow(ProfilePath, rest);
    AtMostOneHighlighted(ProfilePath + "/" + rest);
  }
}
