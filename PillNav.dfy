/** The navigation bar: which items are router links, which pill is active,
    the user badge and the two menus it opens and closes. */
module PillNav {
  import opened Text

  /** `href.startsWith('http') || href.startsWith('#')` */
  predicate IsExternalLink(href: string)
  {
    StartsWith(href, "http") || StartsWith(href, "#")
  }

  /** `href && !isExternalLink(href)`: a present, non-empty, internal path. */
  predicate IsRouterLink(href: Option<string>)
  {
    Truthy(href) && !IsExternalLink(href.value)
  }

  /** A menu entry: its `label` (named `title` here, as `label` is a Dafny
      keyword) and its target, which may be missing. */
  datatype NavItem = NavItem(title: string, href: Option<string>)

  datatype PillKind = RouterPill | AnchorPill

  /** One desktop pill: a router link or a plain anchor, and whether it is
      marked active. */
  datatype PillView = PillView(kind: PillKind, title: string, active: bool)

  /** `activeHref === item.href`, which also holds when both are missing. */
  function RenderPill(item: NavItem, activeHref: Option<string>): (p: PillView)
    ensures p.kind == RouterPill <==> IsRouterLink(item.href)
    ensures p.active <==> activeHref == item.href
    ensures p.title == item.title
  {
    PillView(if IsRouterLink(item.href) then RouterPill else AnchorPill, item.title, activeHref == item.href)
  }

  /** The desktop pill list, one pill per item in order. */
  function RenderPills(items: seq<NavItem>, activeHref: Option<string>): (r: seq<PillView>)
    ensures |r| == |items|
    ensures forall i :: 0 <= i < |r| ==> r[i] == RenderPill(items[i], activeHref)
  {
    seq(|items|, i requires 0 <= i < |items| => RenderPill(items[i], activeHref))
  }

  /** Items have distinct targets. */
  predicate DistinctHrefs(items: seq<NavItem>)
  {
    forall i, j :: 0 <= i < j < |items| ==> items[i].href != items[j].href
  }

  /** With distinct targets at most one pill is active, and it is the one
      whose target is the current location. */
  lemma AtMostOneActive(items: seq<NavItem>, activeHref: Option<string>)
    requires DistinctHrefs(items)
    ensures var r := RenderPills(items, activeHref);
            forall i, j :: 0 <= i < |r| && 0 <= j < |r| && r[i].active && r[j].active ==> i == j
  {
    var r := RenderPills(items, activeHref);
    forall i, j | 0 <= i < |r| && 0 <= j < |r| && r[i].active && r[j].active ensures i == j {
      assert items[i].href == activeHref == items[j].href;
    }
  }

  /** `pillTextColor ?? baseColor`: only a missing colour falls back, an
      empty one is kept. */
  function ResolvedPillTextColor(pillTextColor: Option<string>, baseColor: string): (r: string)
    ensures pillTextColor.Some? ==> r == pillTextColor.value
    ensures pillTextColor.None? ==> r == baseColor
  {
    if pillTextColor.Some? then pillTextColor.value else baseColor
  }

  /** The nullish fallback differs from `||` exactly on the empty colour. */
  lemma NullishKeepsEmpty(pillTextColor: Option<string>, baseColor: string)
    requires baseColor != ""
    ensures ResolvedPillTextColor(pillTextColor, baseColor) != Or(pillTextColor, baseColor) <==> pillTextColor == Some("")
  {
  }

  /** `n.substring(0, 2)` */
  function Substring2(n: string): (r: string)
    ensures |r| == if |n| < 2 then |n| else 2
    ensures forall i :: 0 <= i < |r| ==> r[i] == n[i]
  {
    if |n| < 2 then n else n[..2]
  }

  /** `getInitials`: the first two characters upper-cased, or "US". */
  function Initials(n: Option<string>): (r: string)
    ensures 1 <= |r| <= 2
    ensures Truthy(n) ==> |r| == (if |n.value| < 2 then |n.value| else 2)
                          && forall i :: 0 <= i < |r| ==> r[i] == UpperChar(n.value[i])
    ensures !Truthy(n) ==> r == "US"
    ensures forall i :: 0 <= i < |r| ==> !IsLower(r[i])
  {
    if Truthy(n) then ToUpper(Substring2(n.value)) else "US"
  }

  /** `s.split(' ')[0]`: everything before the first space. */
  function BeforeSpace(s: string): (r: string)
    ensures |r| <= |s| && s[..|r|] == r
    ensures ' ' !in r
    ensures |r| < |s| ==> s[|r|] == ' '
    ensures ' ' in s <==> |r| < |s|
  {
    if s == [] || s[0] == ' ' then [] else [s[0]] + BeforeSpace(s[1..])
  }

  /** `getFirstName`: the first word, or "Usuario". */
  function FirstName(n: Option<string>): (r: string)
    ensures Truthy(n) ==> r == BeforeSpace(n.value)
    ensures !Truthy(n) ==> r == "Usuario"
  {
    if Truthy(n) then BeforeSpace(n.value) else "Usuario"
  }

  /** A name with no space is its own first name; otherwise the first name
      followed by a space starts the name. */
  lemma FirstNameShape(n: string)
    requires n != ""
    ensures ' ' !in n ==> FirstName(Some(n)) == n
    ensures ' ' in n ==> StartsWith(n, FirstName(Some(n)) + " ")
  {
    var r := BeforeSpace(n);
    if ' ' in n {
      assert n[..|r| + 1] == n[..|r|] + [n[|r|]];
    } else {
      assert n[..|n|] == n;
    }
  }

  /** The signed-in user as the bar receives it. */
  datatype UserData = UserData(name: Option<string>, role: string)

  /** The right-hand corner: a sign-in link, or the user pill with avatar
      initials, first name and role. */
  datatype UserCorner = SignInLink | UserPill(initials: string, firstName: string, role: string)

  function RenderUserCorner(userData: Option<UserData>): (r: UserCorner)
    ensures r.SignInLink? <==> userData.None?
    ensures r.UserPill? ==> r.initials == Initials(userData.value.name) && r.firstName == FirstName(userData.value.name)
                            && r.role == userData.value.role
  {
    if userData.None? then SignInLink
    else UserPill(Initials(userData.value.name), FirstName(userData.value.name), userData.value.role)
  }

  /** The mobile menu: every item as a router link, then a logout entry when
      a user is signed in. */
  datatype MobileEntry = MobileLink(title: string, href: Option<string>) | LogoutButton

  function MobileEntries(items: seq<NavItem>, userData: Option<UserData>): (r: seq<MobileEntry>)
    ensures |r| == |items| + (if userData.Some? then 1 else 0)
    ensures forall i :: 0 <= i < |items| ==> r[i] == MobileLink(items[i].title, items[i].href)
    ensures LogoutButton in r <==> userData.Some?
  {
    var links := seq(|items|, i requires 0 <= i < |items| => MobileLink(items[i].title, items[i].href));
    assert LogoutButton !in links;
    if userData.Some? then links + [LogoutButton] else links
  }

  /** The open/closed state of the two menus. */
  class NavMenus {
    var isMobileMenuOpen: bool
    var isUserMenuOpen: bool

    constructor ()
      ensures !isMobileMenuOpen && !isUserMenuOpen
    {
      isMobileMenuOpen, isUserMenuOpen := false, false;
    }

    /** The hamburger button: flips the mobile menu and calls the optional
        `onMobileMenuClick` callback, which is reported as the result. */
    method ToggleMobileMenu(hasCallback: bool) returns (callbackCalled: bool)
      modifies this`isMobileMenuOpen
      ensures isMobileMenuOpen == !old(isMobileMenuOpen)
      ensures callbackCalled == hasCallback
    {
      isMobileMenuOpen := !isMobileMenuOpen;
      callbackCalled := hasCallback;
    }

    /** Following a link in the mobile menu closes it. */
    method CloseMobileMenu()
      modifies this`isMobileMenuOpen
      ensures !isMobileMenuOpen
    {
      isMobileMenuOpen := false;
    }

    /** The user pill flips the dropdown. */
    method ToggleUserMenu()
      modifies this`isUserMenuOpen
      ensures isUserMenuOpen == !old(isUserMenuOpen)
    {
      isUserMenuOpen := !isUserMenuOpen;
    }

    /** The backdrop and the profile link close the dropdown. */
    method CloseUserMenu()
      modifies this`isUserMenuOpen
      ensures !isUserMenuOpen
    {
      isUserMenuOpen := false;
    }
  }
}
