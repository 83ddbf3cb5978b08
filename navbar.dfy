/** The navigation bar: the cart badge (a count of units, capped at "99+"),
    the account label and menu, and which navigation link is underlined. */
module Navbar {
  import opened Common
  import opened CartContext

  /** The text of the cart badge, or `None` when no badge is rendered. */
  function CartBadge(count: int): (r: Option<string>)
    ensures r.Some? <==> count > 0
    ensures r == Some("99+") <==> count > 99
    ensures 0 < count <= 99 ==>
      && r.Some? && 1 <= |r.value| <= 2 && AllDigits(r.value) && DigitsValue(r.value) == count
      && r.value[0] != '0'
  {
    if count > 0 then
      if count > 99 then Some("99+")
      else
        DecimalStringShort(count);
        DecimalRoundTrip(count);
        Some(DecimalString(count))
    else None
  }

  /** The badge counts units, not lines: with every quantity at least 1 it
      is at least the number of lines, and equal to it exactly when every
      line holds a single unit. */
  lemma {:induction false} CountAtLeastLines(items: seq<CartItem>)
    requires PositiveQuantities(items)
    ensures CartItemsCount(items) >= |items|
    ensures CartItemsCount(items) == |items| <==> forall i :: 0 <= i < |items| ==> items[i].quantity == 1
    decreases |items|
  {
    if items != [] {
      var n := |items|;
      var prefix := items[..n - 1];
      assert forall i :: 0 <= i < n - 1 ==> prefix[i] == items[i];
      CountAtLeastLines(prefix);
    }
  }

  /** Adding an item to a cart with unique ids raises the badge count by
      the payload's quantity, whether it merges or appends. */
  lemma AddRaisesBadgeCount(state: CartState, p: CartItem)
    requires UniqueIds(state.items)
    ensures CartItemsCount(Reduce(state, AddItem(p)).items) == CartItemsCount(state.items) + p.quantity
  {
    match FindVariant(state.items, Key(p))
    case Some(k) =>
      AddExistingVariant(state, p, k);
      var line := state.items[k];
      assert Reduce(state, AddItem(p)).items == state.items[k := line.(quantity := line.quantity + p.quantity)];
      CountSetAt(state.items, k, line.(quantity := line.quantity + p.quantity));
    case None =>
      CountAppend(state.items, p);
  }

  /** The signed-in user as the navigation bar sees it. */
  datatype AuthUser = AuthUser(fullName: Option<string>, email: Option<string>)

  /** The label of the account button: the full name, else the e-mail,
      else "Profil" when signed in; "Akun" when signed out. Empty strings
      are skipped, so the label is never empty. */
  function AccountLabel(user: Option<AuthUser>): (r: string)
    ensures r != ""
    ensures user.None? ==> r == "Akun"
    ensures user.Some? && Truthy(user.value.fullName) ==> r == user.value.fullName.value
    ensures user.Some? && !Truthy(user.value.fullName) && Truthy(user.value.email) ==> r == user.value.email.value
    ensures user.Some? && !Truthy(user.value.fullName) && !Truthy(user.value.email) ==> r == "Profil"
  {
    match user
    case None => "Akun"
    case Some(u) =>
      if Truthy(u.fullName) then u.fullName.value
      else if Truthy(u.email) then u.email.value
      else "Profil"
  }

  datatype MenuEntry = ProfileLink | SignOut | SignInLink | SignUpLink

  /** The account menu: profile and sign-out when signed in, sign-in and
      sign-up otherwise. */
  function AccountMenu(user: Option<AuthUser>): (r: seq<MenuEntry>)
    ensures |r| == 2
    ensures SignOut in r <==> user.Some?
    ensures SignInLink in r <==> user.None?
    ensures user.Some? ==> r == [ProfileLink, SignOut]
    ensures user.None? ==> r == [SignInLink, SignUpLink]
  {
    if user.Some? then [ProfileLink, SignOut] else [SignInLink, SignUpLink]
  }

  datatype NavLink = NavLink(href: string, text: string)

  const NavLinks: seq<NavLink> := [
    NavLink("/", "Beranda"),
    NavLink("/products", "Produk"),
    NavLink("/servicego", "ServiceGo"),
    NavLink("/blog", "Blog")
  ]

  /** For each navigation link, whether it is underlined on `pathname`. At
      most one link is underlined, and one is exactly when the path is one
      of the links' targets. */
  function Underlined(pathname: string): (r: seq<bool>)
    ensures |r| == |NavLinks|
    ensures forall i :: 0 <= i < |r| ==> (r[i] <==> NavLinks[i].href == pathname)
    ensures forall i, j :: 0 <= i < |r| && 0 <= j < |r| && r[i] && r[j] ==> i == j
    ensures (exists i :: 0 <= i < |r| && r[i]) <==> pathname in {"/", "/products", "/servicego", "/blog"}
  {
    var r := seq(|NavLinks|, i requires 0 <= i < |NavLinks| => NavLinks[i].href == pathname);
    assert r[0] == (pathname == "/") && r[1] == (pathname == "/products");
    assert r[2] == (pathname == "/servicego") && r[3] == (pathname == "/blog");
    r
  }
}
