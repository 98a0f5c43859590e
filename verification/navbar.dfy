/** The navigation bar: what it offers for the signed-in user, its logout
    and the mobile menu toggle. */
module Navbar {
  import opened Common
  import opened Server
  import opened App

  /** One entry of the bar, in the order it is rendered. */
  datatype Item = Link(to: string, caption: string) | NameBox(name: string) | LogoutButton

  /** The five page links every visitor sees. */
  const PageLinks: seq<Item> := [
    Link("/", "Home"), Link("/about", "About"), Link("/services", "Services"),
    Link("/portfolio", "Portfolio"), Link("/contact", "Contact")
  ]

  const DashboardLink := Link("/admin/dashboard", "Dashboard")
  const LoginLink := Link("/login", "Login")

  /** The desktop bar. The mobile menu, when open, shows the same items. */
  function Items(user: Option<User>): (items: seq<Item>)
    ensures |items| > 5 && items[..5] == PageLinks
    ensures DashboardLink in items <==> user.Some? && user.value.role == AdminRole
    ensures LogoutButton in items <==> user.Some?
    ensures LoginLink in items <==> user.None?
    ensures forall n :: NameBox(n) in items <==> user.Some? && n == user.value.name
  {
    match user
    case None => PageLinks + [LoginLink]
    case Some(u) =>
      PageLinks + [NameBox(u.name)]
        + (if u.role == AdminRole then [DashboardLink] else [])
        + [LogoutButton]
  }

  /** The mobile menu: nothing while closed, the bar's items while open. */
  function MobileItems(user: Option<User>, isOpen: bool): (items: seq<Item>)
    ensures !isOpen ==> items == []
    ensures isOpen ==> items == Items(user)
  {
    if isOpen then Items(user) else []
  }

  /** The navbar's state: the shared session and whether the menu is open. */
  datatype Bar = Bar(session: Session, isOpen: bool)

  /** The menu button. */
  function Toggle(b: Bar): (r: Bar)
    ensures r.isOpen != b.isOpen && r.session == b.session
  {
    b.(isOpen := !b.isOpen)
  }

  /** The desktop Logout button: sign out; the menu is left alone. */
  function Logout(b: Bar): (r: Bar)
    ensures r.session.storage == EmptyStorage && r.session.user.None? && r.isOpen == b.isOpen
  {
    b.(session := SignOut(b.session))
  }

  /** The mobile Logout button: sign out and close the menu. */
  function MobileLogout(b: Bar): (r: Bar)
    ensures r.session.storage == EmptyStorage && r.session.user.None? && !r.isOpen
  {
    Bar(SignOut(b.session), false)
  }

  /** After either logout the bar offers the login link and nothing that
      needs a user. */
  lemma LogoutShowsLogin(b: Bar)
    ensures var items := Items(Logout(b).session.user);
      LoginLink in items && LogoutButton !in items && DashboardLink !in items
    ensures MobileItems(MobileLogout(b).session.user, MobileLogout(b).isOpen) == []
  {
  }

  /** Toggling twice restores the menu. */
  lemma ToggleTwice(b: Bar)
    ensures Toggle(Toggle(b)) == b
  {
  }
}
