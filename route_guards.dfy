/** The two route guards: `AdminRoute` in front of the administrator's page and
    `ProtectedRoute` in front of the signed-in user's pages. Each decides, from
    the session, whether to show a placeholder, redirect, or render the page. */
module RouteGuards {
  import opened Js
  import opened Api
  import opened AuthContext

  datatype Decision = Placeholder | RedirectLogin | RedirectBookings | Render

  /** A `string | null` value is truthy: present and not empty. */
  predicate Present(x: Option<string>)
  {
    x.Some? && x.value != ""
  }

  /** `AdminRoute`: placeholder while loading, then `/login` without a user,
      then `/bookings` for a user who is not an administrator. */
  function AdminRoute(user: Option<string>, isAdmin: bool, loading: bool): (d: Decision)
    ensures loading ==> d == Placeholder
    ensures d == Render <==> !loading && Present(user) && isAdmin
    ensures d == RedirectLogin <==> !loading && !Present(user)
    ensures d == RedirectBookings <==> !loading && Present(user) && !isAdmin
  {
    if loading then Placeholder
    else if !Present(user) then RedirectLogin
    else if !isAdmin then RedirectBookings
    else Render
  }

  /** `ProtectedRoute`: `/login` when there is neither a user nor a stored
      access token; it reads neither `loading` nor `isAdmin`. */
  function ProtectedRoute(user: Option<string>, token: Option<string>): (d: Decision)
    ensures d == RedirectLogin <==> !Present(user) && !Present(token)
    ensures d == Render <==> Present(user) || Present(token)
  {
    if !Present(user) && !Present(token) then RedirectLogin else Render
  }

  function AdminRouteOf(s: Session): Decision
  {
    AdminRoute(s.user, s.isAdmin, s.loading)
  }

  function ProtectedRouteOf(s: Session): Decision
  {
    ProtectedRoute(s.user, GetItem(s.store, "access"))
  }

  /** A stored token is exactly what `ProtectedRoute` reads as a token. */
  lemma TokenPresent(store: map<string, string>)
    ensures Present(GetItem(store, "access")) <==> HasToken(store)
  {
  }

  /** A user who is not an administrator is sent to `/bookings`, never to
      `/login`; the administrator's page is never shown while loading. */
  lemma AdminRouteNonAdmin(user: Option<string>, loading: bool)
    requires Present(user)
    ensures AdminRoute(user, false, loading) != RedirectLogin
    ensures AdminRoute(user, false, loading) != Render
  {
  }

  /** Whenever the administrator's page renders, the signed-in pages render too. */
  lemma AdminRenderImpliesProtectedRender(s: Session)
    ensures AdminRouteOf(s) == Render ==> ProtectedRouteOf(s) == Render
  {
  }

  /** After `logout` both guards send the visitor to `/login`. */
  lemma LogoutRedirects(s: Session)
    ensures AdminRouteOf(AfterLogout(s)) == RedirectLogin
    ensures ProtectedRouteOf(AfterLogout(s)) == RedirectLogin
  {
  }

  /** On mount the administrator's page shows the placeholder, while the
      signed-in pages already render when a name or a token is stored. */
  lemma {:induction false} OnMount(store: map<string, string>)
    ensures AdminRouteOf(Initial(store)) == Placeholder
    ensures ProtectedRouteOf(Initial(store)) == Render
      <==> ("user" in store && store["user"] != "") || HasToken(store)
  {
    TokenPresent(store);
  }

  /** After `refreshMe` with a token and a successful answer naming a non-empty
      account, the administrator's page renders exactly for a staff or
      superuser account, and otherwise redirects to `/bookings`. */
  lemma {:induction false} AdminRouteAfterRefresh(s: Session, username: string, isStaff: bool, isSuperuser: bool)
    requires HasToken(s.store) && username != ""
    ensures var d := AdminRouteOf(AfterRefreshMe(s, MeOk(username, isStaff, isSuperuser)));
      (d == Render <==> isStaff || isSuperuser) && (d == RedirectBookings <==> !(isStaff || isSuperuser))
  {
    RefreshSuccess(s, username, isStaff, isSuperuser);
  }

  /** A 401 from `auth/me/` closes both guards. */
  lemma {:induction false} UnauthorizedCloses(s: Session, err: ApiError)
    requires HasToken(s.store) && Unauthorized(err)
    ensures AdminRouteOf(AfterRefreshMe(s, MeFail(err))) == RedirectLogin
    ensures ProtectedRouteOf(AfterRefreshMe(s, MeFail(err))) == RedirectLogin
  {
    RefreshUnauthorizedIsLogout(s, err);
    LogoutRedirects(s);
  }

  /** Without a staleness guard in `refreshMe`, an administrator's answer that
      arrives after `logout` opens the administrator's page although no token
      is stored. */
  lemma {:induction false} StaleAnswerOpensAdminPage(s: Session, username: string)
    requires HasToken(s.store) && username != ""
    ensures var r := RefreshFinish(AfterLogout(RefreshStart(s)), MeOk(username, true, false));
      AdminRouteOf(r) == Render && !HasToken(r.store)
  {
    StaleAnswerAfterLogout(s, username);
  }
}
