/** The session of the signed-in user (`AuthProvider`): who is signed in,
    whether the account is an administrator, whether the session is still
    being checked, and the browser's credential store (`localStorage`, with the
    keys `access`, `refresh` and `user`). Each awaited request's result is an
    input: the `auth/me/` answer and the `auth/login/` answer. */
module AuthContext {
  import opened Js
  import opened Api

  /** The provider's state: the credential store, `user` (null or a name),
      `isAdmin` and `loading`. */
  datatype Session = Session(store: map<string, string>, user: Option<string>, isAdmin: bool, loading: bool)

  /** The answer of `GET auth/me/`: the account, or what the request threw. */
  datatype MeOutcome =
    | MeOk(username: string, isStaff: bool, isSuperuser: bool)
    | MeFail(err: ApiError)

  /** The answer of `POST auth/login/`: the two tokens, or what it threw. */
  datatype LoginOutcome =
    | LoginOk(access: string, refresh: string)
    | LoginRejected(err: ApiError)

  /** `localStorage.getItem(key)`: null when the key is absent. */
  function GetItem(store: map<string, string>, key: string): Option<string>
  {
    if key in store then Some(store[key]) else None
  }

  /** `localStorage.getItem("access")` is truthy: present and not empty. */
  predicate HasToken(store: map<string, string>)
  {
    "access" in store && store["access"] != ""
  }

  /** An axios error whose response carried HTTP status 401. */
  predicate Unauthorized(err: ApiError)
  {
    err.AxiosError? && err.status == Some(401)
  }

  /** An administrator flag is only ever set together with a user. */
  predicate AdminHasUser(s: Session)
  {
    s.isAdmin ==> s.user.Some?
  }

  /** The state the provider mounts with: `user` read from the store, not an
      administrator, still loading. */
  function Initial(store: map<string, string>): (s: Session)
    ensures s.store == store && s.user == GetItem(store, "user")
    ensures !s.isAdmin && s.loading
  {
    Session(store, GetItem(store, "user"), false, true)
  }

  /** `logout`: the whole store is cleared (not only the three keys), nobody is
      signed in, and nothing is loading. */
  function AfterLogout(s: Session): (r: Session)
    ensures r.store == map[] && r.user == None && !r.isAdmin && !r.loading
  {
    Session(map[], None, false, false)
  }

  /** The synchronous part of `refreshMe`, up to its `await`: without a token
      the session is signed out in place (the store is left as it is) and no
      request is made; with one, `loading` is raised. */
  function RefreshStart(s: Session): (r: Session)
  {
    if !HasToken(s.store) then s.(user := None, isAdmin := false, loading := false)
    else s.(loading := true)
  }

  /** The part of `refreshMe` after the `auth/me/` answer arrived. It does not
      look at whether the session is still the one that asked: an answer that
      arrives after a `logout` is applied all the same. */
  function RefreshFinish(s: Session, me: MeOutcome): (r: Session)
  {
    match me
    case MeOk(username, isStaff, isSuperuser) =>
      s.(user := Some(username), isAdmin := isStaff || isSuperuser, loading := false)
    case MeFail(err) =>
      if Unauthorized(err) then AfterLogout(s)
      else s.(isAdmin := false, loading := false)
  }

  /** `refreshMe` run to its end with nothing in between. */
  function AfterRefreshMe(s: Session, me: MeOutcome): Session
  {
    if HasToken(s.store) then RefreshFinish(RefreshStart(s), me) else RefreshStart(s)
  }

  /** The store after a successful login POST. */
  function StoreLogin(store: map<string, string>, username: string, access: string, refresh: string): map<string, string>
  {
    store["access" := access]["refresh" := refresh]["user" := username]
  }

  /** `login(username, password)` run to its end: `loading` is raised; a
      rejected POST throws and leaves the rest (and `loading`) as it was;
      otherwise the tokens and the name are stored, `user` is set and
      `refreshMe` follows. */
  function AfterLogin(s: Session, username: string, post: LoginOutcome, me: MeOutcome): Session
  {
    var raised := s.(loading := true);
    match post
    case LoginRejected(_) => raised
    case LoginOk(access, refresh) =>
      AfterRefreshMe(raised.(store := StoreLogin(s.store, username, access, refresh), user := Some(username)), me)
  }

  // ---------------------------------------------------------------------------
  // properties of refreshMe

  /** Without a token `refreshMe` signs the session out locally, keeps the
      store, and its result does not depend on any answer: no request is made. */
  lemma RefreshWithoutToken(s: Session, me: MeOutcome, other: MeOutcome)
    requires !HasToken(s.store)
    ensures AfterRefreshMe(s, me) == Session(s.store, None, false, false)
    ensures AfterRefreshMe(s, me) == AfterRefreshMe(s, other)
  {
  }

  /** A successful `auth/me/` answer decides `user` and `isAdmin`; the store is
      not touched. */
  lemma RefreshSuccess(s: Session, username: string, isStaff: bool, isSuperuser: bool)
    requires HasToken(s.store)
    ensures AfterRefreshMe(s, MeOk(username, isStaff, isSuperuser))
      == Session(s.store, Some(username), isStaff || isSuperuser, false)
  {
  }

  /** A 401 answer has exactly the effect of `logout`. */
  lemma RefreshUnauthorizedIsLogout(s: Session, err: ApiError)
    requires HasToken(s.store) && Unauthorized(err)
    ensures AfterRefreshMe(s, MeFail(err)) == AfterLogout(s)
  {
  }

  /** Any other failure fails closed: the administrator flag drops, the user
      and the store stay. */
  lemma RefreshFailsClosed(s: Session, err: ApiError)
    requires HasToken(s.store) && !Unauthorized(err)
    ensures AfterRefreshMe(s, MeFail(err)) == Session(s.store, s.user, false, false)
  {
  }

  /** Every completed `refreshMe` ends with `loading` false, and the
      administrator flag is set only by a successful answer naming a staff or
      superuser account. */
  lemma RefreshSettles(s: Session, me: MeOutcome)
    ensures !AfterRefreshMe(s, me).loading
    ensures AfterRefreshMe(s, me).isAdmin ==> me.MeOk? && (me.isStaff || me.isSuperuser)
  {
  }

  /** Every step keeps `AdminHasUser`. */
  lemma {:induction false} StepsKeepAdminHasUser(s: Session, me: MeOutcome, username: string, post: LoginOutcome)
    requires AdminHasUser(s)
    ensures AdminHasUser(AfterLogout(s))
    ensures AdminHasUser(RefreshStart(s))
    ensures AdminHasUser(RefreshFinish(s, me))
    ensures AdminHasUser(AfterRefreshMe(s, me))
    ensures AdminHasUser(AfterLogin(s, username, post, me))
  {
  }

  /** With no staleness guard an answer that arrives after `logout` signs the
      user back in, with an empty store: a session that holds administrator
      rights but no token. */
  lemma StaleAnswerAfterLogout(s: Session, username: string)
    requires HasToken(s.store)
    ensures var r := RefreshFinish(AfterLogout(RefreshStart(s)), MeOk(username, true, false));
      r.user == Some(username) && r.isAdmin && !HasToken(r.store) && r.store == map[]
  {
  }

  // ---------------------------------------------------------------------------
  // properties of login

  /** A rejected login POST changes neither the store nor `user`, and leaves
      `loading` raised. */
  lemma LoginRejectedKeeps(s: Session, username: string, err: ApiError, me: MeOutcome)
    ensures AfterLogin(s, username, LoginRejected(err), me) == s.(loading := true)
  {
  }

  /** After a login whose POST succeeded, whatever the tokens (an empty
      access token is stored too), the three keys hold the tokens and the
      name and every other key is kept, unless `refreshMe` then meets a 401,
      which clears the store. */
  lemma LoginWritesStore(s: Session, username: string, access: string, refresh: string, me: MeOutcome)
    requires access == "" || !(me.MeFail? && Unauthorized(me.err))
    ensures var r := AfterLogin(s, username, LoginOk(access, refresh), me);
      && r.store["access"] == access && r.store["refresh"] == refresh && r.store["user"] == username
      && (forall k :: k in s.store && k !in {"access", "refresh", "user"} ==> k in r.store && r.store[k] == s.store[k])
      && r.store.Keys == s.store.Keys + {"access", "refresh", "user"}
      && !r.loading
  {
  }

  /** A login answered with an empty access token stores it, but the
      `refreshMe` that follows finds no token and signs the session out. */
  lemma LoginEmptyTokenSignsOut(s: Session, username: string, refresh: string, me: MeOutcome)
    ensures var r := AfterLogin(s, username, LoginOk("", refresh), me);
      r.user == None && !r.isAdmin && !r.loading && r.store == StoreLogin(s.store, username, "", refresh)
  {
  }

  /** After a login whose POST succeeded with a non-empty access token and whose
      `auth/me/` answer is not a 401, the store is written as `LoginWritesStore`
      says, `user` is the name the server returned (or, on a failed answer, the
      name typed), and nothing is loading. */
  lemma {:induction false} LoginStores(s: Session, username: string, access: string, refresh: string, me: MeOutcome)
    requires access != ""
    requires !(me.MeFail? && Unauthorized(me.err))
    ensures var r := AfterLogin(s, username, LoginOk(access, refresh), me);
      && r.store["access"] == access && r.store["refresh"] == refresh && r.store["user"] == username
      && (forall k :: k in s.store && k !in {"access", "refresh", "user"} ==> k in r.store && r.store[k] == s.store[k])
      && r.store.Keys == s.store.Keys + {"access", "refresh", "user"}
      && r.user == Some(if me.MeOk? then me.username else username)
      && !r.loading
  {
    LoginWritesStore(s, username, access, refresh, me);
  }

  /** A 401 from `auth/me/` right after a successful login undoes it entirely. */
  lemma LoginThenUnauthorized(s: Session, username: string, access: string, refresh: string, err: ApiError)
    requires access != "" && Unauthorized(err)
    ensures AfterLogin(s, username, LoginOk(access, refresh), MeFail(err)) == AfterLogout(s)
  {
  }

  /** Reloading the page after a login (mounting with the store the login left
      and running the start-up `refreshMe`, with the same `auth/me/` answer)
      arrives at the same session. */
  lemma {:induction false} ReloadRestoresLogin(s: Session, username: string, access: string, refresh: string, me: MeOutcome)
    requires access != ""
    ensures var r := AfterLogin(s, username, LoginOk(access, refresh), me);
      AfterRefreshMe(Initial(r.store), me) == r
  {
    var stored := StoreLogin(s.store, username, access, refresh);
    assert HasToken(stored);
    var r := AfterLogin(s, username, LoginOk(access, refresh), me);
    if me.MeFail? && Unauthorized(me.err) {
      assert r == AfterLogout(s);
      assert !HasToken(r.store);
    } else {
      assert r.store == stored;
      assert GetItem(stored, "user") == Some(username);
    }
  }

  // ---------------------------------------------------------------------------
  // the provider

  /** `AuthProvider`: the state React keeps for it, updated in place. */
  class AuthProvider {
    var store: map<string, string>
    var user: Option<string>
    var isAdmin: bool
    var loading: bool

    function State(): Session
      reads this
    {
      Session(store, user, isAdmin, loading)
    }

    /** Mounting the provider; the start-up effect's `refreshMe` is a separate call. */
    constructor (initialStore: map<string, string>)
      ensures State() == Initial(initialStore)
      ensures AdminHasUser(State())
    {
      store := initialStore;
      user := GetItem(initialStore, "user");
      isAdmin := false;
      loading := true;
    }

    method Logout()
      modifies this
      ensures State() == AfterLogout(old(State()))
      ensures AdminHasUser(State())
    {
      store := map[];
      user := None;
      isAdmin := false;
      loading := false;
    }

    /** `refreshMe` up to its `await`; `requested` tells whether `auth/me/` was asked. */
    method RefreshMeStart() returns (requested: bool)
      modifies this
      ensures requested == HasToken(old(store))
      ensures State() == RefreshStart(old(State()))
      ensures AdminHasUser(old(State())) ==> AdminHasUser(State())
    {
      var token := GetItem(store, "access");
      if token == None || token == Some("") {
        user := None;
        isAdmin := false;
        loading := false;
        return false;
      }
      loading := true;
      return true;
    }

    /** `refreshMe` after `auth/me/` answered (whatever happened since it asked). */
    method RefreshMeFinish(me: MeOutcome)
      modifies this
      ensures State() == RefreshFinish(old(State()), me)
      ensures AdminHasUser(State())
    {
      match me {
        case MeOk(username, isStaff, isSuperuser) =>
          user := Some(username);
          isAdmin := isStaff || isSuperuser;
        case MeFail(err) =>
          if Unauthorized(err) {
            Logout();
          } else {
            isAdmin := false;
            loading := false;
          }
      }
      loading := false;
    }

    method RefreshMe(me: MeOutcome)
      modifies this
      ensures State() == AfterRefreshMe(old(State()), me)
      ensures !loading
      ensures AdminHasUser(old(State())) ==> AdminHasUser(State())
    {
      var requested := RefreshMeStart();
      if !requested {
        return;
      }
      RefreshMeFinish(me);
    }

    /** `login`; `thrown` is the error the returned promise rejects with. */
    method Login(username: string, password: string, post: LoginOutcome, me: MeOutcome) returns (thrown: Option<ApiError>)
      modifies this
      ensures State() == AfterLogin(old(State()), username, post, me)
      ensures thrown == if post.LoginRejected? then Some(post.err) else None
      ensures AdminHasUser(old(State())) ==> AdminHasUser(State())
    {
      loading := true;
      if post.LoginRejected? {
        return Some(post.err);
      }
      store := StoreLogin(store, username, post.access, post.refresh);
      user := Some(username);
      RefreshMe(me);
      return None;
    }
  }
}
