/** The application shell: reading the stored session at start-up, the
    redirect after signing in, signing out and the route table that decides
    which page a location shows. */
module App {
  import opened Text

  // ---------------------------------------------------------------------------
  // Routing

  /** The pages the router can show. */
  datatype Page = LoginPage | MisPagos | AdminGestion | Configuracion | NotFound

  /** What the application renders for a location. */
  datatype View = Verifying | Show(page: Page) | Redirect(to: string)

  const CuotasPath := "/cuotas"
  const CobranzasPath := "/admin/cobranzas"
  const ConfigPath := "/admin/config"
  const LoginPath := "/login"

  /** The home of a role: the administration list or the student's payments. */
  function HomePath(isAdmin: bool): string
  {
    if isAdmin then CobranzasPath else CuotasPath
  }

  /** The route table. While the session is being checked only the spinner
      shows; `/login` sends a signed-in user home; every other location needs
      a session, and inside the layout each page checks the role. */
  function Route(isLoadingAuth: bool, isAuthenticated: bool, isAdmin: bool, path: string): View
  {
    if isLoadingAuth then Verifying
    else if path == LoginPath then
      (if isAuthenticated then Redirect(HomePath(isAdmin)) else Show(LoginPage))
    else if !isAuthenticated then Redirect(LoginPath)
    else if path == CuotasPath then
      (if !isAdmin then Show(MisPagos) else Redirect(CobranzasPath))
    else if path == CobranzasPath then
      (if isAdmin then Show(AdminGestion) else Redirect(CuotasPath))
    else if path == ConfigPath then
      (if isAdmin then Show(Configuracion) else Redirect(CuotasPath))
    else if path == "/" then Redirect(HomePath(isAdmin))
    else Show(NotFound)
  }

  /** Every redirect lands on a location that shows a page: no chain of
      redirects and no loop. */
  lemma RedirectsLandOnPage(isAuthenticated: bool, isAdmin: bool, path: string)
    ensures var v := Route(false, isAuthenticated, isAdmin, path);
            v.Redirect? ==> Route(false, isAuthenticated, isAdmin, v.to).Show?
  {
  }

  /** The role gates: a student never sees an administration page, an
      administrator never sees the student's payments, and without a session
      only the sign-in page shows. */
  lemma RoleGating(isAuthenticated: bool, isAdmin: bool, path: string)
    ensures var v := Route(false, isAuthenticated, isAdmin, path);
            && (v == Show(AdminGestion) || v == Show(Configuracion) ==> isAuthenticated && isAdmin)
            && (v == Show(MisPagos) ==> isAuthenticated && !isAdmin)
            && (!isAuthenticated ==> v == Show(LoginPage) || v == Redirect(LoginPath))
            && (v == Show(LoginPage) <==> !isAuthenticated && path == LoginPath)
  {
  }

  /** A signed-in user's home shows the page of their role. */
  lemma HomeShowsRolePage(isAdmin: bool)
    ensures Route(false, true, isAdmin, HomePath(isAdmin)) == Show(if isAdmin then AdminGestion else MisPagos)
  {
  }

  // ---------------------------------------------------------------------------
  // The stored session

  /** The `access` token of the stored session: one `jwtDecode` accepts, with
      its `is_staff` claim, or one it rejects. */
  datatype AccessToken = Decodable(isStaff: bool) | Undecodable

  /** What `localStorage.getItem('authToken')` holds: nothing (or an empty
      string), text that is not JSON, or a JSON object whose `access` may be
      missing or empty. */
  datatype StoredToken = Absent | Unparseable | Parsed(access: Option<AccessToken>)

  /** A stored session that `checkAuth` accepts. */
  predicate Accepted(t: StoredToken)
  {
    t.Parsed? && t.access.Some? && t.access.value.Decodable?
  }

  /** `checkAuth`'s decision: whether the user is signed in, whether as an
      administrator, and whether the stored entry is removed. */
  datatype AuthState = AuthState(isAuthenticated: bool, isAdmin: bool, token: StoredToken)

  function CheckAuthResult(t: StoredToken): (s: AuthState)
    ensures s.isAuthenticated <==> Accepted(t)
    ensures s.isAdmin <==> Accepted(t) && t.access.value.isStaff
    ensures s.token == if Accepted(t) then t else Absent
  {
    match t
    case Absent => AuthState(false, false, Absent)
    case Unparseable => AuthState(false, false, Absent)
    case Parsed(access) =>
      if access.Some? && access.value.Decodable? then AuthState(true, access.value.isStaff, t)
      else AuthState(false, false, Absent)
  }

  /** Reading the stored session twice gives the same answer: a rejected
      entry is gone, an accepted one is kept. */
  lemma CheckAuthStable(t: StoredToken)
    ensures CheckAuthResult(CheckAuthResult(t).token) == CheckAuthResult(t)
  {
  }

  /** What `handleLoginSuccess` does with the stored session: nothing, a full
      navigation to a role's home, or signing out. */
  datatype LoginAction = Stay | Navigate(to: string) | SignOut

  function LoginSuccessAction(t: StoredToken): (a: LoginAction)
    ensures a.Navigate? <==> Accepted(t)
    ensures a.Navigate? ==> a.to == HomePath(t.access.value.isStaff)
    ensures a.SignOut? <==> t.Unparseable? || (t.Parsed? && t.access == Some(Undecodable))
  {
    match t
    case Absent => Stay
    case Unparseable => SignOut
    case Parsed(access) =>
      if access.None? then Stay
      else if access.value.Decodable? then Navigate(HomePath(access.value.isStaff))
      else SignOut
  }

  /** The redirect after signing in agrees with the route table: once the
      navigation reloads the application and `checkAuth` reads the same
      entry, the target shows the page of the user's role directly. */
  lemma LoginLandsOnRolePage(t: StoredToken)
    requires Accepted(t)
    ensures var s := CheckAuthResult(t);
            var a := LoginSuccessAction(t);
            && a.Navigate?
            && Route(false, s.isAuthenticated, s.isAdmin, a.to) == Show(if t.access.value.isStaff then AdminGestion else MisPagos)
  {
    HomeShowsRolePage(t.access.value.isStaff);
  }

  /** The authentication flags and the stored entry of the running application. */
  class AuthSession {
    var storedToken: StoredToken
    var isAuthenticated: bool
    var isAdmin: bool
    var isLoadingAuth: bool

    /** Once checked, the flags describe the stored entry. */
    predicate Valid()
      reads this
    {
      !isLoadingAuth ==> AuthState(isAuthenticated, isAdmin, storedToken) == CheckAuthResult(storedToken)
    }

    constructor (t: StoredToken)
      ensures Valid()
      ensures storedToken == t && !isAuthenticated && !isAdmin && isLoadingAuth
    {
      storedToken, isAuthenticated, isAdmin, isLoadingAuth := t, false, false, true;
    }

    /** The view for a location. */
    function ViewAt(path: string): View
      reads this
    {
      Route(isLoadingAuth, isAuthenticated, isAdmin, path)
    }

    /** `checkAuth` at start-up. */
    method CheckAuth()
      modifies this
      ensures Valid()
      ensures !isLoadingAuth
      ensures AuthState(isAuthenticated, isAdmin, storedToken) == CheckAuthResult(old(storedToken))
    {
      match storedToken {
        case Absent =>
          isAuthenticated, isAdmin := false, false;
        case Unparseable =>
          storedToken := Absent;
          isAuthenticated, isAdmin := false, false;
        case Parsed(access) =>
          if access.Some? && access.value.Decodable? {
            isAdmin := access.value.isStaff;
            isAuthenticated := true;
          } else {
            storedToken := Absent;
            isAuthenticated, isAdmin := false, false;
          }
      }
      isLoadingAuth := false;
    }

    /** `handleLogout`: the entry is removed, both flags drop and the browser
        goes to the sign-in page, which then shows. */
    method Logout() returns (navigatedTo: string)
      modifies this`storedToken, this`isAuthenticated, this`isAdmin
      ensures Valid()
      ensures storedToken == Absent && !isAuthenticated && !isAdmin
      ensures navigatedTo == LoginPath
      ensures !isLoadingAuth ==> ViewAt(navigatedTo) == Show(LoginPage)
    {
      storedToken := Absent;
      isAuthenticated, isAdmin := false, false;
      navigatedTo := LoginPath;
    }

    /** `handleLoginSuccess`, after the sign-in page has stored a new entry.
        It navigates to the role's home, signs out when the entry cannot be
        read, and otherwise does nothing. */
    method LoginSuccess(stored: StoredToken) returns (navigatedTo: Option<string>)
      modifies this`storedToken, this`isAuthenticated, this`isAdmin
      ensures LoginSuccessAction(stored).Navigate? ==>
                navigatedTo == Some(LoginSuccessAction(stored).to) && storedToken == stored
                && isAuthenticated == old(isAuthenticated) && isAdmin == old(isAdmin)
      ensures LoginSuccessAction(stored).Stay? ==>
                navigatedTo == None && storedToken == stored
                && isAuthenticated == old(isAuthenticated) && isAdmin == old(isAdmin)
      ensures LoginSuccessAction(stored).SignOut? ==>
                navigatedTo == Some(LoginPath) && storedToken == Absent && !isAuthenticated && !isAdmin
    {
      storedToken := stored;
      match stored {
        case Absent =>
          navigatedTo := None;
        case Unparseable =>
          var to := Logout();
          navigatedTo := Some(to);
        case Parsed(access) =>
          if access.None? {
            navigatedTo := None;
          } else if access.value.Decodable? {
            navigatedTo := Some(HomePath(access.value.isStaff));
          } else {
            var to := Logout();
            navigatedTo := Some(to);
          }
      }
    }
  }
}
