/** The login form's submit handler (src/pages/Login.jsx). */
module LoginPage {
  import opened Base
  import opened Session
  import opened Access

  const InvalidCredentials := "Invalid email or password"

  /** Where a successful login leads, by role. */
  function RedirectFor(role: Role): (to: Path)
    ensures role == ADMIN <==> to == AdminPath
    ensures role == ORGANIZER <==> to == ProfilePath
    ensures role != ADMIN && role != ORGANIZER <==> to == HomePath
  {
    if role == ADMIN then AdminPath
    else if role == ORGANIZER then ProfilePath
    else HomePath
  }

  /** What `handleSubmit` makes of what `login` did: a redirect when it
      returned claims; otherwise reading `user.role` of nothing throws, and
      a throw shows the failure message. */
  function SubmitResult(ret: LoginReturn): (to: Option<Path>)
    ensures to.Some? <==> ret.Returned? && ret.claims.Some?
    ensures to.Some? ==> to.value == RedirectFor(ret.claims.value.role)
  {
    match ret
    case Returned(Some(c)) => Some(RedirectFor(c.role))
    case _ => None
  }

  /** A request that fails, and a token that does not decode, both end with
      the failure message and no redirect. */
  lemma UndecodableTokenIsAFailedLogin(s: AuthState, res: Http<LoginData>, decode: PayloadDecoder)
    requires res.Failed? || DecodeResponseToken(res.data.token, decode).None?
    ensures SubmitResult(LoginStep(s, res, decode).returned).None?
  {
  }

  /** The page a login leads to lets the new user in. */
  lemma RedirectIsAdmitted(s: AuthState, res: Http<LoginData>, decode: PayloadDecoder)
    requires SubmitResult(LoginStep(s, res, decode).returned).Some?
    ensures var r := LoginStep(s, res, decode);
            Admission(SubmitResult(r.returned).value, false, r.state.user) == Some(Render)
  {
    var r := LoginStep(s, res, decode);
    var u := r.state.user.value;
    PublicRoutes(false, r.state.user);
    AdminRoute(u);
    SignedInRoutes(u);
  }

  class LoginForm {
    var error: string

    constructor ()
      ensures error == ""
    {
      error := "";
    }

    /** `handleSubmit` given the outcome of the login request. */
    method HandleSubmit(auth: AuthProvider, res: Http<LoginData>, decode: PayloadDecoder) returns (to: Option<Path>)
      modifies this, auth
      ensures auth.State() == LoginStep(old(auth.State()), res, decode).state
      ensures to == SubmitResult(LoginStep(old(auth.State()), res, decode).returned)
      ensures error == if to.Some? then old(error) else InvalidCredentials
    {
      var ret := auth.Login(res, decode);
      to := SubmitResult(ret);
      if to.None? {
        error := InvalidCredentials;
      }
    }
  }
}
