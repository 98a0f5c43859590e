/** The two sign-in forms. Both post the credentials to `/auth/login`; the
    user login stores whatever comes back, the admin login first checks the
    role. */
module SignIn {
  import opened Common
  import opened Server
  import opened App

  /** How an axios request ended: the response body, or a rejection with
      the HTTP status when there was a response at all. */
  datatype Reply<T> = Answered(data: T) | Rejected(status: Option<int>)

  /** What `handleSubmit` leaves behind: the session, the form's `loading`
      flag and where it navigated, if anywhere. */
  datatype Outcome = Outcome(session: Session, loading: bool, navigation: Option<string>)

  /** Store the token and the user, and make the user the app's user. */
  function SignInAs(s: Session, r: TokenResponse): (t: Session)
    ensures t.storage == Storage(Some(r.accessToken), Some(r.user))
    ensures t.user == Some(r.user)
  {
    Session(Storage(Some(r.accessToken), Some(r.user)), Some(r.user))
  }

  /** `Login.handleSubmit`. */
  function LoginSubmit(s: Session, reply: Reply<TokenResponse>): (o: Outcome)
    ensures !o.loading
    ensures reply.Answered? ==>
      && o.session == SignInAs(s, reply.data)
      && o.navigation == Some(if reply.data.user.role == AdminRole then "/admin/dashboard" else "/")
    ensures reply.Rejected? ==> o.session == s && o.navigation.None?
  {
    match reply
    case Answered(r) =>
      Outcome(SignInAs(s, r), false,
              Some(if r.user.role == AdminRole then "/admin/dashboard" else "/"))
    case Rejected(_) => Outcome(s, false, None)
  }

  /** `AdminLogin.handleSubmit`: only an admin is stored and let through. */
  function AdminLoginSubmit(s: Session, reply: Reply<TokenResponse>): (o: Outcome)
    ensures !o.loading
    ensures o.session != s ==> reply.Answered? && reply.data.user.role == AdminRole
    ensures reply.Answered? && reply.data.user.role == AdminRole ==>
              o.session == SignInAs(s, reply.data) && o.navigation == Some("/admin/dashboard")
    ensures !(reply.Answered? && reply.data.user.role == AdminRole) ==>
              o.session == s && o.navigation.None?
  {
    match reply
    case Answered(r) =>
      if r.user.role != AdminRole then Outcome(s, false, None)
      else Outcome(SignInAs(s, r), false, Some("/admin/dashboard"))
    case Rejected(_) => Outcome(s, false, None)
  }

  /** For an admin the two forms do the same thing; for anyone else the
      admin form does nothing but stop loading. */
  lemma AdminFormAgreesForAdmins(s: Session, reply: Reply<TokenResponse>)
    ensures reply.Answered? && reply.data.user.role == AdminRole ==>
              AdminLoginSubmit(s, reply) == LoginSubmit(s, reply)
    ensures !(reply.Answered? && reply.data.user.role == AdminRole) ==>
              AdminLoginSubmit(s, reply) == Outcome(s, false, None)
  {
  }

  /** A signed-in session survives a reload: mounting the app on the stored
      entries restores the same user. */
  lemma SignInSurvivesReload(s: Session, r: TokenResponse)
    ensures Restore(Mount(SignInAs(s, r).storage)).session == SignInAs(s, r)
  {
  }
}
