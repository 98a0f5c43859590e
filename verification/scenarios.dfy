/** Properties of the server and the client together: what a sequence of
    requests leads to. */
module Scenarios {
  import opened Common
  import opened Crypto
  import opened Server
  import opened App
  import opened SignIn
  import opened Dashboard

  /** After registering, the same email and password sign in as the user
      just created, at any later time. */
  lemma RegisterThenLogin(env: Env, db: Db, name: string, email: string, password: string,
                                             id: string, salt: string, now: int, later: int)
    requires Register(env, db, name, email, password, id, salt, now).0.Ok?
    ensures var (reg, db') := Register(env, db, name, email, password, id, salt, now);
      var r := Login(env, db', email, password, later);
      r.Ok? && r.value.user == reg.value.user && r.value.user.id == id
  {
    var doc := UserDoc(User(id, name, email, UserRole, now), HashPassword(password, salt));
    FindOneAppend(db.users, doc, ByEmail(email));
  }

  /** The token `register` returns identifies the new user until it
      expires, provided the drawn id is not already taken. */
  lemma RegisterTokenIdentifiesUser(env: Env, db: Db, name: string, email: string, password: string,
                                                       id: string, salt: string, now: int, later: int)
    requires Register(env, db, name, email, password, id, salt, now).0.Ok?
    requires forall i :: 0 <= i < |db.users| ==> db.users[i].profile.id != id
    requires later < now + env.jwt.expirationHours * 3600
    ensures var (reg, db') := Register(env, db, name, email, password, id, salt, now);
      GetCurrentUser(env, db', reg.value.accessToken, later) == Ok(reg.value.user)
  {
    var doc := UserDoc(User(id, name, email, UserRole, now), HashPassword(password, salt));
    FindOneAppend(db.users, doc, ById(id));
  }

  /** An ordinary user's token is refused the admin listing with 403;
      no token at all gets 401. */
  lemma UserTokenIsForbidden(env: Env, db: Db, name: string, email: string, password: string,
                                                id: string, salt: string, now: int, later: int, kind: MessageKind)
    requires Register(env, db, name, email, password, id, salt, now).0.Ok?
    requires forall i :: 0 <= i < |db.users| ==> db.users[i].profile.id != id
    requires later < now + env.jwt.expirationHours * 3600
    ensures var (reg, db') := Register(env, db, name, email, password, id, salt, now);
      && ListMessages(env, db', kind, Some(reg.value.accessToken), later) == Err(Forbidden)
      && ListMessages(env, db', kind, None, later).error.status == 401
  {
    RegisterTokenIdentifiesUser(env, db, name, email, password, id, salt, now, later);
  }

  /** After the startup re-seed the configured credentials sign in as the
      admin, and the admin's fresh token lists every stored message. This
      needs that no remaining user holds the admin email or the drawn id,
      since nothing enforces that. */
  lemma SeededAdminCanList(env: Env, db: Db, id: string, salt: string, now: int,
                                              later: int, kind: MessageKind)
    requires forall u :: u in NonAdmins(db.users) ==>
               u.profile.email != env.adminLoginEmail && u.profile.id != id
    requires env.jwt.expirationHours > 0
    ensures var db' := CreateAdmin(env, db, id, salt, now);
      var r := Login(env, db', env.adminLoginEmail, env.adminPassword, later);
      && r.Ok? && r.value.user.role == AdminRole && r.value.user.id == id
      && ListMessages(env, db', kind, Some(r.value.accessToken), later).Ok?
      && multiset(ListMessages(env, db', kind, Some(r.value.accessToken), later).value) ==
         multiset(Collection(db, kind))
  {
    var db' := CreateAdmin(env, db, id, salt, now);
    var rest := NonAdmins(db.users);
    var admin := db'.users[|db'.users| - 1];
    assert db'.users == rest + [admin];
    FindOneAppend(rest, admin, ByEmail(env.adminLoginEmail));
    FindOneAppend(rest, admin, ById(id));
  }

  /** Without a uniqueness invariant the seeded admin can be shadowed: when
      a user registered earlier holds the admin email, signing in with it
      never yields an admin, and the admin form lets nobody through. */
  lemma AdminEmailShadowed(env: Env, db: Db, id: string, salt: string, now: int,
                                              password: string, later: int, s: Session)
    requires exists u :: u in NonAdmins(db.users) && u.profile.email == env.adminLoginEmail
    ensures var db' := CreateAdmin(env, db, id, salt, now);
      var r := Login(env, db', env.adminLoginEmail, password, later);
      && (r.Ok? ==> r.value.user.role != AdminRole)
      && (r.Ok? ==> AdminLoginSubmit(s, Answered(r.value)) == Outcome(s, false, None))
  {
    var db' := CreateAdmin(env, db, id, salt, now);
    var rest := NonAdmins(db.users);
    var admin := db'.users[|db'.users| - 1];
    assert db'.users == rest + [admin];
    var u :| u in rest && u.profile.email == env.adminLoginEmail;
    var i :| 0 <= i < |rest| && rest[i] == u;
    assert Matches(rest[i], ByEmail(env.adminLoginEmail));
    FindOneAppend(rest, admin, ByEmail(env.adminLoginEmail));
    var found := FindOne(rest, ByEmail(env.adminLoginEmail));
    assert found.Some? && found.value in rest;
  }

  /** A message sent in shows up in the admin's listing of its kind, once
      more than before, and the other kind's listing is unchanged. */
  lemma SubmissionReachesAdmin(env: Env, db: Db, kind: MessageKind, s: Submission,
                                                  delivery: Delivery, token: Token, now: int)
    requires ListMessages(env, db, kind, Some(token), now).Ok?
    ensures var db' := Submit(env, db, kind, s, delivery).db;
      var before := ListMessages(env, db, kind, Some(token), now);
      var after := ListMessages(env, db', kind, Some(token), now);
      && after.Ok? && multiset(after.value) == multiset(before.value) + multiset{s}
      && forall other :: other != kind ==>
           ListMessages(env, db', other, Some(token), now).Ok? &&
           multiset(ListMessages(env, db', other, Some(token), now).value) ==
           multiset(ListMessages(env, db, other, Some(token), now).value)
  {
  }

  /** The login form sends an admin to the dashboard and the guard lets the
      admin in; anyone else is sent home, and the guard would send them home
      too. */
  lemma LoginReachesDashboardOnlyAsAdmin(env: Env, db: Db, email: string, password: string,
                                                            now: int, s: Session)
    requires Login(env, db, email, password, now).Ok?
    ensures var resp := Login(env, db, email, password, now).value;
      var o := LoginSubmit(s, Answered(resp));
      var a := AppState(o.session, false);
      && (resp.user.role == AdminRole ==>
            o.navigation == Some("/admin/dashboard") && Visit(a, "/admin/dashboard") == Render(AdminDashboardPage))
      && (resp.user.role != AdminRole ==>
            o.navigation == Some("/") && Visit(a, "/admin/dashboard") == Navigate("/"))
  {
    var resp := Login(env, db, email, password, now).value;
    var o := LoginSubmit(s, Answered(resp));
    RouteKeys();
    assert Canon(Routes[8].path) == "/admin/dashboard";
    VisitDashboard(AppState(o.session, false), "/admin/dashboard");
  }

  /** With an admin's token the dashboard loads both collections and its
      counts are the sizes of the stored collections. */
  lemma DashboardShowsDatabase(env: Env, db: Db, s: Session, token: Token, now: int)
    requires s.storage.token == Some(token)
    requires GetCurrentUser(env, db, token, now).Ok?
    requires GetCurrentUser(env, db, token, now).value.role == AdminRole
    ensures var fetch := Combine(ListMessages(env, db, Enquiry, Some(token), now),
                                 ListMessages(env, db, Feedback, Some(token), now));
      var step := FetchData(s, Initial, fetch);
      var v := RenderBoard(step.board);
      && step.session == s && step.navigation.None?
      && v.Loaded? && v.enquiryCount == |db.enquiries| && v.feedbackCount == |db.feedback|
  {
  }

  /** A stored token the server no longer accepts (expired, or naming a
      deleted user) signs the dashboard out and sends it home. */
  lemma StaleTokenSignsOut(env: Env, db: Db, s: Session, token: Token, now: int, b: Board)
    requires s.storage.token == Some(token)
    requires GetCurrentUser(env, db, token, now).Err?
    ensures var fetch := Combine(ListMessages(env, db, Enquiry, Some(token), now),
                                 ListMessages(env, db, Feedback, Some(token), now));
      var step := FetchData(s, b, fetch);
      && step.session == SignOut(s) && step.navigation == Some("/")
      && Restore(Mount(step.session.storage)).session.user.None?
  {
  }

  /** A signed-in non-admin who reaches the dashboard's fetch gets 403: the
      session is kept, nothing is listed, and loading ends. */
  lemma NonAdminFetchKeepsSession(env: Env, db: Db, s: Session, token: Token, now: int)
    requires s.storage.token == Some(token)
    requires GetCurrentUser(env, db, token, now).Ok?
    requires GetCurrentUser(env, db, token, now).value.role != AdminRole
    ensures var fetch := Combine(ListMessages(env, db, Enquiry, Some(token), now),
                                 ListMessages(env, db, Feedback, Some(token), now));
      var step := FetchData(s, Initial, fetch);
      && step.session == s && step.navigation.None?
      && RenderBoard(step.board) == Loaded(0, 0, EnquiriesTab, [])
  {
  }
}
