/** The FastAPI server's user store and message intake. The database is a
    value: the `users` collection in natural (insertion) order, and the two
    message collections. Each route is a function from the database and the
    request to the response (or the `HTTPException` it raises) and the new
    database. What the routes draw from the outside world (uuid4 ids,
    bcrypt salts, the clock, the e-mail provider's answer) comes in as
    parameters. */
module Server {
  import opened Common
  import opened Crypto
  import Linkify

  /** The `User` model: the public profile that responses carry. */
  datatype User = User(id: string, name: string, email: string, role: Role, createdAt: int)

  /** A document of `users`: the profile and its `password_hash`. */
  datatype UserDoc = UserDoc(profile: User, passwordHash: PasswordHash)

  /** `EnquiryCreate` and `FeedbackCreate`, which have the same four fields.
      They are stored exactly as submitted, with no id and no timestamp. */
  datatype Submission = Submission(name: string, email: string, subject: string, message: string)

  datatype Db = Db(users: seq<UserDoc>, enquiries: seq<Submission>, feedback: seq<Submission>)

  /** The settings the server reads from its environment. */
  datatype Env = Env(
    adminLoginEmail: string,
    adminPassword: string,
    adminEmail: string,
    senderEmail: string,
    jwt: JwtConfig)

  /** `TokenResponse`; `token_type` is always "bearer". */
  datatype TokenResponse = TokenResponse(accessToken: Token, tokenType: string, user: User)

  /** The name the seeded administrator gets. */
  const AdminName := "Teamacy Admin"

  // ---------------------------------------------------------------------
  // Queries on `users`

  /** A `find_one` filter: `{"email": e}` or `{"id": i}`. Both compare the
      whole string exactly. */
  datatype Key = ByEmail(email: string) | ById(id: string)

  predicate Matches(doc: UserDoc, key: Key)
  {
    match key
    case ByEmail(e) => doc.profile.email == e
    case ById(i) => doc.profile.id == i
  }

  /** `find_one`: the first matching document in natural order. */
  function FindOne(users: seq<UserDoc>, key: Key): (r: Option<UserDoc>)
    ensures r.None? <==> forall i :: 0 <= i < |users| ==> !Matches(users[i], key)
    ensures r.Some? ==> exists i :: 0 <= i < |users| && users[i] == r.value && Matches(r.value, key)
                                    && forall k :: 0 <= k < i ==> !Matches(users[k], key)
    decreases |users|
  {
    if users == [] then None
    else if Matches(users[0], key) then Some(users[0])
    else
      var r := FindOne(users[1..], key);
      assert forall k :: 1 <= k < |users| ==> users[k] == users[1..][k - 1];
      r
  }

  /** Appending a document leaves earlier answers as they were; it can only
      answer a query nothing matched before. */
  lemma {:induction false} FindOneAppend(users: seq<UserDoc>, doc: UserDoc, key: Key)
    ensures FindOne(users + [doc], key) ==
      if FindOne(users, key).Some? then FindOne(users, key)
      else if Matches(doc, key) then Some(doc) else None
    decreases |users|
  {
    if users != [] {
      assert (users + [doc])[1..] == users[1..] + [doc];
      FindOneAppend(users[1..], doc, key);
    } else {
      assert ([] + [doc])[1..] == [];
    }
  }

  // ---------------------------------------------------------------------
  // Authentication

  /** `register`. An email already on file, by exact comparison, is refused
      with 400 and nothing is written. Otherwise a user with the drawn `id`,
      role "user", the given name and email and a bcrypt hash of the
      password is appended, and a token for that user is issued. */
  function Register(env: Env, db: Db, name: string, email: string, password: string,
                    id: string, salt: string, now: int): (r: (Result<TokenResponse>, Db))
    ensures r.0.Err? <==> exists i :: 0 <= i < |db.users| && db.users[i].profile.email == email
    ensures r.0.Err? ==> r.0.error == HttpError(400, "Email already exists") && r.1 == db
    ensures r.0.Ok? ==>
      var user := r.0.value.user;
      && user == User(id, name, email, UserRole, now)
      && RoleName(user.role) == "user"
      && |r.1.users| == |db.users| + 1
      && r.1.users[..|db.users|] == db.users
      && r.1.users[|db.users|].profile == user
      && (forall p :: VerifyPassword(p, r.1.users[|db.users|].passwordHash) <==> p == password)
      && r.1.enquiries == db.enquiries && r.1.feedback == db.feedback
      && r.0.value.tokenType == "bearer"
      && r.0.value.accessToken == CreateAccessToken(env.jwt, user.id, user.role, now)
  {
    if FindOne(db.users, ByEmail(email)).Some? then
      (Err(HttpError(400, "Email already exists")), db)
    else
      var user := User(id, name, email, UserRole, now);
      var doc := UserDoc(user, HashPassword(password, salt));
      assert (db.users + [doc])[..|db.users|] == db.users;
      (Ok(TokenResponse(CreateAccessToken(env.jwt, user.id, user.role, now), "bearer", user)),
       db.(users := db.users + [doc]))
  }

  const InvalidCredentials := HttpError(401, "Invalid credentials")

  /** `login`: the first user with that email is looked up, and when its
      hash accepts the password that user gets a fresh token. An unknown
      email and a wrong password fail alike with 401 "Invalid credentials",
      even when a later user with the same email would accept it. */
  function Login(env: Env, db: Db, email: string, password: string, now: int): (r: Result<TokenResponse>)
    ensures r.Ok? <==>
      FindOne(db.users, ByEmail(email)).Some? &&
      VerifyPassword(password, FindOne(db.users, ByEmail(email)).value.passwordHash)
    ensures r.Err? ==> r.error == InvalidCredentials
    ensures r.Ok? ==>
      && r.value.user == FindOne(db.users, ByEmail(email)).value.profile
      && r.value.user.email == email
      && r.value.tokenType == "bearer"
      && r.value.accessToken == CreateAccessToken(env.jwt, r.value.user.id, r.value.user.role, now)
  {
    match FindOne(db.users, ByEmail(email))
    case None => Err(InvalidCredentials)
    case Some(doc) =>
      if !VerifyPassword(password, doc.passwordHash) then Err(InvalidCredentials)
      else
        var user := doc.profile;
        Ok(TokenResponse(CreateAccessToken(env.jwt, user.id, user.role, now), "bearer", user))
  }

  const UserNotFound := HttpError(401, "User not found")

  /** `get_current_user`: decode the bearer token, then look its `sub` up
      by id. */
  function GetCurrentUser(env: Env, db: Db, token: Token, now: int): (r: Result<User>)
    ensures DecodeToken(env.jwt, token, now).Err? ==> r == Err(InvalidToken)
    ensures DecodeToken(env.jwt, token, now).Ok? ==>
      var sub := DecodeToken(env.jwt, token, now).value.sub;
      && (r.Err? <==> forall i :: 0 <= i < |db.users| ==> db.users[i].profile.id != sub)
      && (r.Err? ==> r.error == UserNotFound)
      && (r.Ok? ==> r.value.id == sub && exists i :: 0 <= i < |db.users| && db.users[i].profile == r.value)
    ensures r.Err? ==> r.error.status == 401
  {
    match DecodeToken(env.jwt, token, now)
    case Err(e) => Err(e)
    case Ok(claims) =>
      match FindOne(db.users, ById(claims.sub))
      case None => Err(UserNotFound)
      case Some(doc) => Ok(doc.profile)
  }

  // ---------------------------------------------------------------------
  // Startup re-seed

  /** The documents that are not admins, in their order. */
  function NonAdmins(users: seq<UserDoc>): (r: seq<UserDoc>)
    ensures |r| <= |users|
    ensures forall i :: 0 <= i < |r| ==> r[i].profile.role != AdminRole
    ensures forall u :: u in r <==> u in users && u.profile.role != AdminRole
    decreases |users|
  {
    if users == [] then []
    else if users[0].profile.role == AdminRole then NonAdmins(users[1..])
    else [users[0]] + NonAdmins(users[1..])
  }

  /** Number of documents with role "admin". */
  function AdminCount(users: seq<UserDoc>): nat
    decreases |users|
  {
    if users == [] then 0
    else (if users[0].profile.role == AdminRole then 1 else 0) + AdminCount(users[1..])
  }

  lemma {:induction false} AdminCountNonAdmins(users: seq<UserDoc>)
    ensures AdminCount(NonAdmins(users)) == 0
    decreases |users|
  {
    if users != [] {
      AdminCountNonAdmins(users[1..]);
      var rest := NonAdmins(users[1..]);
      if users[0].profile.role != AdminRole {
        assert ([users[0]] + rest)[1..] == rest;
      }
    }
  }

  lemma {:induction false} AdminCountAppend(users: seq<UserDoc>, doc: UserDoc)
    ensures AdminCount(users + [doc]) == AdminCount(users) + (if doc.profile.role == AdminRole then 1 else 0)
    decreases |users|
  {
    if users == [] {
      assert ([] + [doc])[1..] == [];
    } else {
      assert (users + [doc])[1..] == users[1..] + [doc];
      AdminCountAppend(users[1..], doc);
    }
  }

  /** Removing the admins changes nothing when there are none. */
  lemma {:induction false} NonAdminsOfNoAdmins(users: seq<UserDoc>)
    requires forall i :: 0 <= i < |users| ==> users[i].profile.role != AdminRole
    ensures NonAdmins(users) == users
    decreases |users|
  {
    if users != [] {
      NonAdminsOfNoAdmins(users[1..]);
    }
  }

  /** `create_admin`: delete every admin, then insert one admin named
      "Teamacy Admin" with ADMIN_LOGIN_EMAIL and a hash of ADMIN_PASSWORD.
      Emails are not checked, so a non-admin may already hold that email. */
  function CreateAdmin(env: Env, db: Db, id: string, salt: string, now: int): (r: Db)
    ensures AdminCount(r.users) == 1
    ensures |r.users| > 0
    ensures var admin := r.users[|r.users| - 1];
      && admin.profile == User(id, AdminName, env.adminLoginEmail, AdminRole, now)
      && RoleName(admin.profile.role) == "admin"
      && (forall p :: VerifyPassword(p, admin.passwordHash) <==> p == env.adminPassword)
    ensures r.users[..|r.users| - 1] == NonAdmins(db.users)
    ensures r.enquiries == db.enquiries && r.feedback == db.feedback
  {
    var doc := UserDoc(User(id, AdminName, env.adminLoginEmail, AdminRole, now),
                       HashPassword(env.adminPassword, salt));
    var users := NonAdmins(db.users) + [doc];
    AdminCountNonAdmins(db.users);
    AdminCountAppend(NonAdmins(db.users), doc);
    assert users[..|users| - 1] == NonAdmins(db.users);
    db.(users := users)
  }

  /** Re-seeding twice keeps the same non-admins: only the admin document is
      replaced. */
  lemma ReseedKeepsNonAdmins(env: Env, db: Db, id1: string, salt1: string, now1: int,
                                                id2: string, salt2: string, now2: int)
    ensures var once := CreateAdmin(env, db, id1, salt1, now1);
      var twice := CreateAdmin(env, once, id2, salt2, now2);
      NonAdmins(twice.users) == NonAdmins(once.users) == NonAdmins(db.users)
  {
    var once := CreateAdmin(env, db, id1, salt1, now1);
    var twice := CreateAdmin(env, once, id2, salt2, now2);
    NonAdminsOfNoAdmins(NonAdmins(db.users));
    NonAdminsAppendAdmin(NonAdmins(db.users), once.users[|once.users| - 1]);
    assert once.users == NonAdmins(db.users) + [once.users[|once.users| - 1]];
    NonAdminsOfNoAdmins(NonAdmins(once.users));
    NonAdminsAppendAdmin(NonAdmins(once.users), twice.users[|twice.users| - 1]);
    assert twice.users == NonAdmins(once.users) + [twice.users[|twice.users| - 1]];
  }

  lemma {:induction false} NonAdminsAppendAdmin(users: seq<UserDoc>, doc: UserDoc)
    requires doc.profile.role == AdminRole
    ensures NonAdmins(users + [doc]) == NonAdmins(users)
    decreases |users|
  {
    if users == [] {
      assert ([] + [doc])[1..] == [];
    } else {
      assert (users + [doc])[1..] == users[1..] + [doc];
      NonAdminsAppendAdmin(users[1..], doc);
    }
  }

  // ---------------------------------------------------------------------
  // Message intake

  /** The two subject lines of the notification e-mail. */
  function MailSubject(kind: MessageKind): string
  {
    match kind
    case Enquiry => "New Enquiry \U{2013} Teamacy"
    case Feedback => "New Feedback \U{2013} Teamacy"
  }

  /** The notification `send_email_to_admin` hands to the e-mail provider. */
  datatype AdminMail = AdminMail(from: string, to: seq<string>, subject: string, html: string)

  /** What closes the notification's body, after the message paragraph. */
  const MailTail := "</p>\n    "

  /** The body of the notification. Name, email and subject are inserted as
      they are; only the message goes through `make_links_clickable`. */
  function MailHtml(subject: string, s: Submission): (html: string)
    ensures "\n    <h2>" + subject + "</h2>" <= html
    ensures var m := Linkify.MakeLinksClickableHtml(s.message);
      |m| + |MailTail| <= |html| && html[|html| - |MailTail| - |m|..|html| - |MailTail|] == m
    ensures Linkify.NoUrl(Linkify.Python, s.message) ==>
      |s.message| + |MailTail| <= |html|
      && html[|html| - |MailTail| - |s.message|..|html| - |MailTail|] == s.message
  {
    var heading := "\n    <h2>" + subject + "</h2>";
    var fields := "\n    <p><b>Name:</b> " + s.name
      + "</p>\n    <p><b>Email:</b> " + s.email
      + "</p>\n    <p><b>Subject:</b> " + s.subject
      + "</p>\n    <p>";
    var m := Linkify.MakeLinksClickableHtml(s.message);
    Framed(heading, fields, m, MailTail);
    heading + fields + m + MailTail
  }

  /** Text framed by a heading, fields and a tail starts with the heading and
      carries the framed text just before the tail. */
  lemma Framed(heading: string, fields: string, m: string, tail: string)
    ensures var html := heading + fields + m + tail;
      heading <= html
      && html[|html| - |tail| - |m|..|html| - |tail|] == m
  {
    var html := heading + fields + m + tail;
    assert html == heading + (fields + m + tail);
    assert html[..|html| - |tail|] == heading + fields + m;
  }

  /** What the e-mail provider did with the notification. */
  datatype Delivery = Sent(response: string) | Failed(reason: string)

  /** What `send_email_to_admin` logs; a failure is caught and logged. */
  datatype LogLine = Info(text: string) | Error(text: string)

  /** The result of a submission route: its JSON body `{"status": ...}`,
      the new database, the notification and the log line. */
  datatype Intake = Intake(status: string, db: Db, mail: AdminMail, log: LogLine)

  function Collection(db: Db, kind: MessageKind): seq<Submission>
  {
    match kind
    case Enquiry => db.enquiries
    case Feedback => db.feedback
  }

  /** `enquiry` and `feedback`: store the submission in its own collection,
      notify the business inbox, and answer "ok" whatever the e-mail
      provider did. */
  function Submit(env: Env, db: Db, kind: MessageKind, s: Submission, delivery: Delivery): (r: Intake)
    ensures r.status == "ok"
    ensures Collection(r.db, kind) == Collection(db, kind) + [s]
    ensures forall other :: other != kind ==> Collection(r.db, other) == Collection(db, other)
    ensures r.db.users == db.users
    ensures r.mail.to == [env.adminEmail] && r.mail.from == env.senderEmail
    ensures r.mail.subject == MailSubject(kind)
    ensures r.mail.html == MailHtml(MailSubject(kind), s)
    ensures r.log.Error? <==> delivery.Failed?
  {
    var db' := match kind
      case Enquiry => db.(enquiries := db.enquiries + [s])
      case Feedback => db.(feedback := db.feedback + [s]);
    var subject := MailSubject(kind);
    var mail := AdminMail(env.senderEmail, [env.adminEmail], subject, MailHtml(subject, s));
    var log := match delivery
      case Sent(response) => Info("Email sent: " + response)
      case Failed(reason) => Error("Email failed: " + reason);
    Intake("ok", db', mail, log)
  }

  /** The answer does not depend on the e-mail provider: two deliveries give
      the same status and the same database. */
  lemma IntakeIgnoresDelivery(env: Env, db: Db, kind: MessageKind, s: Submission, a: Delivery, b: Delivery)
    ensures Submit(env, db, kind, s, a).status == Submit(env, db, kind, s, b).status
    ensures Submit(env, db, kind, s, a).db == Submit(env, db, kind, s, b).db
    ensures Submit(env, db, kind, s, a).mail == Submit(env, db, kind, s, b).mail
  {
  }

  // ---------------------------------------------------------------------
  // Admin listing (GET /enquiries, GET /feedback)

  /** `HTTPBearer` with no Authorization header. */
  const NotAuthenticated := HttpError(401, "Not authenticated")

  /** A signed-in user who is not an admin. */
  const Forbidden := HttpError(403, "")

  /** The guard of the admin listing routes, whose handlers are not part of
      the server source: no credentials or an unusable token answer 401, a
      user who is not an admin 403, an admin every stored message of the
      kind. The stored order is returned, but nothing promises an order, so
      the contract speaks of the contents only. */
  function ListMessages(env: Env, db: Db, kind: MessageKind, bearer: Option<Token>, now: int): (r: Result<seq<Submission>>)
    ensures bearer.None? ==> r == Err(NotAuthenticated)
    ensures bearer.Some? ==>
      var who := GetCurrentUser(env, db, bearer.value, now);
      && (who.Err? ==> r == Err(who.error))
      && (who.Ok? && who.value.role != AdminRole ==> r == Err(Forbidden))
      && (who.Ok? && who.value.role == AdminRole ==>
            r.Ok? && multiset(r.value) == multiset(Collection(db, kind)))
    ensures r.Err? ==> r.error.status == 401 || r.error.status == 403
  {
    match bearer
    case None => Err(NotAuthenticated)
    case Some(token) =>
      match GetCurrentUser(env, db, token, now)
      case Err(e) => Err(e)
      case Ok(user) => if user.role == AdminRole then Ok(Collection(db, kind)) else Err(Forbidden)
  }
}
