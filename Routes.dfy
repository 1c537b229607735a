/**
 * The request handlers of server/routes.ts, as methods over the store model.
 *
 * Each handler returns the status code and body it sends. The store methods
 * the handlers call but `MemStorage` does not define (`updateScheme`,
 * `deleteScheme`, `updateSosAlert`, `updateUserAadhaarStatus`) are returned as
 * `StoreCall` records, and what each such call resolved with is an input.
 * Token verification, password hashing and comparison, the clock and the
 * provider's replies are inputs too.
 */
module Routes {
  import opened Wrappers
  import opened Text
  import opened Seqs
  import opened Schema
  import opened Storage
  import opened Aadhaar

  /** A user as sent to the client: every field except the password. */
  datatype PublicUser = PublicUser(id: int, name: string, email: string, serviceNumber: Option<string>,
                                   role: string, createdAt: Time)

  datatype DashboardStats = DashboardStats(activeApplications: nat, approved: nat, pending: nat, grievances: nat)

  datatype Body =
    | Message(message: string)
    | UserBody(user: PublicUser)
    | SchemeBody(scheme: Scheme)
    | SchemeList(schemes: seq<Scheme>)
    | ApplicationBody(application: Application)
    | GrievanceBody(grievance: Grievance)
    | GrievanceList(grievances: seq<Grievance>)
    | SosCreated(note: string, alert: SosAlert)
    | SosAlertBody(sosAlert: SosAlert)
    | SosAlertList(alerts: seq<SosAlert>)
    | StatsBody(stats: DashboardStats)
    | VerificationBody(response: VerificationResponse)

  datatype HttpResponse = HttpResponse(status: int, body: Body)

  /** The identity `authenticateToken` attaches to the request. */
  datatype Caller = Caller(id: int, role: string)

  /** The payload of a verified token. */
  datatype Claims = Claims(id: int, role: string)

  datatype AuthResult = Authenticated(caller: Caller) | Rejected(response: HttpResponse)

  /** A call to a store method that `MemStorage` does not define. */
  datatype StoreCall =
    | UpdateScheme(schemeId: int, patch: string, updatedBy: int)
    | DeleteScheme(deletedId: int)
    | UpdateSosAlert(alertId: int, acknowledgedAt: Time, acknowledgedBy: int)
    | UpdateUserAadhaarStatus(userId: int, aadhaarNumber: string, verified: bool)

  /** What such a call did: resolved with a value (`None` for a falsy one), or rejected with an error message. */
  datatype StoreReply<T> = Resolved(value: Option<T>) | Failed(message: string)

  /** What a library call that may throw settled with: its value, or the thrown error's message. */
  datatype Settled<T> = Ok(value: T) | Threw(message: string)

  const MSG_FORBIDDEN := "Insufficient permissions"

  function ToPublic(u: User): (p: PublicUser)
    ensures p.id == u.id && p.email == u.email && p.role == u.role
  {
    PublicUser(u.id, u.name, u.email, u.serviceNumber, u.role, u.createdAt)
  }

  predicate IsAdmin(caller: Caller) {
    caller.role == ROLE_ADMIN
  }

  // ----- authentication -----

  /** `authHeader && authHeader.split(' ')[1]`, as the token it yields (if truthy). */
  function HeaderToken(header: Option<string>): Option<string> {
    if Truthy(header) && |Split(header.value, ' ')| >= 2 && Split(header.value, ' ')[1] != ""
    then Some(Split(header.value, ' ')[1])
    else None
  }

  /**
   * The token of a request: the second space-separated word of the
   * Authorization header, or the `token` cookie when that word is missing or
   * empty; `None` when neither yields a non-empty string.
   */
  function ExtractToken(header: Option<string>, cookie: Option<string>): (r: Option<string>)
    ensures r.Some? ==> r.value != ""
    ensures HeaderToken(header).Some? ==> r == HeaderToken(header)
    ensures HeaderToken(header).None? ==> (r.Some? <==> Truthy(cookie)) && (r.Some? ==> r == cookie)
  {
    if HeaderToken(header).Some? then HeaderToken(header)
    else if Truthy(cookie) then cookie
    else None
  }

  /** A `Bearer <token>` header yields the token, whatever the cookie holds. */
  lemma BearerHeaderToken(token: string, cookie: Option<string>)
    requires token != "" && ' ' !in token
    ensures ExtractToken(Some("Bearer " + token), cookie) == Some(token)
  {
    SplitJoin(["Bearer", token], ' ');
    assert Join(["Bearer", token], ' ') == "Bearer " + token;
  }

  /** Without an Authorization header the cookie is the token. */
  lemma CookieToken(token: string)
    requires token != ""
    ensures ExtractToken(None, Some(token)) == Some(token)
  {
  }

  /**
   * `authenticateToken`: 401 without a token, 403 when the token does not
   * verify, 401 when its user no longer exists; otherwise the caller is the
   * stored user, with the stored role rather than the role in the token.
   */
  function Authenticate(store: MemStorage, header: Option<string>, cookie: Option<string>,
                        verify: string -> Option<Claims>): (r: AuthResult)
    requires store.Valid()
    reads store
    ensures ExtractToken(header, cookie).None? ==>
              r == Rejected(HttpResponse(401, Message("Access token required")))
    ensures ExtractToken(header, cookie).Some? && verify(ExtractToken(header, cookie).value).None? ==>
              r == Rejected(HttpResponse(403, Message("Invalid token")))
    ensures ExtractToken(header, cookie).Some? && verify(ExtractToken(header, cookie).value).Some?
            && verify(ExtractToken(header, cookie).value).value.id !in store.users ==>
              r == Rejected(HttpResponse(401, Message("Invalid token")))
    ensures ExtractToken(header, cookie).Some? && verify(ExtractToken(header, cookie).value).Some?
            && verify(ExtractToken(header, cookie).value).value.id in store.users ==>
              var id := verify(ExtractToken(header, cookie).value).value.id;
              r == Authenticated(Caller(id, store.users[id].role))
    ensures r.Authenticated? ==>
              && ExtractToken(header, cookie).Some?
              && verify(ExtractToken(header, cookie).value) == Some(Claims(r.caller.id, verify(ExtractToken(header, cookie).value).value.role))
              && r.caller.id in store.users && r.caller.role == store.users[r.caller.id].role
  {
    match ExtractToken(header, cookie)
    case None => Rejected(HttpResponse(401, Message("Access token required")))
    case Some(token) =>
      match verify(token)
      case None => Rejected(HttpResponse(403, Message("Invalid token")))
      case Some(claims) =>
        match store.GetUser(claims.id)
        case None => Rejected(HttpResponse(401, Message("Invalid token")))
        case Some(user) => Authenticated(Caller(user.id, user.role))
  }

  // ----- registration and login -----

  predicate EmailTaken(users: map<int, User>, email: string) {
    exists k :: k in users && users[k].email == email
  }

  predicate ServiceNumberTaken(users: map<int, User>, serviceNumber: Option<string>) {
    exists k :: k in users && users[k].serviceNumber == serviceNumber
  }

  /** No two users share an email. */
  ghost predicate UniqueEmails(users: map<int, User>) {
    forall i, j :: i in users && j in users && users[i].email == users[j].email ==> i == j
  }

  /** No two users share a service number (nor both lack one). */
  ghost predicate UniqueServiceNumbers(users: map<int, User>) {
    forall i, j :: i in users && j in users && users[i].serviceNumber == users[j].serviceNumber ==> i == j
  }

  /**
   * `POST /api/auth/register`: a taken email is refused first, then a taken
   * service number, both with 400 and no change; then the password is
   * hashed, and a hash that throws (a body without a password) is 400 with
   * its message and no change; otherwise a "soldier" is created with the
   * hashed password and returned without it. Registration therefore keeps
   * emails and service numbers unique.
   */
  method Register(store: MemStorage, name: string, email: string, serviceNumber: Option<string>,
                  hashedPassword: Settled<string>, now: Time)
    returns (resp: HttpResponse)
    requires store.Valid()
    modifies store`users, store`currentUserId
    ensures store.Valid()
    ensures EmailTaken(old(store.users), email) ==>
              resp == HttpResponse(400, Message("Email already registered"))
              && store.users == old(store.users) && store.currentUserId == old(store.currentUserId)
    ensures !EmailTaken(old(store.users), email) && ServiceNumberTaken(old(store.users), serviceNumber) ==>
              resp == HttpResponse(400, Message("Service number already registered"))
              && store.users == old(store.users) && store.currentUserId == old(store.currentUserId)
    ensures !EmailTaken(old(store.users), email) && !ServiceNumberTaken(old(store.users), serviceNumber)
            && hashedPassword.Threw? ==>
              resp == HttpResponse(400, Message(hashedPassword.message))
              && store.users == old(store.users) && store.currentUserId == old(store.currentUserId)
    ensures !EmailTaken(old(store.users), email) && !ServiceNumberTaken(old(store.users), serviceNumber)
            && hashedPassword.Ok? ==>
              var u := User(old(store.currentUserId), name, email, hashedPassword.value, serviceNumber, ROLE_SOLDIER, now);
              && resp == HttpResponse(201, UserBody(ToPublic(u)))
              && store.users == old(store.users)[u.id := u]
    ensures UniqueEmails(old(store.users)) ==> UniqueEmails(store.users)
    ensures UniqueServiceNumbers(old(store.users)) ==> UniqueServiceNumbers(store.users)
  {
    var existingUser := store.GetUserByEmail(email);
    if existingUser.Some? {
      return HttpResponse(400, Message("Email already registered"));
    }
    var existingServiceNumber := store.GetUserByServiceNumber(serviceNumber);
    if existingServiceNumber.Some? {
      return HttpResponse(400, Message("Service number already registered"));
    }
    if hashedPassword.Threw? {
      return HttpResponse(400, Message(hashedPassword.message));
    }
    var user := store.CreateUser(NewUser(name, email, hashedPassword.value, serviceNumber, ROLE_SOLDIER), now);
    resp := HttpResponse(201, UserBody(ToPublic(user)));
  }

  /**
   * `POST /api/auth/login`: 401 "Invalid credentials" unless the first user
   * with this email has a password the comparison accepts; then 200 with
   * that user, without the password; a comparison that throws (a body
   * without a password) is 400 with its message. With unique emails, login
   * succeeds exactly when some user has this email and an accepted password.
   */
  method Login(store: MemStorage, email: string, password: string, compare: (string, string) -> Settled<bool>)
    returns (resp: HttpResponse)
    requires store.Valid()
    ensures || resp.status == 200
            || resp == HttpResponse(401, Message("Invalid credentials"))
            || (resp.status == 400 && resp.body.Message?)
    ensures !EmailTaken(store.users, email) ==> resp == HttpResponse(401, Message("Invalid credentials"))
    ensures resp.status == 200 ==>
              && resp.body.UserBody?
              && resp.body.user.id in store.users
              && resp.body.user == ToPublic(store.users[resp.body.user.id])
              && store.users[resp.body.user.id].email == email
              && compare(password, store.users[resp.body.user.id].password) == Ok(true)
    ensures resp.status == 400 ==>
              exists k :: k in store.users && store.users[k].email == email
                          && compare(password, store.users[k].password) == Threw(resp.body.message)
    ensures UniqueEmails(store.users) ==>
              (resp.status == 200 <==>
                 exists k :: k in store.users && store.users[k].email == email
                             && compare(password, store.users[k].password) == Ok(true))
  {
    var user := store.GetUserByEmail(email);
    if user.None? {
      return HttpResponse(401, Message("Invalid credentials"));
    }
    var validPassword := compare(password, user.value.password);
    if validPassword.Threw? {
      return HttpResponse(400, Message(validPassword.message));
    }
    if !validPassword.value {
      return HttpResponse(401, Message("Invalid credentials"));
    }
    resp := HttpResponse(200, UserBody(ToPublic(user.value)));
  }

  /** `GET /api/auth/me`: the caller's own record without the password, or 404. */
  function Me(store: MemStorage, caller: Caller): (resp: HttpResponse)
    requires store.Valid()
    reads store
    ensures caller.id !in store.users <==> resp == HttpResponse(404, Message("User not found"))
    ensures caller.id in store.users ==> resp == HttpResponse(200, UserBody(ToPublic(store.users[caller.id])))
                                         && resp.body.user.id == caller.id
  {
    match store.GetUser(caller.id)
    case None => HttpResponse(404, Message("User not found"))
    case Some(user) => HttpResponse(200, UserBody(ToPublic(user)))
  }

  // ----- schemes (admin only) -----

  /**
   * A query parameter as the query parser hands it over: absent, one string,
   * an array for a repeated parameter, or an object for a bracketed one.
   */
  datatype QueryValue = QueryAbsent | QueryText(text: string) | QueryArray(items: seq<string>) | QueryObject

  /** `req.query.tags ? (req.query.tags as string).split(",") : undefined` runs without throwing. */
  predicate TagsSplittable(tags: QueryValue) {
    tags.QueryAbsent? || tags.QueryText?
  }

  /**
   * `GET /api/schemes`: the query's filters are passed to
   * `getSchemes(filters)`, but the store's `getSchemes` takes no argument, so
   * every request whose `tags` is absent or a single string gets exactly the
   * active schemes, in insertion order. A repeated or bracketed `tags` has
   * no `split`, and the thrown error is answered with 500.
   */
  method ListSchemes(store: MemStorage, tags: QueryValue) returns (resp: HttpResponse)
    requires store.Valid()
    ensures !TagsSplittable(tags) <==> resp == HttpResponse(500, Message("Failed to get schemes"))
    ensures TagsSplittable(tags) ==> resp.status == 200 && resp.body.SchemeList?
    ensures TagsSplittable(tags) ==>
              resp.body.schemes == Filter(IsActiveScheme, Rows(store.schemes, store.currentSchemeId))
    ensures TagsSplittable(tags) ==>
              forall s :: s in resp.body.schemes <==> s.id in store.schemes && store.schemes[s.id] == s && IsActiveScheme(s)
  {
    if !TagsSplittable(tags) {
      return HttpResponse(500, Message("Failed to get schemes"));
    }
    var schemes := store.GetSchemes();
    resp := HttpResponse(200, SchemeList(schemes));
  }

  /** `POST /api/schemes`: admins create the scheme (201); anyone else gets 403 and nothing changes. */
  method CreateSchemeRoute(store: MemStorage, caller: Caller, body: NewScheme, now: Time)
    returns (resp: HttpResponse)
    requires store.Valid()
    modifies store`schemes, store`currentSchemeId
    ensures store.Valid()
    ensures !IsAdmin(caller) ==>
              resp == HttpResponse(403, Message(MSG_FORBIDDEN))
              && store.schemes == old(store.schemes) && store.currentSchemeId == old(store.currentSchemeId)
    ensures IsAdmin(caller) ==>
              var s := Scheme(old(store.currentSchemeId), body, now);
              resp == HttpResponse(201, SchemeBody(s)) && store.schemes == old(store.schemes)[s.id := s]
  {
    if !IsAdmin(caller) {
      return HttpResponse(403, Message(MSG_FORBIDDEN));
    }
    var scheme := store.CreateScheme(body, now);
    resp := HttpResponse(201, SchemeBody(scheme));
  }

  /**
   * `PATCH /api/schemes/:id`: a non-admin gets 403 and no store call; an
   * admin's patch goes to `updateScheme` with the admin as editor, and a
   * falsy result is 404.
   */
  function UpdateSchemeRoute(caller: Caller, id: int, patch: string, reply: StoreReply<Scheme>)
    : (r: (HttpResponse, seq<StoreCall>))
    ensures !IsAdmin(caller) ==> r == (HttpResponse(403, Message(MSG_FORBIDDEN)), [])
    ensures IsAdmin(caller) ==> r.1 == [UpdateScheme(id, patch, caller.id)]
    ensures IsAdmin(caller) && reply == Resolved(None) ==> r.0 == HttpResponse(404, Message("Scheme not found"))
    ensures IsAdmin(caller) && reply.Resolved? && reply.value.Some? ==> r.0 == HttpResponse(200, SchemeBody(reply.value.value))
    ensures IsAdmin(caller) && reply.Failed? ==> r.0 == HttpResponse(400, Message("Failed to update scheme"))
  {
    if !IsAdmin(caller) then (HttpResponse(403, Message(MSG_FORBIDDEN)), [])
    else
      var calls := [UpdateScheme(id, patch, caller.id)];
      match reply
      case Failed(_) => (HttpResponse(400, Message("Failed to update scheme")), calls)
      case Resolved(None) => (HttpResponse(404, Message("Scheme not found")), calls)
      case Resolved(Some(s)) => (HttpResponse(200, SchemeBody(s)), calls)
  }

  /**
   * `DELETE /api/schemes/:id`: 403 and no store call for a non-admin; 404 when
   * `deleteScheme` reports no success, 400 when it throws. `MemStorage` has no
   * `deleteScheme`, so with the shipped store the call always throws.
   */
  function DeleteSchemeRoute(caller: Caller, id: int, reply: StoreReply<()>): (r: (HttpResponse, seq<StoreCall>))
    ensures !IsAdmin(caller) ==> r == (HttpResponse(403, Message(MSG_FORBIDDEN)), [])
    ensures IsAdmin(caller) ==> r.1 == [DeleteScheme(id)]
    ensures IsAdmin(caller) ==> (r.0.status == 200 <==> reply.Resolved? && reply.value.Some?)
    ensures IsAdmin(caller) && reply == Resolved(None) ==> r.0 == HttpResponse(404, Message("Scheme not found"))
    ensures IsAdmin(caller) && reply.Resolved? && reply.value.Some? ==>
              r.0 == HttpResponse(200, Message("Scheme deleted successfully"))
    ensures IsAdmin(caller) && reply.Failed? ==> r.0 == HttpResponse(400, Message("Failed to delete scheme"))
  {
    if !IsAdmin(caller) then (HttpResponse(403, Message(MSG_FORBIDDEN)), [])
    else
      var calls := [DeleteScheme(id)];
      match reply
      case Failed(_) => (HttpResponse(400, Message("Failed to delete scheme")), calls)
      case Resolved(None) => (HttpResponse(404, Message("Scheme not found")), calls)
      case Resolved(Some(_)) => (HttpResponse(200, Message("Scheme deleted successfully")), calls)
  }

  // ----- applications -----

  /** The fields `insertApplicationSchema.parse` keeps from the request body. */
  datatype ApplicationForm = ApplicationForm(schemeId: int, status: Option<string>)

  /**
   * `POST /api/applications`: the application is filed under the caller
   * whatever the body says; a body the schema rejects is 400 and an unknown
   * scheme 404, both without change.
   */
  method CreateApplicationRoute(store: MemStorage, caller: Caller, form: Option<ApplicationForm>, now: Time)
    returns (resp: HttpResponse)
    requires store.Valid()
    modifies store`applications, store`currentApplicationId
    ensures store.Valid()
    ensures (form.None? || form.value.schemeId !in store.schemes) ==>
              store.applications == old(store.applications)
              && store.currentApplicationId == old(store.currentApplicationId)
    ensures form.None? ==> resp == HttpResponse(400, Message("Failed to create application"))
    ensures form.Some? && form.value.schemeId !in store.schemes ==> resp == HttpResponse(404, Message("Scheme not found"))
    ensures form.Some? && form.value.schemeId in store.schemes ==>
              var a := Application(old(store.currentApplicationId), caller.id, form.value.schemeId,
                                   form.value.status, now, None, None, None);
              resp == HttpResponse(201, ApplicationBody(a)) && store.applications == old(store.applications)[a.id := a]
  {
    if form.None? {
      return HttpResponse(400, Message("Failed to create application"));
    }
    var data := NewApplication(caller.id, form.value.schemeId, form.value.status);
    if store.GetScheme(data.schemeId).None? {
      return HttpResponse(404, Message("Scheme not found"));
    }
    var application := store.CreateApplication(data, now);
    resp := HttpResponse(201, ApplicationBody(application));
  }

  // ----- grievances -----

  /** `GET /api/grievances`: every grievance for an admin, only the caller's own for anyone else. */
  method ListGrievances(store: MemStorage, caller: Caller) returns (resp: HttpResponse)
    requires store.Valid()
    ensures resp.status == 200 && resp.body.GrievanceList?
    ensures IsAdmin(caller) ==> resp.body.grievances == Rows(store.grievances, store.currentGrievanceId)
    ensures !IsAdmin(caller) ==>
              resp.body.grievances == Filter(FiledBy(caller.id), Rows(store.grievances, store.currentGrievanceId))
    ensures !IsAdmin(caller) ==> forall g :: g in resp.body.grievances ==> g.userId == caller.id
  {
    var grievances: seq<Grievance>;
    if IsAdmin(caller) {
      grievances := store.GetAllGrievances();
    } else {
      grievances := store.GetGrievancesByUser(caller.id);
    }
    resp := HttpResponse(200, GrievanceList(grievances));
  }

  /** The fields `insertGrievanceSchema.parse` keeps from the request body. */
  datatype GrievanceForm = GrievanceForm(category: string, subject: string, description: string,
                                         priority: string, status: Option<string>)

  /** `POST /api/grievances`: filed under the caller; a body the schema rejects is 400 without change. */
  method CreateGrievanceRoute(store: MemStorage, caller: Caller, form: Option<GrievanceForm>, now: Time)
    returns (resp: HttpResponse)
    requires store.Valid()
    modifies store`grievances, store`currentGrievanceId
    ensures store.Valid()
    ensures form.None? ==>
              resp == HttpResponse(400, Message("Failed to create grievance"))
              && store.grievances == old(store.grievances) && store.currentGrievanceId == old(store.currentGrievanceId)
    ensures form.Some? ==>
              var f := form.value;
              var g := Grievance(old(store.currentGrievanceId), caller.id, f.category, f.subject, f.description,
                                 f.priority, f.status, now, None, None, None);
              resp == HttpResponse(201, GrievanceBody(g)) && store.grievances == old(store.grievances)[g.id := g]
  {
    if form.None? {
      return HttpResponse(400, Message("Failed to create grievance"));
    }
    var f := form.value;
    var grievance := store.CreateGrievance(NewGrievance(caller.id, f.category, f.subject, f.description,
                                                        f.priority, f.status), now);
    resp := HttpResponse(201, GrievanceBody(grievance));
  }

  /**
   * `PATCH /api/grievances/:id`: admins set the status and resolution, with
   * themselves as resolver; anyone else gets 403 and nothing changes; an
   * unknown id is 404.
   */
  method UpdateGrievanceRoute(store: MemStorage, caller: Caller, id: int, status: Option<string>,
                              resolution: Option<string>, now: Time)
    returns (resp: HttpResponse)
    requires store.Valid()
    modifies store`grievances
    ensures store.Valid()
    ensures !IsAdmin(caller) ==>
              resp == HttpResponse(403, Message(MSG_FORBIDDEN)) && store.grievances == old(store.grievances)
    ensures IsAdmin(caller) && id !in old(store.grievances) ==>
              resp == HttpResponse(404, Message("Grievance not found")) && store.grievances == old(store.grievances)
    ensures IsAdmin(caller) && id in old(store.grievances) ==>
              var g := old(store.grievances)[id].(status := status,
                          resolvedAt := if status == Some(GRIEVANCE_RESOLVED) then Some(now) else None,
                          resolvedBy := NumberOrNull(Some(caller.id)), resolution := TextOrNull(resolution));
              resp == HttpResponse(200, GrievanceBody(g)) && store.grievances == old(store.grievances)[id := g]
  {
    if !IsAdmin(caller) {
      return HttpResponse(403, Message(MSG_FORBIDDEN));
    }
    var grievance := store.UpdateGrievanceStatus(id, status, Some(caller.id), resolution, now);
    if grievance.None? {
      return HttpResponse(404, Message("Grievance not found"));
    }
    resp := HttpResponse(200, GrievanceBody(grievance.value));
  }

  // ----- SOS alerts -----

  /** The fields `insertSosAlertSchema.parse` keeps from the request body. */
  datatype SosForm = SosForm(emergencyType: string, message: Option<string>)

  /** `POST /api/sos`: raises an alert under the caller (201); a body the schema rejects is 400 without change. */
  method CreateSosRoute(store: MemStorage, caller: Caller, form: Option<SosForm>, now: Time)
    returns (resp: HttpResponse)
    requires store.Valid()
    modifies store`sosAlerts, store`currentSosAlertId
    ensures store.Valid()
    ensures form.None? ==>
              resp == HttpResponse(400, Message("Failed to send SOS alert"))
              && store.sosAlerts == old(store.sosAlerts) && store.currentSosAlertId == old(store.currentSosAlertId)
    ensures form.Some? ==>
              var a := SosAlert(old(store.currentSosAlertId), caller.id, form.value.emergencyType,
                                form.value.message, now, None, None);
              resp == HttpResponse(201, SosCreated("SOS alert sent successfully", a))
              && store.sosAlerts == old(store.sosAlerts)[a.id := a]
  {
    if form.None? {
      return HttpResponse(400, Message("Failed to send SOS alert"));
    }
    var alert := store.CreateSosAlert(NewSosAlert(caller.id, form.value.emergencyType, form.value.message), now);
    resp := HttpResponse(201, SosCreated("SOS alert sent successfully", alert));
  }

  /** `GET /api/sos`: every alert for an admin, 403 for anyone else. */
  method ListSosAlerts(store: MemStorage, caller: Caller) returns (resp: HttpResponse)
    requires store.Valid()
    ensures !IsAdmin(caller) <==> resp == HttpResponse(403, Message(MSG_FORBIDDEN))
    ensures IsAdmin(caller) ==> resp == HttpResponse(200, SosAlertList(Rows(store.sosAlerts, store.currentSosAlertId)))
  {
    if !IsAdmin(caller) {
      return HttpResponse(403, Message(MSG_FORBIDDEN));
    }
    var alerts := store.GetSosAlerts();
    resp := HttpResponse(200, SosAlertList(alerts));
  }

  /**
   * `PATCH /api/sos/:id/acknowledge`: a non-admin gets 403 and no store call;
   * an admin's acknowledgement is stamped with the time and the admin's id,
   * and a falsy result is 404.
   */
  function AcknowledgeSosRoute(caller: Caller, id: int, now: Time, reply: StoreReply<SosAlert>)
    : (r: (HttpResponse, seq<StoreCall>))
    ensures !IsAdmin(caller) ==> r == (HttpResponse(403, Message(MSG_FORBIDDEN)), [])
    ensures IsAdmin(caller) ==> r.1 == [UpdateSosAlert(id, now, caller.id)]
    ensures IsAdmin(caller) && reply == Resolved(None) ==> r.0 == HttpResponse(404, Message("SOS alert not found"))
    ensures IsAdmin(caller) && reply.Resolved? && reply.value.Some? ==>
              r.0 == HttpResponse(200, SosAlertBody(reply.value.value))
    ensures IsAdmin(caller) && reply.Failed? ==> r.0 == HttpResponse(400, Message("Failed to acknowledge SOS alert"))
  {
    if !IsAdmin(caller) then (HttpResponse(403, Message(MSG_FORBIDDEN)), [])
    else
      var calls := [UpdateSosAlert(id, now, caller.id)];
      match reply
      case Failed(_) => (HttpResponse(400, Message("Failed to acknowledge SOS alert")), calls)
      case Resolved(None) => (HttpResponse(404, Message("SOS alert not found")), calls)
      case Resolved(Some(alert)) => (HttpResponse(200, SosAlertBody(alert)), calls)
  }

  // ----- dashboard statistics -----

  /**
   * The caller's dashboard figures: active and pending both count pending
   * applications, so they agree; approved and pending together never exceed
   * the applications; grievances is the number of grievances.
   */
  function ComputeStats(applications: seq<Application>, grievances: seq<Grievance>): (s: DashboardStats)
    ensures s.activeApplications == s.pending
    ensures s.approved + s.pending <= |applications|
    ensures s.grievances == |grievances|
    ensures s.pending == 0 <==> forall a :: a in applications ==> a.status != Some(APPLICATION_PENDING)
  {
    FilterDisjointCount(IsApprovedApplication, IsPendingApplication, applications);
    FilterNonEmpty(IsPendingApplication, applications);
    var pending := |Filter(IsPendingApplication, applications)|;
    DashboardStats(pending, |Filter(IsApprovedApplication, applications)|, pending, |grievances|)
  }

  /** `GET /api/dashboard/stats`: the figures over the caller's own applications and grievances. */
  method DashboardStatsRoute(store: MemStorage, caller: Caller) returns (resp: HttpResponse)
    requires store.Valid()
    ensures resp == HttpResponse(200, StatsBody(ComputeStats(
                      Filter(AppliedBy(caller.id), Rows(store.applications, store.currentApplicationId)),
                      Filter(FiledBy(caller.id), Rows(store.grievances, store.currentGrievanceId)))))
  {
    var applications := store.GetApplicationsByUser(caller.id);
    var grievances := store.GetGrievancesByUser(caller.id);
    resp := HttpResponse(200, StatsBody(ComputeStats(applications, grievances)));
  }

  // ----- Aadhaar verification -----

  /**
   * `POST /api/aadhaar/initiate`: the service's response, sent as is, with one
   * log entry when the store accepts the write; no user record is updated.
   */
  method InitiateRoute(service: AadhaarService, aadhaarNumber: string, verificationType: string,
                       now: nat, random36: string, sha256Hex: string -> string, reply: ProviderReply,
                       writeAccepted: bool)
    returns (resp: HttpResponse)
    modifies service.log
    ensures var request := VerificationRequest(aadhaarNumber, None, None, verificationType, None);
            resp == HttpResponse(200, VerificationBody(InitiateResponse(GenerateTxnId(now, random36), reply)))
            && !resp.body.response.verified
    ensures var request := VerificationRequest(aadhaarNumber, None, None, verificationType, None);
            service.log.entries == old(service.log.entries) +
              (if writeAccepted
               then [OutcomeEntry(request, STATUS_OTP_SENT, "Failed to initiate verification",
                                  Some(GenerateTxnId(now, random36)), reply)]
               else [])
  {
    var request := VerificationRequest(aadhaarNumber, None, None, verificationType, None);
    var response, _ := service.InitiateVerification(request, now, random36, sha256Hex, reply, writeAccepted);
    resp := HttpResponse(200, VerificationBody(response));
  }

  /**
   * The tail shared by both verify routes: a thrown service error is 400; a
   * verified response marks the caller's Aadhaar status, whose failure is
   * 400 too; otherwise the response is sent as is.
   */
  function VerifiedTail(caller: Caller, aadhaarNumber: string, outcome: Outcome, statusReply: StoreReply<()>)
    : (r: (HttpResponse, seq<StoreCall>))
    ensures r.1 != [] <==> outcome.Returned? && outcome.response.verified
    ensures r.1 != [] ==> r.1 == [UpdateUserAadhaarStatus(caller.id, aadhaarNumber, true)]
    ensures outcome.Thrown? ==> r.0 == HttpResponse(400, Message(outcome.message))
    ensures outcome.Returned? && !(outcome.response.verified && statusReply.Failed?) ==>
              r.0 == HttpResponse(200, VerificationBody(outcome.response))
    ensures outcome.Returned? && outcome.response.verified && statusReply.Failed? ==>
              r.0 == HttpResponse(400, Message(statusReply.message))
  {
    match outcome
    case Thrown(m) => (HttpResponse(400, Message(m)), [])
    case Returned(response) =>
      if response.verified then
        var calls := [UpdateUserAadhaarStatus(caller.id, aadhaarNumber, true)];
        match statusReply
        case Failed(m) => (HttpResponse(400, Message(m)), calls)
        case Resolved(_) => (HttpResponse(200, VerificationBody(response)), calls)
      else (HttpResponse(200, VerificationBody(response)), [])
  }

  /**
   * `POST /api/aadhaar/verify-otp`: the user's Aadhaar status is set exactly
   * when the OTP is present and the provider confirms it; when that update
   * throws, its message is sent with 400. `MemStorage` has no
   * `updateUserAadhaarStatus`, so with the shipped store every confirmed OTP
   * ends in that 400.
   */
  method VerifyOtpRoute(service: AadhaarService, caller: Caller, aadhaarNumber: string, otp: Option<string>,
                        txnId: Option<string>, sha256Hex: string -> string, reply: ProviderReply,
                        writeAccepted: bool, statusReply: StoreReply<()>)
    returns (resp: HttpResponse, calls: seq<StoreCall>)
    modifies service.log
    ensures calls != [] <==> Truthy(otp) && Succeeded(reply)
    ensures calls != [] ==> calls == [UpdateUserAadhaarStatus(caller.id, aadhaarNumber, true)]
    ensures !Truthy(otp) ==> resp == HttpResponse(400, Message("OTP is required"))
    ensures var request := VerificationRequest(aadhaarNumber, None, otp, TYPE_OTP, txnId);
            Truthy(otp) && !(Succeeded(reply) && statusReply.Failed?) ==>
              resp == HttpResponse(200, VerificationBody(VerifyResponse(request, reply, "OTP verification failed")))
    ensures Truthy(otp) && Succeeded(reply) && statusReply.Failed? ==>
              resp == HttpResponse(400, Message(statusReply.message))
    ensures !Truthy(otp) ==> service.log.entries == old(service.log.entries)
    ensures var request := VerificationRequest(aadhaarNumber, None, otp, TYPE_OTP, txnId);
            Truthy(otp) ==>
              service.log.entries == old(service.log.entries) +
                (if writeAccepted
                 then [OutcomeEntry(request, STATUS_VERIFIED, "OTP verification failed", txnId, reply)]
                 else [])
  {
    var request := VerificationRequest(aadhaarNumber, None, otp, TYPE_OTP, txnId);
    var outcome, _ := service.VerifyOtp(request, sha256Hex, reply, writeAccepted);
    resp, calls := VerifiedTail(caller, aadhaarNumber, outcome, statusReply).0,
                   VerifiedTail(caller, aadhaarNumber, outcome, statusReply).1;
  }

  /**
   * `POST /api/aadhaar/verify-biometric`: the user's Aadhaar status is set
   * exactly when biometric data is present and the provider confirms it; a
   * throwing update is answered as in `VerifyOtpRoute`.
   */
  method VerifyBiometricRoute(service: AadhaarService, caller: Caller, aadhaarNumber: string,
                              biometricData: Option<string>, txnId: Option<string>, sha256Hex: string -> string,
                              reply: ProviderReply, writeAccepted: bool, statusReply: StoreReply<()>)
    returns (resp: HttpResponse, calls: seq<StoreCall>)
    modifies service.log
    ensures calls != [] <==> Truthy(biometricData) && Succeeded(reply)
    ensures calls != [] ==> calls == [UpdateUserAadhaarStatus(caller.id, aadhaarNumber, true)]
    ensures !Truthy(biometricData) ==> resp == HttpResponse(400, Message("Biometric data is required"))
    ensures var request := VerificationRequest(aadhaarNumber, biometricData, None, TYPE_BIOMETRIC, txnId);
            Truthy(biometricData) && !(Succeeded(reply) && statusReply.Failed?) ==>
              resp == HttpResponse(200, VerificationBody(VerifyResponse(request, reply, "Biometric verification failed")))
    ensures Truthy(biometricData) && Succeeded(reply) && statusReply.Failed? ==>
              resp == HttpResponse(400, Message(statusReply.message))
    ensures !Truthy(biometricData) ==> service.log.entries == old(service.log.entries)
    ensures var request := VerificationRequest(aadhaarNumber, biometricData, None, TYPE_BIOMETRIC, txnId);
            Truthy(biometricData) ==>
              service.log.entries == old(service.log.entries) +
                (if writeAccepted
                 then [OutcomeEntry(request, STATUS_VERIFIED, "Biometric verification failed", txnId, reply)]
                 else [])
  {
    var request := VerificationRequest(aadhaarNumber, biometricData, None, TYPE_BIOMETRIC, txnId);
    var outcome, _ := service.VerifyBiometric(request, sha256Hex, reply, writeAccepted);
    resp, calls := VerifiedTail(caller, aadhaarNumber, outcome, statusReply).0,
                   VerifiedTail(caller, aadhaarNumber, outcome, statusReply).1;
  }
}
