/**
 * `POST /api/v1/auth/signup`: validate, pass the Turnstile check, refuse a registered
 * e-mail, store the new active user with the hashed password, then either start
 * two-factor verification (production) or just return the new profile.
 */
module SignupRoute {
  import opened Wrappers
  import opened Purpose
  import opened AuthConfig
  import opened Jwt
  import opened AuthUtils
  import opened Schemas
  import opened ServerCookies
  import opened Users
  import opened Flow

  const INVALID_SIGNUP_DATA: string := "Dados de registro inválidos"
  const EMAIL_TAKEN: Response := Response(409, Failure("Este email já está registrado"))
  const USER_CREATED: string := "Usuário criado com sucesso"

  /** The user row the handler stores: the role is the column default, since the schema drops `role`. */
  function NewUser(t: UserTable, data: SignupData, ctx: Ctx): (r: (UserTable, User))
    requires FindByEmail(t.rows, data.email).None?
    ensures r.1 == User(t.nextId, data.email, Some(data.name), ctx.hash(data.password), ctx.defaultRole, true)
    ensures r.0.rows == t.rows + [r.1] && r.0.nextId == t.nextId + 1
    ensures ValidUsers(t) ==> ValidUsers(r.0) && FindByEmail(r.0.rows, data.email) == Some(r.1)
  {
    CreateUser(t, data.email, Some(data.name), ctx.hash(data.password), ctx.defaultRole, true).value
  }

  function Signup(body: Option<Json<SignupInput>>, ctx: Ctx, w: World): (o: Outcome)
    ensures o.resp.status in {201, 400, 409, 500}
    ensures o.resp.status != 201 ==> o.world == w
    ensures ValidWorld(w) ==> ValidWorld(o.world)
    ensures o.resp.status == 201 <==>
              body.Some? && ParseSignup(body.value, ctx.validEmail).Ok?
              && ChallengePasses(ctx, ParseSignup(body.value, ctx.validEmail).value.turnstileToken) && ctx.dbUp
              && FindByEmail(w.users.rows, ParseSignup(body.value, ctx.validEmail).value.email).None?
    ensures o.resp.status == 201 && !ShouldUse2FA(ctx.env) ==> o.world.jar == w.jar && o.world.codes == w.codes
  {
    match body
    case None => Outcome(INTERNAL_ERROR, w)
    case Some(json) =>
      match ParseSignup(json, ctx.validEmail)
      case Err(issues) => Outcome(Response(400, InvalidData(INVALID_SIGNUP_DATA, issues)), w)
      case Ok(data) =>
        if !ChallengePasses(ctx, data.turnstileToken) then Outcome(SECURITY_CHECK_FAILED, w)
        else if !ctx.dbUp then Outcome(INTERNAL_ERROR, w)
        else if FindByEmail(w.users.rows, data.email).Some? then Outcome(EMAIL_TAKEN, w)
        else
          var (users, u) := NewUser(w.users, data, ctx);
          var w1 := w.(users := users);
          if ShouldUse2FA(ctx.env) then
            Outcome(Response(201, VerificationRequired(CODE_SENT)), StartVerification(w1, ctx, u, TwoFactor, Helpers))
          else
            Outcome(Response(201, WithProfile(USER_CREATED, ProfileOf(u))), w1)
  }

  method Post(body: Option<Json<SignupInput>>, ctx: Ctx,
              users: UserRepository, codes: CodeStore, jar: CookieJar, mailer: Mailer) returns (resp: Response)
    modifies users, codes, jar, mailer
    ensures Outcome(resp, Snapshot(users, codes, jar, mailer)) == Signup(body, ctx, old(Snapshot(users, codes, jar, mailer)))
  {
    if body.None? {
      return INTERNAL_ERROR;
    }
    var validation := ParseSignup(body.value, ctx.validEmail);
    if validation.Err? {
      return Response(400, InvalidData(INVALID_SIGNUP_DATA, validation.error));
    }
    var data := validation.value;
    if !ChallengePasses(ctx, data.turnstileToken) {
      return SECURITY_CHECK_FAILED;
    }
    if !ctx.dbUp {
      return INTERNAL_ERROR;
    }
    var existing := users.FindUniqueByEmail(data.email);
    if existing.Some? {
      return EMAIL_TAKEN;
    }
    var passwordHash := ctx.hash(data.password);
    var created := users.Create(data.email, Some(data.name), passwordHash, ctx.defaultRole, true);
    var u := created.value;
    if ShouldUse2FA(ctx.env) {
      StartVerificationOn(ctx, u, TwoFactor, Helpers, users, codes, jar, mailer);
      return Response(201, VerificationRequired(CODE_SENT));
    }
    resp := Response(201, WithProfile(USER_CREATED, ProfileOf(u)));
  }

  /** The stored row carries the hash of the password, the given name and e-mail, and is active. */
  lemma SignupStoresHashedActiveUser(body: Json<SignupInput>, data: SignupData, ctx: Ctx, w: World)
    requires ValidWorld(w)
    requires ParseSignup(body, ctx.validEmail) == Ok(data) && ChallengePasses(ctx, data.turnstileToken) && ctx.dbUp
    requires FindByEmail(w.users.rows, data.email).None?
    ensures var o := Signup(Some(body), ctx, w);
            FindByEmail(o.world.users.rows, data.email)
            == Some(User(w.users.nextId, data.email, Some(data.name), ctx.hash(data.password), ctx.defaultRole, true))
  {
  }

  /** A registered e-mail is refused with 409 and nothing is written. */
  lemma DuplicateEmailRefused(body: Json<SignupInput>, data: SignupData, ctx: Ctx, w: World)
    requires ParseSignup(body, ctx.validEmail) == Ok(data) && ChallengePasses(ctx, data.turnstileToken) && ctx.dbUp
    requires FindByEmail(w.users.rows, data.email).Some?
    ensures Signup(Some(body), ctx, w) == Outcome(EMAIL_TAKEN, w)
  {
  }

  /**
   * A signup with two-factor login on stores the user and then starts verification for
   * that new user: a code row for it, the e-mail, and both verification cookies for 300 s.
   */
  lemma TwoFactorSignupEffects(body: Json<SignupInput>, data: SignupData, ctx: Ctx, w: World)
    requires ParseSignup(body, ctx.validEmail) == Ok(data) && ChallengePasses(ctx, data.turnstileToken) && ctx.dbUp
    requires FindByEmail(w.users.rows, data.email).None?
    requires ShouldUse2FA(ctx.env)
    ensures var (users, u) := NewUser(w.users, data, ctx);
            Signup(Some(body), ctx, w)
            == Outcome(Response(201, VerificationRequired(CODE_SENT)), StartVerification(w.(users := users), ctx, u, TwoFactor, Helpers))
  {
  }

  /**
   * The partner of `TwoFactorSignupEffects`: with two-factor off, the 201 carries the new
   * profile `{id, email, name, role}`, the table gains exactly the new row, and no code,
   * mail or cookie is written.
   */
  lemma DirectSignupEffects(body: Json<SignupInput>, data: SignupData, ctx: Ctx, w: World)
    requires ParseSignup(body, ctx.validEmail) == Ok(data) && ChallengePasses(ctx, data.turnstileToken) && ctx.dbUp
    requires FindByEmail(w.users.rows, data.email).None?
    requires !ShouldUse2FA(ctx.env)
    ensures var o := Signup(Some(body), ctx, w);
            o.resp == Response(201, WithProfile(USER_CREATED, Profile(w.users.nextId, data.email, Some(data.name), ctx.defaultRole)))
            && o.world.users.rows == w.users.rows + [User(w.users.nextId, data.email, Some(data.name), ctx.hash(data.password), ctx.defaultRole, true)]
            && o.world.users.nextId == w.users.nextId + 1
            && o.world.codes == w.codes && o.world.jar == w.jar && o.world.outbox == w.outbox
  {
  }
}
