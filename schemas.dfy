/**
 * The input schemas of the authentication forms and routes, as zod evaluates them:
 * each field is type-checked, then its string checks run (all of them, without stopping
 * at the first failure); a cross-field refinement runs only when no field failed its
 * type check; keys the schema does not declare are dropped from the parsed data.
 */
module Schemas {
  import opened Wrappers

  /** One property of the request's JSON object, as far as a string schema can tell. */
  datatype Field = Missing | Given(s: string) | NotString

  /** A request body: a JSON object (its relevant properties) or any other JSON value. */
  datatype Json<F> = NotAnObject | Fields(fields: F)

  /** A zod issue: its code, its path (`""` is the root) and, for a failed check, its message. */
  datatype Issue =
    | InvalidType(path: string)
    | TooSmall(path: string, message: string)
    | TooBig(path: string, message: string)
    | InvalidString(path: string, message: string)
    | Custom(path: string, message: string)

  const INVALID_EMAIL: string := "Email inválido"
  const PASSWORD_TOO_SHORT: string := "A senha deve ter pelo menos 6 caracteres"
  const CODE_LENGTH: string := "O código deve ter 6 dígitos"
  const NAME_TOO_SHORT: string := "Nome deve ter pelo menos 2 caracteres"
  const PASSWORDS_DIFFER: string := "As senhas não coincidem"

  /** A string check: `.email(m)`, `.min(n, m)` or `.length(n, m)`. */
  datatype Check = Email(message: string) | MinLength(min: nat, message: string) | ExactLength(length: nat, message: string)

  predicate Passes(s: string, c: Check, validEmail: string -> bool)
  {
    match c
    case Email(_) => validEmail(s)
    case MinLength(n, _) => |s| >= n
    case ExactLength(n, _) => |s| == n
  }

  /** The issue one failed check reports. */
  function CheckIssue(path: string, s: string, c: Check): Issue
  {
    match c
    case Email(m) => InvalidString(path, m)
    case MinLength(_, m) => TooSmall(path, m)
    case ExactLength(n, m) => if |s| < n then TooSmall(path, m) else TooBig(path, m)
  }

  /** The issues of running every check, in order, on a string. */
  function ChecksIssues(path: string, s: string, cs: seq<Check>, validEmail: string -> bool): (issues: seq<Issue>)
    ensures issues == [] <==> forall j :: 0 <= j < |cs| ==> Passes(s, cs[j], validEmail)
    ensures forall k :: 0 <= k < |issues| ==> !issues[k].Custom? && !issues[k].InvalidType? && issues[k].path == path
  {
    if cs == [] then []
    else
      var rest := ChecksIssues(path, s, cs[1..], validEmail);
      assert forall j :: 1 <= j < |cs| ==> cs[j] == cs[1..][j - 1];
      if Passes(s, cs[0], validEmail) then rest else [CheckIssue(path, s, cs[0])] + rest
  }

  /** A declared property: its name, its checks, and whether it is `.optional()`. */
  datatype FieldSpec = FieldSpec(path: string, checks: seq<Check>, optional: bool)

  /** The field passes its type check: a string, or absent when it is optional. */
  predicate WellTyped(spec: FieldSpec, f: Field)
  {
    f.Given? || (spec.optional && f.Missing?)
  }

  function FieldIssues(spec: FieldSpec, f: Field, validEmail: string -> bool): (issues: seq<Issue>)
    ensures issues == [] <==> WellTyped(spec, f) && (f.Given? ==> forall j :: 0 <= j < |spec.checks| ==> Passes(f.s, spec.checks[j], validEmail))
    ensures forall k :: 0 <= k < |issues| ==> !issues[k].Custom?
    ensures !WellTyped(spec, f) ==> issues == [InvalidType(spec.path)]
  {
    match f
    case Given(s) => ChecksIssues(spec.path, s, spec.checks, validEmail)
    case Missing => if spec.optional then [] else [InvalidType(spec.path)]
    case NotString => [InvalidType(spec.path)]
  }

  function OptionalValue(f: Field): Option<string>
  {
    if f.Given? then Some(f.s) else None
  }

  /** The issues of a password/confirmation pair's refinement (only run when the object is not aborted). */
  function MatchIssues(typed: bool, password: Field, confirmPassword: Field): seq<Issue>
  {
    if typed && password.Given? && confirmPassword.Given? && password.s != confirmPassword.s
    then [Custom("confirmPassword", PASSWORDS_DIFFER)] else []
  }

  const NAME_FIELD := FieldSpec("name", [MinLength(2, NAME_TOO_SHORT)], false)
  const EMAIL_FIELD := FieldSpec("email", [Email(INVALID_EMAIL)], false)
  const PASSWORD_FIELD := FieldSpec("password", [MinLength(6, PASSWORD_TOO_SHORT)], false)
  const CONFIRM_FIELD := FieldSpec("confirmPassword", [MinLength(6, PASSWORD_TOO_SHORT)], false)
  const CODE_FIELD := FieldSpec("code", [ExactLength(6, CODE_LENGTH)], false)
  const TURNSTILE_FIELD := FieldSpec("turnstileToken", [], true)

  // ---------------------------------------------------------------- loginSchema

  datatype LoginInput = LoginInput(email: Field, password: Field, turnstileToken: Field)
  datatype LoginData = LoginData(email: string, password: string, turnstileToken: Option<string>)

  /** `loginSchema.safeParse`. */
  function ParseLogin(body: Json<LoginInput>, validEmail: string -> bool): (r: Result<LoginData, seq<Issue>>)
    ensures r.Ok? <==> body.Fields? && body.fields.email.Given? && validEmail(body.fields.email.s)
                        && body.fields.password.Given? && |body.fields.password.s| >= 6
                        && !body.fields.turnstileToken.NotString?
    ensures r.Ok? ==> r.value == LoginData(body.fields.email.s, body.fields.password.s, OptionalValue(body.fields.turnstileToken))
    ensures r.Err? ==> r.error != []
    ensures body.NotAnObject? ==> r == Err([InvalidType("")])
  {
    match body
    case NotAnObject => Err([InvalidType("")])
    case Fields(f) =>
      var issues := FieldIssues(EMAIL_FIELD, f.email, validEmail) + FieldIssues(PASSWORD_FIELD, f.password, validEmail)
                    + FieldIssues(TURNSTILE_FIELD, f.turnstileToken, validEmail);
      if issues == [] then Ok(LoginData(f.email.s, f.password.s, OptionalValue(f.turnstileToken))) else Err(issues)
  }

  // ---------------------------------------------------------------- verificationSchema

  datatype VerificationInput = VerificationInput(code: Field)
  datatype VerificationData = VerificationData(code: string)

  /** `verificationSchema.safeParse`: six characters of any kind. */
  function ParseVerification(body: Json<VerificationInput>): (r: Result<VerificationData, seq<Issue>>)
    ensures r.Ok? <==> body.Fields? && body.fields.code.Given? && |body.fields.code.s| == 6
    ensures r.Ok? ==> r.value.code == body.fields.code.s
    ensures body.Fields? && body.fields.code.Given? && |body.fields.code.s| > 6 ==> r == Err([TooBig("code", CODE_LENGTH)])
    ensures body.Fields? && body.fields.code.Given? && |body.fields.code.s| < 6 ==> r == Err([TooSmall("code", CODE_LENGTH)])
  {
    match body
    case NotAnObject => Err([InvalidType("")])
    case Fields(f) =>
      var noEmail := s => false;
      var issues := FieldIssues(CODE_FIELD, f.code, noEmail);
      assert f.code.Given? ==> issues == if |f.code.s| == 6 then [] else [CheckIssue("code", f.code.s, CODE_FIELD.checks[0])] by {
        if f.code.Given? {
          assert CODE_FIELD.checks[1..] == [];
        }
      }
      if issues == [] then Ok(VerificationData(f.code.s)) else Err(issues)
  }

  // ---------------------------------------------------------------- requestPasswordResetSchema

  datatype RequestResetInput = RequestResetInput(email: Field, turnstileToken: Field)
  datatype RequestResetData = RequestResetData(email: string, turnstileToken: Option<string>)

  /** `requestPasswordResetSchema.safeParse`. */
  function ParseRequestReset(body: Json<RequestResetInput>, validEmail: string -> bool): (r: Result<RequestResetData, seq<Issue>>)
    ensures r.Ok? <==> body.Fields? && body.fields.email.Given? && validEmail(body.fields.email.s)
                        && !body.fields.turnstileToken.NotString?
    ensures r.Ok? ==> r.value == RequestResetData(body.fields.email.s, OptionalValue(body.fields.turnstileToken))
    ensures r.Err? ==> r.error != []
  {
    match body
    case NotAnObject => Err([InvalidType("")])
    case Fields(f) =>
      var issues := FieldIssues(EMAIL_FIELD, f.email, validEmail) + FieldIssues(TURNSTILE_FIELD, f.turnstileToken, validEmail);
      if issues == [] then Ok(RequestResetData(f.email.s, OptionalValue(f.turnstileToken))) else Err(issues)
  }

  // ---------------------------------------------------------------- resetPasswordSchema

  datatype ResetInput = ResetInput(code: Field, password: Field, confirmPassword: Field)
  datatype ResetData = ResetData(code: string, password: string, confirmPassword: string)

  /** `resetPasswordSchema.safeParse`: the three fields, then the equality refinement. */
  function ParseReset(body: Json<ResetInput>): (r: Result<ResetData, seq<Issue>>)
    ensures r.Ok? <==> body.Fields? && body.fields.code.Given? && |body.fields.code.s| == 6
                        && body.fields.password.Given? && |body.fields.password.s| >= 6
                        && body.fields.confirmPassword.Given? && body.fields.confirmPassword.s == body.fields.password.s
    ensures r.Ok? ==> r.value == ResetData(body.fields.code.s, body.fields.password.s, body.fields.confirmPassword.s)
    ensures r.Err? ==> r.error != []
    ensures r.Err? ==> (Custom("confirmPassword", PASSWORDS_DIFFER) in r.error <==>
                        body.Fields? && body.fields.code.Given? && body.fields.password.Given? && body.fields.confirmPassword.Given?
                        && body.fields.password.s != body.fields.confirmPassword.s)
  {
    match body
    case NotAnObject => Err([InvalidType("")])
    case Fields(f) =>
      var noEmail := s => false;
      var shape := FieldIssues(CODE_FIELD, f.code, noEmail) + FieldIssues(PASSWORD_FIELD, f.password, noEmail)
                   + FieldIssues(CONFIRM_FIELD, f.confirmPassword, noEmail);
      var typed := WellTyped(CODE_FIELD, f.code) && WellTyped(PASSWORD_FIELD, f.password) && WellTyped(CONFIRM_FIELD, f.confirmPassword);
      var issues := shape + MatchIssues(typed, f.password, f.confirmPassword);
      assert Custom("confirmPassword", PASSWORDS_DIFFER) !in shape;
      if issues == [] then Ok(ResetData(f.code.s, f.password.s, f.confirmPassword.s)) else Err(issues)
  }

  // ---------------------------------------------------------------- signupSchema

  /** The signup body; `role` stands for any property the schema does not declare. */
  datatype SignupInput = SignupInput(name: Field, email: Field, password: Field, confirmPassword: Field,
                                     turnstileToken: Field, role: Field)
  datatype SignupData = SignupData(name: string, email: string, password: string, confirmPassword: string,
                                   turnstileToken: Option<string>)

  /** `signupSchema.safeParse`: the five fields, then the equality refinement; `role` is dropped. */
  function ParseSignup(body: Json<SignupInput>, validEmail: string -> bool): (r: Result<SignupData, seq<Issue>>)
    ensures r.Ok? <==> body.Fields? && body.fields.name.Given? && |body.fields.name.s| >= 2
                        && body.fields.email.Given? && validEmail(body.fields.email.s)
                        && body.fields.password.Given? && |body.fields.password.s| >= 6
                        && body.fields.confirmPassword.Given? && body.fields.confirmPassword.s == body.fields.password.s
                        && !body.fields.turnstileToken.NotString?
    ensures r.Ok? ==> r.value == SignupData(body.fields.name.s, body.fields.email.s, body.fields.password.s,
                                            body.fields.confirmPassword.s, OptionalValue(body.fields.turnstileToken))
    ensures r.Err? ==> r.error != []
    ensures r.Err? ==> (Custom("confirmPassword", PASSWORDS_DIFFER) in r.error <==>
                        body.Fields? && body.fields.name.Given? && body.fields.email.Given? && body.fields.password.Given?
                        && body.fields.confirmPassword.Given? && !body.fields.turnstileToken.NotString?
                        && body.fields.password.s != body.fields.confirmPassword.s)
  {
    match body
    case NotAnObject => Err([InvalidType("")])
    case Fields(f) =>
      var shape := FieldIssues(NAME_FIELD, f.name, validEmail) + FieldIssues(EMAIL_FIELD, f.email, validEmail)
                   + FieldIssues(PASSWORD_FIELD, f.password, validEmail) + FieldIssues(CONFIRM_FIELD, f.confirmPassword, validEmail)
                   + FieldIssues(TURNSTILE_FIELD, f.turnstileToken, validEmail);
      var typed := WellTyped(NAME_FIELD, f.name) && WellTyped(EMAIL_FIELD, f.email) && WellTyped(PASSWORD_FIELD, f.password)
                   && WellTyped(CONFIRM_FIELD, f.confirmPassword) && WellTyped(TURNSTILE_FIELD, f.turnstileToken);
      var issues := shape + MatchIssues(typed, f.password, f.confirmPassword);
      assert Custom("confirmPassword", PASSWORDS_DIFFER) !in shape;
      if issues == [] then Ok(SignupData(f.name.s, f.email.s, f.password.s, f.confirmPassword.s, OptionalValue(f.turnstileToken)))
      else Err(issues)
  }

  /** Whatever the body says about `role`, the parsed signup data is the same. */
  lemma SignupIgnoresRole(f: SignupInput, role: Field, validEmail: string -> bool)
    ensures ParseSignup(Fields(f.(role := role)), validEmail) == ParseSignup(Fields(f), validEmail)
  {
  }

  /** A mismatch is reported even when another check also failed, as long as every field is a string. */
  lemma MismatchReportedWithShortPassword(name: string, email: string, validEmail: string -> bool)
    requires |name| >= 2 && validEmail(email)
    ensures var r := ParseSignup(Fields(SignupInput(Given(name), Given(email), Given("abc"), Given("abcdef"), Missing, Missing)), validEmail);
            r.Err? && TooSmall("password", PASSWORD_TOO_SHORT) in r.error && Custom("confirmPassword", PASSWORDS_DIFFER) in r.error
  {
    assert FieldIssues(PASSWORD_FIELD, Given("abc"), validEmail) == [TooSmall("password", PASSWORD_TOO_SHORT)];
  }

  /** The verification code is only required to have six characters, not six digits. */
  lemma NonDigitCodeAccepted()
    ensures ParseVerification(Fields(VerificationInput(Given("abcdef")))) == Ok(VerificationData("abcdef"))
  {
  }
}
