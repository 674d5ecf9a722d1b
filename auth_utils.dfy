/**
 * The verification-code store and the other helpers of the authentication utilities:
 * code generation, saving a code (superseding earlier ones), single-use checking of a
 * code, and the Turnstile check's development bypass.
 */
module AuthUtils {
  import opened Wrappers
  import opened Decimal
  import opened Purpose
  import opened AuthConfig

  /** An integer in [0, 900000): `Math.random() * 900000` rounded down. */
  type CodeSeed = r: int | 0 <= r < 900000

  /** Five minutes, in milliseconds: the lifetime of a saved code. */
  const CODE_LIFETIME_MS: int := 5 * 60 * 1000

  /**
   * `generateVerificationCode`: the decimal text of `100000 + seed`, so always six
   * digits with no leading zero.
   */
  function GenerateVerificationCode(seed: CodeSeed): (code: string)
    ensures |code| == 6 && AllDigits(code) && code[0] != '0'
    ensures DigitsValue(code) == 100000 + seed
  {
    assert Pow10(5) == 100000 && Pow10(6) == 1000000;
    NatToStringLength(100000 + seed, 6);
    NatToStringValue(100000 + seed);
    NatToString(100000 + seed)
  }

  /** A row of the `verification_codes` table, without its id (the key it is stored under). */
  datatype CodeRow = CodeRow(userId: int, code: string, kind: CodeType, expiresAt: int, createdAt: int)

  /** The table: rows by id, and the next id the database will hand out. */
  datatype CodeTable = CodeTable(rows: map<int, CodeRow>, nextId: nat)

  predicate ForPair(row: CodeRow, userId: int, kind: CodeType)
  {
    row.userId == userId && row.kind == kind
  }

  /** Ids are below the id counter, and no two rows share a (user, purpose) pair. */
  predicate ValidCodes(t: CodeTable)
  {
    && (forall id :: id in t.rows ==> id < t.nextId)
    && (forall a, b :: a in t.rows && b in t.rows && ForPair(t.rows[b], t.rows[a].userId, t.rows[a].kind) ==> a == b)
  }

  /**
   * `saveVerificationCode`: delete every row of the (user, purpose) pair, then insert
   * a row expiring five minutes from now under a fresh id, and return that id.
   */
  function SaveVerificationCode(t: CodeTable, userId: int, code: string, kind: CodeType, nowMs: int): (r: (CodeTable, nat))
    ensures r.1 == t.nextId && r.0.nextId == t.nextId + 1
    ensures r.1 in r.0.rows && r.0.rows[r.1] == CodeRow(userId, code, kind, nowMs + CODE_LIFETIME_MS, nowMs)
    ensures forall id :: id in r.0.rows && ForPair(r.0.rows[id], userId, kind) ==> id == r.1
    ensures forall id :: id != r.1 ==> (id in r.0.rows <==> id in t.rows && !ForPair(t.rows[id], userId, kind))
    ensures forall id :: id != r.1 && id in r.0.rows ==> r.0.rows[id] == t.rows[id]
    ensures ValidCodes(t) ==> ValidCodes(r.0) && r.1 !in t.rows
  {
    var kept := map id | id in t.rows && !ForPair(t.rows[id], userId, kind) :: t.rows[id];
    (CodeTable(kept[t.nextId := CodeRow(userId, code, kind, nowMs + CODE_LIFETIME_MS, nowMs)], t.nextId + 1), t.nextId)
  }

  predicate Expired(row: CodeRow, nowMs: int)
  {
    row.expiresAt < nowMs
  }

  /**
   * `verifyCode`: false for an unknown id (`None` is an id that did not parse); an
   * expired row is deleted and refused even when the code matches; a matching row is
   * deleted and accepted; a mismatch is refused and the row kept for another try.
   */
  function VerifyCode(t: CodeTable, codeId: Option<int>, userCode: string, nowMs: int): (r: (CodeTable, bool))
    ensures r.1 <==> codeId.Some? && codeId.value in t.rows && !Expired(t.rows[codeId.value], nowMs)
                     && t.rows[codeId.value].code == userCode
    ensures codeId.None? || codeId.value !in t.rows ==> r.0 == t
    ensures codeId.Some? && codeId.value in t.rows ==>
              r.0 == if Expired(t.rows[codeId.value], nowMs) || t.rows[codeId.value].code == userCode
                     then t.(rows := t.rows - {codeId.value}) else t
    ensures r.0.nextId == t.nextId && r.0.rows.Keys <= t.rows.Keys
    ensures ValidCodes(t) ==> ValidCodes(r.0)
  {
    if codeId.None? || codeId.value !in t.rows then (t, false)
    else
      var row := t.rows[codeId.value];
      if Expired(row, nowMs) then (t.(rows := t.rows - {codeId.value}), false)
      else if row.code == userCode then (t.(rows := t.rows - {codeId.value}), true)
      else (t, false)
  }

  /** A code is single-use: once accepted, the same id and code are refused. */
  lemma SingleUse(t: CodeTable, id: int, code: string, now1: int, now2: int)
    requires VerifyCode(t, Some(id), code, now1).1
    ensures !VerifyCode(VerifyCode(t, Some(id), code, now1).0, Some(id), code, now2).1
  {
  }

  /** Saving a new code for a (user, purpose) pair makes the previous code of that pair unusable. */
  lemma Supersession(t: CodeTable, userId: int, c1: string, c2: string, kind: CodeType, now1: int, now2: int, now3: int)
    requires ValidCodes(t)
    ensures var (t1, id1) := SaveVerificationCode(t, userId, c1, kind, now1);
            var (t2, id2) := SaveVerificationCode(t1, userId, c2, kind, now2);
            id1 != id2 && !VerifyCode(t2, Some(id1), c1, now3).1
  {
  }

  /** Saving leaves the codes of every other user, and of the other purpose, as they were. */
  lemma SaveKeepsOtherPairs(t: CodeTable, userId: int, code: string, kind: CodeType, nowMs: int, id: int)
    requires ValidCodes(t) && id in t.rows && !ForPair(t.rows[id], userId, kind)
    ensures var (t1, _) := SaveVerificationCode(t, userId, code, kind, nowMs);
            id in t1.rows && t1.rows[id] == t.rows[id]
  {
  }

  /** A wrong code leaves the table as it was, so a later correct try before expiry succeeds. */
  lemma RetryAfterMismatch(t: CodeTable, id: int, wrong: string, now1: int, now2: int)
    requires id in t.rows && t.rows[id].code != wrong && !Expired(t.rows[id], now1) && !Expired(t.rows[id], now2)
    ensures VerifyCode(t, Some(id), wrong, now1) == (t, false)
    ensures VerifyCode(VerifyCode(t, Some(id), wrong, now1).0, Some(id), t.rows[id].code, now2).1
  {
  }

  /** A freshly saved code is accepted up to and including the millisecond it expires, and not after. */
  lemma FreshCodeWindow(t: CodeTable, userId: int, code: string, kind: CodeType, savedAt: int, checkedAt: int)
    ensures var (t1, id) := SaveVerificationCode(t, userId, code, kind, savedAt);
            VerifyCode(t1, Some(id), code, checkedAt).1 <==> checkedAt <= savedAt + 300000
  {
  }

  /** The persistent code store: the `verification_codes` table and its id sequence. */
  class CodeStore {
    var rows: map<int, CodeRow>
    var nextId: nat

    function Model(): CodeTable
      reads this
    {
      CodeTable(rows, nextId)
    }

    constructor (initial: CodeTable)
      ensures Model() == initial
    {
      rows := initial.rows;
      nextId := initial.nextId;
    }

    /** `saveVerificationCode`: a DELETE of the pair's rows, then an INSERT ... RETURNING id. */
    method Save(userId: int, code: string, kind: CodeType, nowMs: int) returns (id: nat)
      modifies this
      ensures (Model(), id) == SaveVerificationCode(old(Model()), userId, code, kind, nowMs)
    {
      rows := map k | k in rows && !ForPair(rows[k], userId, kind) :: rows[k];
      id := nextId;
      rows := rows[id := CodeRow(userId, code, kind, nowMs + CODE_LIFETIME_MS, nowMs)];
      nextId := nextId + 1;
    }

    /** `verifyCode`: a SELECT by id, then a DELETE on expiry or on a match. */
    method Verify(codeId: Option<int>, userCode: string, nowMs: int) returns (ok: bool)
      modifies this
      ensures (Model(), ok) == VerifyCode(old(Model()), codeId, userCode, nowMs)
    {
      if codeId.None? || codeId.value !in rows {
        return false;
      }
      var row := rows[codeId.value];
      if row.expiresAt < nowMs {
        rows := rows - {codeId.value};
        return false;
      }
      ok := row.code == userCode;
      if ok {
        rows := rows - {codeId.value};
      }
    }
  }

  /** Where a verification e-mail goes: the server console in development without an API key, or Resend. */
  datatype Channel = ConsoleLog | Resend(from: string)

  datatype Mail = Mail(channel: Channel, to: string, subject: string, text: string)

  function MailPrefix(kind: CodeType): string
  {
    match kind
    case TwoFactor => "Seu código de verificação é: "
    case PasswordReset => "Seu código para redefinição de senha é: "
  }

  const MAIL_SUFFIX: string := ". Este código expira em 5 minutos."

  /**
   * `sendVerificationEmail`: outside production and without a Resend key the code is only
   * logged; otherwise a message from `EMAIL_FROM` whose subject and text depend on the
   * purpose. Delivery failures are swallowed by the source, so the message is all there is.
   */
  function SendVerificationEmail(env: Env, email: string, code: string, kind: CodeType): (m: Mail)
    ensures m.to == email
    ensures m.channel.ConsoleLog? <==> !IsProduction(env) && OrElse(env.resendApiKey, "") == ""
    ensures m.channel.Resend? ==> m.channel.from == OrElse(env.emailFrom, DEFAULT_EMAIL_FROM)
    ensures m.channel.Resend? ==>
              |MailPrefix(kind)| + |code| <= |m.text| && m.text[|MailPrefix(kind)|..|MailPrefix(kind)| + |code|] == code
  {
    if !IsProduction(env) && OrElse(env.resendApiKey, "") == "" then
      Mail(ConsoleLog, email, "", "[DEV] Código de verificação para " + email + ": " + code)
    else
      var subject := if kind == TwoFactor then "Seu código de verificação" else "Recuperação de senha";
      var text := MailPrefix(kind) + code + MAIL_SUFFIX;
      assert text[|MailPrefix(kind)|..|MailPrefix(kind)| + |code|] == code;
      Mail(Resend(OrElse(env.emailFrom, DEFAULT_EMAIL_FROM)), email, subject, text)
  }

  /** Two codes of one length give two different messages: the message determines the code. */
  lemma MailDeterminesCode(env: Env, email: string, c1: string, c2: string, kind: CodeType)
    requires IsProduction(env) && |c1| == |c2|
    ensures SendVerificationEmail(env, email, c1, kind) == SendVerificationEmail(env, email, c2, kind) ==> c1 == c2
  {
    var m1 := SendVerificationEmail(env, email, c1, kind);
    var m2 := SendVerificationEmail(env, email, c2, kind);
    if m1 == m2 {
      assert c1 == m1.text[|MailPrefix(kind)|..|MailPrefix(kind)| + |c1|];
    }
  }

  /**
   * `verifyTurnstileToken`: outside production the check passes without any request;
   * in production it is the `success` field of the siteverify call (`siteverify` gives
   * it, false when the call fails).
   */
  function VerifyTurnstileToken(env: Env, token: string, siteverify: string -> bool): (ok: bool)
    ensures !IsProduction(env) ==> ok
    ensures IsProduction(env) ==> ok == siteverify(token)
  {
    if !IsProduction(env) then true else siteverify(token)
  }

  /** Outside production the answer does not depend on the remote service at all. */
  lemma TurnstileBypassedOutsideProduction(env: Env, token: string, s1: string -> bool, s2: string -> bool)
    requires !IsProduction(env)
    ensures VerifyTurnstileToken(env, token, s1) == VerifyTurnstileToken(env, token, s2) == true
  {
  }
}
