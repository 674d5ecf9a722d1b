/** The two purposes a verification code or a verification token can have. */
module Purpose {

  /** The `"2FA" | "PASSWORD_RESET"` union of the source. */
  datatype CodeType = TwoFactor | PasswordReset

  /** The text the database column and the token claim hold. */
  function Tag(t: CodeType): (s: string)
  {
    match t
    case TwoFactor => "2FA"
    case PasswordReset => "PASSWORD_RESET"
  }

  /** Distinct purposes are stored under distinct tags. */
  lemma TagInjective(a: CodeType, b: CodeType)
    ensures Tag(a) == Tag(b) <==> a == b
  {
    assert |Tag(TwoFactor)| != |Tag(PasswordReset)|;
  }
}
