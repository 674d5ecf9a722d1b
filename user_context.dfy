/** The greeting helpers of the client-side user context: the first name shown in the interface. */
module UserContext {
  import opened Wrappers

  /** The fallback shown when no name is known. */
  const DEFAULT_NAME: string := "Usuário"

  /** The user record the context holds, as returned by `GET /api/v1/user`. */
  datatype ContextUser = ContextUser(name: Option<string>, role: string)

  /** `s.split(" ")[0]`: the part of `s` before its first space, or all of `s`. */
  function FirstWord(s: string): (r: string)
    ensures r <= s
    ensures ' ' !in r
    ensures |r| < |s| ==> s[|r|] == ' '
  {
    if s == [] then []
    else if s[0] == ' ' then []
    else [s[0]] + FirstWord(s[1..])
  }

  /** `extractFirstName`: the fallback for an absent or empty name, else the first word. */
  function ExtractFirstName(fullName: Option<string>): (r: string)
    ensures fullName.None? || fullName.value == "" ==> r == DEFAULT_NAME
    ensures fullName.Some? && fullName.value != "" ==>
              r <= fullName.value && ' ' !in r && (|r| < |fullName.value| ==> fullName.value[|r|] == ' ')
  {
    if fullName.None? || fullName.value == "" then DEFAULT_NAME else FirstWord(fullName.value)
  }

  /** `getFirstName`: the fallback when there is no user or no name, else the user's first name. */
  function GetFirstName(user: Option<ContextUser>): (r: string)
    ensures user.None? || user.value.name.None? || user.value.name.value == "" ==> r == DEFAULT_NAME
    ensures user.Some? ==> r == ExtractFirstName(user.value.name)
  {
    if user.None? || user.value.name.None? || user.value.name.value == "" then DEFAULT_NAME
    else ExtractFirstName(user.value.name)
  }

  /** The first word is the longest space-free prefix: any space-free prefix is no longer. */
  lemma {:induction false} FirstWordLongest(s: string, p: string)
    requires p <= s && ' ' !in p
    ensures p <= FirstWord(s)
  {
    if p != [] {
      assert s[0] == p[0];
      FirstWordLongest(s[1..], p[1..]);
    }
  }

  /** A name that starts with a space has an empty first name, not the fallback. */
  lemma LeadingSpaceGivesEmpty(name: string)
    requires name != "" && name[0] == ' '
    ensures ExtractFirstName(Some(name)) == ""
  {
  }

  /** A name without spaces is shown whole. */
  lemma {:induction false} NoSpaceShownWhole(name: string)
    requires name != "" && ' ' !in name
    ensures ExtractFirstName(Some(name)) == name
  {
    FirstWordLongest(name, name);
  }
}
