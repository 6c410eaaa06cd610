/**
 * The request-body rules of registration and password reset
 * (src/joi/user.schema.ts): name lengths and the password pattern
 * `(?=.*\d)(?=.*[A-Z])[A-Za-z\d]{8,30}`, which Joi searches for anywhere
 * in the string because it is not anchored.
 */
module UserSchema {
  import opened Common
  import Text

  /** A rejection: a required key missing, or the message Joi reports. */
  datatype SchemaError = Missing(key: string) | Invalid(message: string)

  const NameEmpty := Invalid("name|The name is empty.")
  const NameShort := Invalid("name|The name cannot be less than 2 characters")
  const NameLong := Invalid("name|The name cannot be more than 30 characters")
  const PasswordEmpty := Invalid("password|The password is empty.")
  const PasswordWeak := Invalid("password|Password may have a minimum of 8 characters, including at least one capital letter and one number")

  /**
   * `Joi.string().min(2).max(30).required()` for `firstName` and
   * `lastName`. Joi measures the JavaScript length, in UTF-16 code units.
   */
  function CheckName(key: string, v: Option<string>): (r: Option<SchemaError>)
    ensures r.None? <==> v.Some? && 2 <= Text.Utf16Length(v.value) <= 30
    ensures v.None? ==> r == Some(Missing(key))
    ensures v == Some("") ==> r == Some(NameEmpty)
    ensures v.Some? && v.value != "" && Text.Utf16Length(v.value) < 2 ==> r == Some(NameShort)
    ensures v.Some? && Text.Utf16Length(v.value) > 30 ==> r == Some(NameLong)
  {
    if v.None? then Some(Missing(key))
    else if v.value == "" then Some(NameEmpty)
    else if Text.Utf16Length(v.value) < 2 then Some(NameShort)
    else if Text.Utf16Length(v.value) > 30 then Some(NameLong)
    else None
  }

  /**
   * The bounds are on code units, not characters: one emoji is a name of
   * length 2, and sixteen emoji, length 32, are too long.
   */
  lemma NameLengthInCodeUnits()
    ensures CheckName("firstName", Some("\U{1F600}")) == None
    ensures CheckName("firstName", Some("\U{1F600}\U{1F600}\U{1F600}\U{1F600}\U{1F600}\U{1F600}\U{1F600}\U{1F600}\U{1F600}\U{1F600}\U{1F600}\U{1F600}\U{1F600}\U{1F600}\U{1F600}\U{1F600}")) == Some(NameLong)
  {
    Text.Utf16LengthOfAstral("\U{1F600}");
    Text.Utf16LengthOfAstral("\U{1F600}\U{1F600}\U{1F600}\U{1F600}\U{1F600}\U{1F600}\U{1F600}\U{1F600}\U{1F600}\U{1F600}\U{1F600}\U{1F600}\U{1F600}\U{1F600}\U{1F600}\U{1F600}");
  }

  /** `[A-Za-z\d]{8}` matches at `i`: eight letters or digits start there. */
  predicate RunAt(s: string, i: int)
  {
    0 <= i && i + 8 <= |s| && forall k :: i <= k < i + 8 ==> Text.IsAlnum(s[k])
  }

  /** The lookahead `(?=.*X)` at `i`, as the engine runs it: scan right until an X or a line terminator. */
  function Ahead(s: string, i: nat, want: char -> bool): bool
    requires i <= |s|
    decreases |s| - i
  {
    if i == |s| then false
    else if want(s[i]) then true
    else if Text.IsLineTerminator(s[i]) then false
    else Ahead(s, i + 1, want)
  }

  /** The lookahead `(?=.*X)` at `i`, stated: an X at or after `i` with no line terminator before it. */
  ghost predicate Reaches(s: string, i: nat, want: char -> bool)
  {
    exists j :: i <= j < |s| && want(s[j]) && forall k :: i <= k < j ==> !Text.IsLineTerminator(s[k])
  }

  lemma {:induction false} AheadReaches(s: string, i: nat, want: char -> bool)
    requires i <= |s|
    ensures Ahead(s, i, want) <==> Reaches(s, i, want)
    decreases |s| - i
  {
    if i < |s| {
      AheadReaches(s, i + 1, want);
      if want(s[i]) {
        assert i <= i < |s| && want(s[i]);
      }
      if Reaches(s, i + 1, want) && !Text.IsLineTerminator(s[i]) {
        var j :| i + 1 <= j < |s| && want(s[j]) && forall k :: i + 1 <= k < j ==> !Text.IsLineTerminator(s[k]);
        assert forall k :: i <= k < j ==> !Text.IsLineTerminator(s[k]);
      }
      if Reaches(s, i, want) && !want(s[i]) {
        var j :| i <= j < |s| && want(s[j]) && forall k :: i <= k < j ==> !Text.IsLineTerminator(s[k]);
        assert !Text.IsLineTerminator(s[i]);
        assert Reaches(s, i + 1, want);
      }
    }
  }

  /** The whole pattern matches at `i`. */
  predicate MatchAt(s: string, i: nat)
  {
    i <= |s| && Ahead(s, i, Text.IsDigit) && Ahead(s, i, Text.IsUpper) && RunAt(s, i)
  }

  /** `regex.test(s)`: the pattern matches at some position. */
  predicate PasswordPattern(s: string)
  {
    exists i: nat :: i <= |s| && MatchAt(s, i)
  }

  /** The `password` key of both schemas. */
  function CheckPassword(v: Option<string>): (r: Option<SchemaError>)
    ensures r.None? <==> v.Some? && PasswordPattern(v.value)
    ensures v.None? ==> r == Some(Missing("password"))
    ensures v == Some("") ==> r == Some(PasswordEmpty)
    ensures v.Some? && v.value != "" && !PasswordPattern(v.value) ==> r == Some(PasswordWeak)
  {
    if v.None? then Some(Missing("password"))
    else if v.value == "" then Some(PasswordEmpty)
    else if !PasswordPattern(v.value) then Some(PasswordWeak)
    else None
  }

  /**
   * `userCreateSchema` with abortEarly: the first failing key in the order
   * email, firstName, lastName, password. The email format check is
   * library behaviour; its verdict is an input.
   */
  function CheckRegistration(emailError: Option<SchemaError>, firstName: Option<string>,
                             lastName: Option<string>, password: Option<string>): (r: Option<SchemaError>)
    ensures r.None? <==> emailError.None?
                         && firstName.Some? && 2 <= Text.Utf16Length(firstName.value) <= 30
                         && lastName.Some? && 2 <= Text.Utf16Length(lastName.value) <= 30
                         && password.Some? && PasswordPattern(password.value)
  {
    if emailError.Some? then emailError
    else if CheckName("firstName", firstName).Some? then CheckName("firstName", firstName)
    else if CheckName("lastName", lastName).Some? then CheckName("lastName", lastName)
    else CheckPassword(password)
  }

  /** `restorePassSchema`: only the password, under the same rule. */
  function CheckRestore(password: Option<string>): (r: Option<SchemaError>)
    ensures r.None? <==> password.Some? && PasswordPattern(password.value)
  {
    CheckPassword(password)
  }

  /** Every accepted password holds eight consecutive letters or digits, so it is at least 8 long. */
  lemma AcceptedHasRun(s: string)
    requires PasswordPattern(s)
    ensures exists i :: RunAt(s, i)
    ensures |s| >= 8
  {
    var i: nat :| i <= |s| && MatchAt(s, i);
    assert RunAt(s, i);
  }

  /** A password without a digit, or without an upper-case letter A-Z, is rejected. */
  lemma MissingClassRejected(s: string)
    requires (forall k :: 0 <= k < |s| ==> !Text.IsDigit(s[k])) || (forall k :: 0 <= k < |s| ==> !Text.IsUpper(s[k]))
    ensures !PasswordPattern(s)
  {
    if PasswordPattern(s) {
      var i: nat :| i <= |s| && MatchAt(s, i);
      AheadReaches(s, i, Text.IsDigit);
      AheadReaches(s, i, Text.IsUpper);
    }
  }

  /**
   * Any string of 8 or more letters and digits holding a digit and an
   * upper-case letter is accepted, 30 characters or not: the pattern is
   * not anchored, so the length bound 30 limits only the matched run.
   */
  lemma AlnumAccepted(s: string)
    requires |s| >= 8 && forall k :: 0 <= k < |s| ==> Text.IsAlnum(s[k])
    requires exists k :: 0 <= k < |s| && Text.IsDigit(s[k])
    requires exists k :: 0 <= k < |s| && Text.IsUpper(s[k])
    ensures PasswordPattern(s)
  {
    AheadReaches(s, 0, Text.IsDigit);
    AheadReaches(s, 0, Text.IsUpper);
    assert MatchAt(s, 0);
  }

  /**
   * The pattern is searched for, not anchored: characters of any kind
   * before or after an accepted password never make it rejected.
   */
  lemma SurroundingsKeepAcceptance(s: string, before: string, after: string)
    requires PasswordPattern(s)
    ensures PasswordPattern(before + s + after)
  {
    var i: nat :| i <= |s| && MatchAt(s, i);
    var w := before + s + after;
    var n := |before| + i;
    assert forall k :: 0 <= k < |s| ==> w[|before| + k] == s[k];
    AheadReaches(s, i, Text.IsDigit);
    AheadReaches(s, i, Text.IsUpper);
    AheadReaches(w, n, Text.IsDigit);
    AheadReaches(w, n, Text.IsUpper);
    var jd :| i <= jd < |s| && Text.IsDigit(s[jd]) && forall k :: i <= k < jd ==> !Text.IsLineTerminator(s[k]);
    assert Text.IsDigit(w[|before| + jd]);
    assert forall k :: n <= k < |before| + jd ==> !Text.IsLineTerminator(w[k]) by {
      forall k | n <= k < |before| + jd ensures !Text.IsLineTerminator(w[k]) {
        assert w[k] == s[k - |before|];
      }
    }
    var ju :| i <= ju < |s| && Text.IsUpper(s[ju]) && forall k :: i <= k < ju ==> !Text.IsLineTerminator(s[k]);
    assert Text.IsUpper(w[|before| + ju]);
    assert forall k :: n <= k < |before| + ju ==> !Text.IsLineTerminator(w[k]) by {
      forall k | n <= k < |before| + ju ensures !Text.IsLineTerminator(w[k]) {
        assert w[k] == s[k - |before|];
      }
    }
    assert RunAt(w, n) by {
      forall k | n <= k < n + 8 ensures Text.IsAlnum(w[k]) {
        assert w[k] == s[k - |before|];
      }
    }
    assert MatchAt(w, n);
  }

  /** The password of a typical registration, "Abcdef12", is accepted. */
  lemma TypicalPasswordAccepted()
    ensures CheckPassword(Some("Abcdef12")) == None
  {
    var t := "Abcdef12";
    assert Text.IsDigit(t[6]) && Text.IsUpper(t[0]);
    AlnumAccepted(t);
  }
}
