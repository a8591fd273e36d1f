/** The classifier that turns an identity-provider exception into the message the
    auth screen shows (`parse_auth_error`). The exception is represented by its
    string form `str(e)`. */
module AuthErrors {
  import opened Wrappers
  import opened Text

  /** One line of the classifier: the provider error codes it looks for and the
      message it produces when any of them occurs in the exception text. */
  datatype Rule = Rule(codes: seq<string>, text: string)

  /** The classifier's lines, in the order they are tried. */
  const Rules: seq<Rule> := [
    Rule(["EMAIL_EXISTS"], "Email already in use."),
    Rule(["EMAIL_NOT_FOUND"], "No account for this email."),
    Rule(["INVALID_PASSWORD", "INVALID_LOGIN_CREDENTIALS"], "Wrong password."),
    Rule(["USER_DISABLED"], "This account is disabled."),
    Rule(["PASSWORD_LOGIN_DISABLED"], "Password login is disabled for this project.")
  ]

  /** The text shown for an exception that no line recognises. */
  const FallbackPrefix: string := "Auth error: "

  predicate Matches(rule: Rule, s: string) {
    exists code :: code in rule.codes && Contains(s, code)
  }

  /** Reference reading of the classifier: the message of the first line that
      matches, if any. */
  function FirstMatch(rules: seq<Rule>, s: string): (r: Option<string>)
    ensures r.None? <==> forall j :: 0 <= j < |rules| ==> !Matches(rules[j], s)
  {
    if rules == [] then None
    else if Matches(rules[0], s) then Some(rules[0].text)
    else
      var r := FirstMatch(rules[1..], s);
      assert forall j :: 1 <= j < |rules| ==> rules[j] == rules[1..][j - 1];
      r
  }

  /** In the reference reading the first matching line wins. */
  lemma {:induction false} FirstMatchIsFirst(rules: seq<Rule>, s: string, k: nat)
    requires k < |rules| && Matches(rules[k], s)
    requires forall j :: 0 <= j < k ==> !Matches(rules[j], s)
    ensures FirstMatch(rules, s) == Some(rules[k].text)
  {
    if k > 0 {
      assert !Matches(rules[0], s);
      FirstMatchIsFirst(rules[1..], s, k - 1);
    }
  }

  /** `parse_auth_error`: substring tests on the exception text, first hit wins,
      otherwise the raw text behind a fixed prefix. */
  function ParseAuthError(s: string): (r: string)
    ensures r != []
    ensures r == FallbackPrefix + s || exists k :: 0 <= k < |Rules| && r == Rules[k].text
  {
    if Contains(s, "EMAIL_EXISTS") then
      assert Rules[0].text == "Email already in use.";
      "Email already in use."
    else if Contains(s, "EMAIL_NOT_FOUND") then
      assert Rules[1].text == "No account for this email.";
      "No account for this email."
    else if Contains(s, "INVALID_PASSWORD") || Contains(s, "INVALID_LOGIN_CREDENTIALS") then
      assert Rules[2].text == "Wrong password.";
      "Wrong password."
    else if Contains(s, "USER_DISABLED") then
      assert Rules[3].text == "This account is disabled.";
      "This account is disabled."
    else if Contains(s, "PASSWORD_LOGIN_DISABLED") then
      assert Rules[4].text == "Password login is disabled for this project.";
      "Password login is disabled for this project."
    else
      FallbackPrefix + s
  }

  /** Written out per line, "line k of the classifier matches". */
  lemma MatchesRule(s: string)
    ensures Matches(Rules[0], s) <==> Contains(s, "EMAIL_EXISTS")
    ensures Matches(Rules[1], s) <==> Contains(s, "EMAIL_NOT_FOUND")
    ensures Matches(Rules[2], s) <==>
              Contains(s, "INVALID_PASSWORD") || Contains(s, "INVALID_LOGIN_CREDENTIALS")
    ensures Matches(Rules[3], s) <==> Contains(s, "USER_DISABLED")
    ensures Matches(Rules[4], s) <==> Contains(s, "PASSWORD_LOGIN_DISABLED")
  {
    assert Rules[2].codes[0] == "INVALID_PASSWORD" && Rules[2].codes[1] == "INVALID_LOGIN_CREDENTIALS";
  }

  /** The classifier agrees with its reference reading: the first matching line's
      message, or the fallback text. */
  lemma {:induction false} ParseAuthErrorIsFirstMatch(s: string)
    ensures ParseAuthError(s) == match FirstMatch(Rules, s)
                                 case Some(text) => text
                                 case None => FallbackPrefix + s
  {
    MatchesRule(s);
    if Matches(Rules[0], s) {
      FirstMatchIsFirst(Rules, s, 0);
    } else if Matches(Rules[1], s) {
      FirstMatchIsFirst(Rules, s, 1);
    } else if Matches(Rules[2], s) {
      FirstMatchIsFirst(Rules, s, 2);
    } else if Matches(Rules[3], s) {
      FirstMatchIsFirst(Rules, s, 3);
    } else if Matches(Rules[4], s) {
      FirstMatchIsFirst(Rules, s, 4);
    }
  }

  /** No two lines share a message, and no line's message looks like a fallback. */
  lemma MessagesDistinct(s: string)
    ensures forall j, k :: 0 <= j < k < |Rules| ==> Rules[j].text != Rules[k].text
    ensures forall k :: 0 <= k < |Rules| ==> Rules[k].text != FallbackPrefix + s
  {
    assert (FallbackPrefix + s)[0] == 'A';
  }

  /** First match wins: the classifier produces line k's message exactly when
      line k matches and no earlier line does. */
  lemma {:induction false} FirstMatchWins(s: string, k: nat)
    requires k < |Rules|
    ensures ParseAuthError(s) == Rules[k].text <==>
              Matches(Rules[k], s) && forall j :: 0 <= j < k ==> !Matches(Rules[j], s)
  {
    MatchesRule(s);
    MessagesDistinct(s);
  }

  /** An exception text that no line recognises is shown verbatim behind
      "Auth error: ", and only such a text is. */
  lemma {:induction false} FallbackExactlyWhenUnrecognised(s: string)
    ensures ParseAuthError(s) == FallbackPrefix + s <==>
              forall j :: 0 <= j < |Rules| ==> !Matches(Rules[j], s)
  {
    MatchesRule(s);
    MessagesDistinct(s);
  }

  /** "EMAIL_EXISTS" outranks every other code. */
  lemma {:induction false} EmailExistsOutranks(s: string)
    requires Contains(s, "EMAIL_EXISTS")
    ensures ParseAuthError(s) == "Email already in use."
  {
    FirstMatchWins(s, 0);
    MatchesRule(s);
  }

  /** "Wrong password." is produced exactly for texts carrying INVALID_PASSWORD or
      INVALID_LOGIN_CREDENTIALS and neither EMAIL_EXISTS nor EMAIL_NOT_FOUND. */
  lemma {:induction false} WrongPasswordExactly(s: string)
    ensures ParseAuthError(s) == "Wrong password." <==>
              (Contains(s, "INVALID_PASSWORD") || Contains(s, "INVALID_LOGIN_CREDENTIALS")) &&
              !Contains(s, "EMAIL_EXISTS") && !Contains(s, "EMAIL_NOT_FOUND")
  {
    FirstMatchWins(s, 2);
    MatchesRule(s);
  }

  /** A text in which the underscore never occurs carries none of the provider's
      codes, so it is shown behind the fallback prefix. */
  lemma {:induction false} NoUnderscoreFallsBack(s: string)
    requires '_' !in s
    ensures ParseAuthError(s) == FallbackPrefix + s
  {
    NotContainsWhenCharAbsent(s, "EMAIL_EXISTS", '_');
    NotContainsWhenCharAbsent(s, "EMAIL_NOT_FOUND", '_');
    NotContainsWhenCharAbsent(s, "INVALID_PASSWORD", '_');
    NotContainsWhenCharAbsent(s, "INVALID_LOGIN_CREDENTIALS", '_');
    NotContainsWhenCharAbsent(s, "USER_DISABLED", '_');
    NotContainsWhenCharAbsent(s, "PASSWORD_LOGIN_DISABLED", '_');
  }
}
