/** Email.cs: a validated, immutable e-mail address. */
module Emails {
  import opened Common

  /**
   * The constructor's guard, with its short-circuit order: the Contains test
   * comes first, so the two indexing tests only run on a non-empty string.
   */
  predicate IsEmailValue(s: string) {
    ('@' in s) && !(s[|s| - 1] == '@' || s[0] == '@')
  }

  /** Value is init-only in the source, so an address is a value. */
  datatype EmailAddress = Email(value: string)

  /** The only way to obtain an Email is its constructor, so every Email passes the guard. */
  type Email = e: EmailAddress | IsEmailValue(e.value) witness Email("a@b")

  /** new Email(value). */
  function NewEmail(value: string): (r: Result<Email>)
    ensures r.Success? <==> IsEmailValue(value)
    ensures r.Success? ==> r.value.value == value
    ensures r.Failure? ==> r.error == InvalidEmail
  {
    if !IsEmailValue(value) then Failure(InvalidEmail)
    else
      var email: Email := Email(value);
      Success(email)
  }

  /**
   * An independent reading of the guard: the value splits as local + "@" + domain
   * with both parts non-empty, the local part not starting and the domain part
   * not ending with '@'.
   */
  lemma {:induction false} EmailAcceptedIffSplits(s: string)
    ensures NewEmail(s).Success? <==>
      exists i :: 0 < i < |s| - 1 && s[i] == '@' && s[0] != '@' && s[|s| - 1] != '@'
  {
    if NewEmail(s).Success? {
      var i :| 0 <= i < |s| && s[i] == '@';
      assert 0 < i < |s| - 1;
    }
  }

  /** The constructor gives back every Email unchanged from its own value. */
  lemma EmailRoundTrip(e: Email)
    ensures NewEmail(e.value).Success? && NewEmail(e.value).value == e
  {
  }

  /** Every accepted value has at least three characters. */
  lemma {:induction false} AcceptedEmailLength(s: string)
    requires NewEmail(s).Success?
    ensures |s| >= 3
  {
    EmailAcceptedIffSplits(s);
  }

  lemma EmailEdgeCases()
    ensures NewEmail("") == Failure(InvalidEmail)
    ensures NewEmail("@") == Failure(InvalidEmail)
    ensures NewEmail("a@") == Failure(InvalidEmail)
    ensures NewEmail("@a") == Failure(InvalidEmail)
    ensures NewEmail("a@b").Success? && NewEmail("a@b").value.value == "a@b"
  {
    assert "a@b"[1] == '@';
  }
}
