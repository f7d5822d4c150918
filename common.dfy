/**
 * Shared vocabulary of the domain layer: identifiers, the error kinds the
 * entities raise, the failure-carrying wrappers, and the string and guard
 * checks every constructor and setter is built from.
 */
module Common {

  /** A Guid. The value 0 stands for Guid.Empty. */
  type Guid = nat

  const NoId: Guid := 0

  datatype Option<T> = None | Some(value: T)

  /** The outcome of a constructor: the new entity, or the first argument check that failed. */
  datatype Result<T> = Success(value: T) | Failure(error: Error)

  /** The outcome of a setter or a command: it either went through or raised an error. */
  datatype Outcome = Pass | Fail(error: Error) {
    /** Runs the checks one after another: the first failing one wins. */
    function Then(next: Outcome): (r: Outcome)
      ensures r.Pass? <==> Pass? && next.Pass?
      ensures Fail? ==> r == this
      ensures Pass? ==> r == next
    {
      if Fail? then this else next
    }
  }

  /** The argument an error is about. */
  datatype Param =
    | IdParam | RequestIdParam | WorkflowTemplateIdParam | UserIdParam | RoleIdParam
    | NameParam | CommentParam | DataParam | ValueParam
    | EmailParam | AgeParam | ExperienceParam
    | UserParam | DocumentParam | WorkflowParam | StepsParam

  /** The exceptions the domain layer raises, by kind. */
  datatype Error =
    | EmptyIdentifier(param: Param)  // ArgumentException: a Guid argument is Guid.Empty
    | BlankString(param: Param)      // ArgumentException: string.IsNullOrEmpty / IsNullOrWhiteSpace
    | NullArgument(param: Param)     // ArgumentNullException.ThrowIfNull
    | NegativeValue(param: Param)    // ArgumentException: a count below zero
    | PastDate(param: Param)         // ArgumentException: a date before "now"
    | InvalidEmail                   // ArgumentException from the Email constructor
    | NoPendingStep                  // ArgumentException: no step is Pending
    | MissingActor                   // NullReferenceException: SetStatus on a null user

  /** char.IsWhiteSpace: the characters of the Unicode classes Zs, Zl and Zp, plus U+0009..U+000D and U+0085. */
  predicate IsWhiteSpace(c: char) {
    c == ' ' || ('\t' <= c <= '\r') || c == '\U{85}' || c == '\U{A0}' || c == '\U{1680}'
    || ('\U{2000}' <= c <= '\U{200A}') || c == '\U{2028}' || c == '\U{2029}'
    || c == '\U{202F}' || c == '\U{205F}' || c == '\U{3000}'
  }

  /** string.IsNullOrEmpty (a null string is modelled as ""). */
  predicate IsNullOrEmpty(s: string) {
    |s| == 0
  }

  /** string.IsNullOrWhiteSpace (a null string is modelled as ""). */
  predicate IsNullOrWhiteSpace(s: string) {
    forall i :: 0 <= i < |s| ==> IsWhiteSpace(s[i])
  }

  /** A Guid argument that must not be Guid.Empty. */
  function RequireId(id: Guid, p: Param): (r: Outcome)
    ensures r.Pass? <==> id != NoId
    ensures r.Fail? ==> r.error == EmptyIdentifier(p)
  {
    if id == NoId then Fail(EmptyIdentifier(p)) else Pass
  }

  /** A string argument checked with string.IsNullOrEmpty. */
  function RequireNonEmpty(s: string, p: Param): (r: Outcome)
    ensures r.Pass? <==> |s| > 0
    ensures r.Fail? ==> r.error == BlankString(p)
  {
    if IsNullOrEmpty(s) then Fail(BlankString(p)) else Pass
  }

  /** A string argument checked with string.IsNullOrWhiteSpace. */
  function RequireNonBlank(s: string, p: Param): (r: Outcome)
    ensures r.Pass? <==> exists i :: 0 <= i < |s| && !IsWhiteSpace(s[i])
    ensures r.Fail? ==> r.error == BlankString(p)
  {
    if IsNullOrWhiteSpace(s) then Fail(BlankString(p)) else Pass
  }

  /** ArgumentNullException.ThrowIfNull on an argument; present tells whether it is non-null. */
  function RequirePresent(present: bool, p: Param): (r: Outcome)
    ensures r.Pass? <==> present
    ensures r.Fail? ==> r.error == NullArgument(p)
  {
    if present then Pass else Fail(NullArgument(p))
  }

  /** The two string checks differ exactly on non-empty, all-whitespace strings. */
  lemma NonEmptyWeakerThanNonBlank(s: string, p: Param)
    ensures RequireNonBlank(s, p).Pass? ==> RequireNonEmpty(s, p).Pass?
    ensures RequireNonEmpty(s, p).Pass? && RequireNonBlank(s, p).Fail? <==> |s| > 0 && IsNullOrWhiteSpace(s)
  {
  }

  lemma WhiteSpaceOnlyExample()
    ensures RequireNonEmpty(" ", NameParam) == Pass
    ensures RequireNonBlank(" ", NameParam) == Fail(BlankString(NameParam))
    ensures RequireNonBlank("\t\n", NameParam) == Fail(BlankString(NameParam))
  {
  }
}
