/** User.cs: a person who owns requests and acts on workflow steps. */
module Users {
  import opened Common
  import opened Emails

  /**
   * The constructor's guards, in the order it runs them: id, then SetName,
   * SetEmail and Role. email is None for a null Email reference. The empty
   * id is reported against the parameter "name", as User.cs does.
   */
  function UserCheck(id: Guid, name: string, email: Option<Email>, roleId: Guid): (r: Outcome)
    ensures r.Pass? <==> id != NoId && !IsNullOrWhiteSpace(name) && email.Some? && roleId != NoId
    ensures id == NoId ==> r == Fail(EmptyIdentifier(NameParam))
    ensures id != NoId && IsNullOrWhiteSpace(name) ==> r == Fail(BlankString(NameParam))
    ensures id != NoId && !IsNullOrWhiteSpace(name) && email.None? ==> r == Fail(NullArgument(EmailParam))
    ensures id != NoId && !IsNullOrWhiteSpace(name) && email.Some? && roleId == NoId ==> r == Fail(EmptyIdentifier(RoleIdParam))
  {
    RequireId(id, NameParam)
      .Then(RequireNonBlank(name, NameParam))
      .Then(RequirePresent(email.Some?, EmailParam))
      .Then(RequireId(roleId, RoleIdParam))
  }

  class User {
    const id: Guid
    var name: string
    var email: Email
    var roleId: Guid

    ghost predicate Valid()
      reads this
    {
      UserCheck(id, name, Some(email), roleId).Pass?
    }

    /** Allocation once New's guards have passed. */
    constructor (id: Guid, name: string, email: Email, roleId: Guid)
      requires UserCheck(id, name, Some(email), roleId).Pass?
      ensures Valid()
      ensures this.id == id && this.name == name && this.email == email && this.roleId == roleId
    {
      this.id := id;
      this.name := name;
      this.email := email;
      this.roleId := roleId;
    }

    /** new User(id, name, email, roleId). */
    static method New(id: Guid, name: string, email: Option<Email>, roleId: Guid) returns (r: Result<User>)
      ensures r.Failure? <==> UserCheck(id, name, email, roleId).Fail?
      ensures r.Failure? ==> r.error == UserCheck(id, name, email, roleId).error
      ensures r.Success? ==> fresh(r.value) && r.value.Valid() && email.Some?
      ensures r.Success? ==> r.value.id == id && r.value.name == name && Some(r.value.email) == email && r.value.roleId == roleId
    {
      var check := UserCheck(id, name, email, roleId);
      if check.Fail? {
        return Failure(check.error);
      }
      var user := new User(id, name, email.value, roleId);
      return Success(user);
    }

    /** User.Create(name, email, roleId); freshId stands for Guid.NewGuid(). */
    static method Create(freshId: Guid, name: string, email: Option<Email>, roleId: Guid) returns (r: Result<User>)
      requires freshId != NoId
      ensures r.Failure? <==> IsNullOrWhiteSpace(name) || email.None? || roleId == NoId
      ensures r.Failure? ==> r.error == UserCheck(freshId, name, email, roleId).error
      ensures r.Success? ==> fresh(r.value) && r.value.Valid() && r.value.id == freshId && r.value.id != NoId
      ensures r.Success? ==> r.value.name == name && Some(r.value.email) == email && r.value.roleId == roleId
    {
      r := New(freshId, name, email, roleId);
    }

    /** SetName: a blank name throws and changes nothing; otherwise only Name changes. */
    method SetName(name: string) returns (res: Outcome)
      requires Valid()
      modifies this
      ensures Valid()
      ensures res == RequireNonBlank(name, NameParam)
      ensures this.name == (if res.Pass? then name else old(this.name))
      ensures email == old(email) && roleId == old(roleId)
    {
      res := RequireNonBlank(name, NameParam);
      if res.Pass? {
        this.name := name;
      }
    }

    /** SetEmail: a null email throws and changes nothing; otherwise only Email changes. */
    method SetEmail(email: Option<Email>) returns (res: Outcome)
      requires Valid()
      modifies this
      ensures Valid()
      ensures res == RequirePresent(email.Some?, EmailParam)
      ensures Some(this.email) == (if res.Pass? then email else Some(old(this.email)))
      ensures name == old(name) && roleId == old(roleId)
    {
      res := RequirePresent(email.Some?, EmailParam);
      if res.Pass? {
        this.email := email.value;
      }
    }

    /** Role(roleId): an empty role id throws and changes nothing; otherwise only RoleId changes. */
    method Role(roleId: Guid) returns (res: Outcome)
      requires Valid()
      modifies this
      ensures Valid()
      ensures res == RequireId(roleId, RoleIdParam)
      ensures this.roleId == (if res.Pass? then roleId else old(this.roleId))
      ensures name == old(name) && email == old(email)
    {
      res := RequireId(roleId, RoleIdParam);
      if res.Pass? {
        this.roleId := roleId;
      }
    }
  }
}
