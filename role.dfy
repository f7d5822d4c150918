/** Role.cs: a named role a workflow step can be assigned to. */
module Roles {
  import opened Common

  /** The constructor's guards, in the order it runs them. */
  function RoleCheck(id: Guid, name: string): (r: Outcome)
    ensures r.Pass? <==> id != NoId && !IsNullOrWhiteSpace(name)
    ensures id == NoId ==> r == Fail(EmptyIdentifier(IdParam))
    ensures id != NoId && IsNullOrWhiteSpace(name) ==> r == Fail(BlankString(NameParam))
  {
    RequireId(id, IdParam).Then(RequireNonBlank(name, NameParam))
  }

  class Role {
    const id: Guid
    var name: string

    ghost predicate Valid()
      reads this
    {
      RoleCheck(id, name).Pass?
    }

    /** Allocation once New's guards have passed. */
    constructor (id: Guid, name: string)
      requires RoleCheck(id, name).Pass?
      ensures Valid() && this.id == id && this.name == name
    {
      this.id := id;
      this.name := name;
    }

    /** new Role(id, name): an empty id or a blank name throws. */
    static method New(id: Guid, name: string) returns (r: Result<Role>)
      ensures r.Failure? <==> RoleCheck(id, name).Fail?
      ensures r.Failure? ==> r.error == RoleCheck(id, name).error
      ensures r.Success? ==> fresh(r.value) && r.value.Valid() && r.value.id == id && r.value.name == name
    {
      var check := RoleCheck(id, name);
      if check.Fail? {
        return Failure(check.error);
      }
      var role := new Role(id, name);
      return Success(role);
    }

    /** Role.Create(name); freshId stands for Guid.NewGuid(). */
    static method Create(freshId: Guid, name: string) returns (r: Result<Role>)
      requires freshId != NoId
      ensures r.Failure? <==> IsNullOrWhiteSpace(name)
      ensures r.Failure? ==> r.error == BlankString(NameParam)
      ensures r.Success? ==> fresh(r.value) && r.value.Valid() && r.value.id == freshId && r.value.name == name
    {
      r := New(freshId, name);
    }

    /** SetName: a blank name throws and changes nothing; otherwise only Name changes. */
    method SetName(name: string) returns (res: Outcome)
      requires Valid()
      modifies this
      ensures Valid()
      ensures res == RequireNonBlank(name, NameParam)
      ensures this.name == if res.Pass? then name else old(this.name)
    {
      res := RequireNonBlank(name, NameParam);
      if res.Pass? {
        this.name := name;
      }
    }
  }
}
