/** Document.cs: the candidate's submission attached to a request. */
module Documents {
  import opened Common
  import opened Emails

  /** A DateTime, as a tick count. */
  type Instant = int

  /** SetAge: a date strictly before now is refused; now itself is accepted. */
  function AgeCheck(age: Instant, now: Instant): (r: Outcome)
    ensures r.Pass? <==> now <= age
    ensures r.Fail? ==> r.error == PastDate(AgeParam)
  {
    if age < now then Fail(PastDate(AgeParam)) else Pass
  }

  /** SetExperience: a negative count is refused; zero is accepted. */
  function ExperienceCheck(experience: int): (r: Outcome)
    ensures r.Pass? <==> experience >= 0
    ensures r.Fail? ==> r.error == NegativeValue(ExperienceParam)
  {
    if experience < 0 then Fail(NegativeValue(ExperienceParam)) else Pass
  }

  /** The constructor's guards, in the order of its setter calls: name, email, age, experience. */
  function DocumentCheck(name: string, email: Option<Email>, age: Instant, experience: int, now: Instant): (r: Outcome)
    ensures r.Pass? <==> !IsNullOrWhiteSpace(name) && email.Some? && now <= age && experience >= 0
    ensures IsNullOrWhiteSpace(name) ==> r == Fail(BlankString(NameParam))
    ensures !IsNullOrWhiteSpace(name) && email.None? ==> r == Fail(NullArgument(EmailParam))
    ensures !IsNullOrWhiteSpace(name) && email.Some? && age < now ==> r == Fail(PastDate(AgeParam))
    ensures !IsNullOrWhiteSpace(name) && email.Some? && now <= age && experience < 0 ==> r == Fail(NegativeValue(ExperienceParam))
  {
    RequireNonBlank(name, NameParam)
      .Then(RequirePresent(email.Some?, EmailParam))
      .Then(AgeCheck(age, now))
      .Then(ExperienceCheck(experience))
  }

  class Document {
    var name: string
    var email: Email
    var age: Instant
    var experience: int

    /** What every setter keeps: the name is not blank and the experience not negative. */
    ghost predicate Valid()
      reads this
    {
      !IsNullOrWhiteSpace(name) && experience >= 0
    }

    /** Allocation once New's guards have passed. */
    constructor (name: string, email: Email, age: Instant, experience: int, now: Instant)
      requires DocumentCheck(name, Some(email), age, experience, now).Pass?
      ensures Valid()
      ensures this.name == name && this.email == email && this.age == age && this.experience == experience
    {
      this.name := name;
      this.email := email;
      this.age := age;
      this.experience := experience;
    }

    /** new Document(name, email, age, experience); now stands for DateTime.Now. */
    static method New(name: string, email: Option<Email>, age: Instant, experience: int, now: Instant)
      returns (r: Result<Document>)
      ensures r.Failure? <==> DocumentCheck(name, email, age, experience, now).Fail?
      ensures r.Failure? ==> r.error == DocumentCheck(name, email, age, experience, now).error
      ensures r.Success? ==> fresh(r.value) && r.value.Valid() && now <= age
      ensures r.Success? ==> r.value.name == name && Some(r.value.email) == email
      ensures r.Success? ==> r.value.age == age && r.value.experience == experience
    {
      var check := DocumentCheck(name, email, age, experience, now);
      if check.Fail? {
        return Failure(check.error);
      }
      var document := new Document(name, email.value, age, experience, now);
      return Success(document);
    }

    /** Document.Create is the constructor under another name. */
    static method Create(name: string, email: Option<Email>, age: Instant, experience: int, now: Instant)
      returns (r: Result<Document>)
      ensures r.Failure? <==> DocumentCheck(name, email, age, experience, now).Fail?
      ensures r.Failure? ==> r.error == DocumentCheck(name, email, age, experience, now).error
      ensures r.Success? ==> fresh(r.value) && r.value.Valid()
      ensures r.Success? ==> r.value.name == name && Some(r.value.email) == email
      ensures r.Success? ==> r.value.age == age && r.value.experience == experience
    {
      r := New(name, email, age, experience, now);
    }

    /** SetName: a blank name throws and changes nothing; otherwise only Name changes. */
    method SetName(name: string) returns (res: Outcome)
      requires Valid()
      modifies this
      ensures Valid()
      ensures res == RequireNonBlank(name, NameParam)
      ensures this.name == (if res.Pass? then name else old(this.name))
      ensures email == old(email) && age == old(age) && experience == old(experience)
    {
      res := RequireNonBlank(name, NameParam);
      if res.Pass? {
        this.name := name;
      }
    }

    /** SetEmail: a null email throws and changes nothing; otherwise only Email changes. */
    method SetEmail(email: Option<Email>) returns (res: Outcome)
      requires Valid()
      modifies this
      ensures Valid()
      ensures res == RequirePresent(email.Some?, EmailParam)
      ensures Some(this.email) == (if res.Pass? then email else Some(old(this.email)))
      ensures name == old(name) && age == old(age) && experience == old(experience)
    {
      res := RequirePresent(email.Some?, EmailParam);
      if res.Pass? {
        this.email := email.value;
      }
    }

    /** SetAge: a date before now throws and changes nothing; otherwise only Age changes. */
    method SetAge(age: Instant, now: Instant) returns (res: Outcome)
      requires Valid()
      modifies this
      ensures Valid()
      ensures res == AgeCheck(age, now)
      ensures this.age == (if res.Pass? then age else old(this.age))
      ensures name == old(name) && email == old(email) && experience == old(experience)
    {
      res := AgeCheck(age, now);
      if res.Pass? {
        this.age := age;
      }
    }

    /** SetExperience: a negative value throws and changes nothing; otherwise only Experience changes. */
    method SetExperience(experience: int) returns (res: Outcome)
      requires Valid()
      modifies this
      ensures Valid()
      ensures res == ExperienceCheck(experience)
      ensures this.experience == (if res.Pass? then experience else old(this.experience))
      ensures name == old(name) && email == old(email) && age == old(age)
    {
      res := ExperienceCheck(experience);
      if res.Pass? {
        this.experience := experience;
      }
    }
  }
}
