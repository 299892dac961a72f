/** The Person/Passport association (PersonAggregate): a person gets at most
    one passport, and keeps its own copy of it. Dates are day numbers; "today"
    is a parameter. */
module PersonAggregate {
  import opened Common
  import opened Text

  /** The errors of `new Passport(number, expiration)`, in the order it
      checks, on the day `today`. */
  function PassportArgumentsError(number: Option<string>, expiration: int, today: int): Option<Exception> {
    if IsNullOrWhiteSpace(number) then Some(Argument("number"))
    else if expiration <= today then Some(ArgumentOutOfRange("expiration"))
    else None
  }

  class Passport {
    const number: string
    const expiration: int

    /** The number has content. */
    ghost predicate Valid() {
      !IsBlank(number)
    }

    constructor (number: string, expiration: int)
      requires !IsBlank(number)
      ensures Valid() && this.number == number && this.expiration == expiration
    {
      this.number := number;
      this.expiration := expiration;
    }

    /** `new Passport(number, expiration)` on day `today`: a null, empty or
        blank number throws ArgumentException, then an expiration that is not
        after today throws ArgumentOutOfRangeException; otherwise a passport
        with that number and expiration. */
    static method Create(number: Option<string>, expiration: int, today: int) returns (r: Result<Passport>)
      ensures IsNullOrWhiteSpace(number) ==> r == Err(Argument("number"))
      ensures !IsNullOrWhiteSpace(number) && expiration <= today ==> r == Err(ArgumentOutOfRange("expiration"))
      ensures r.Ok? <==> PassportArgumentsError(number, expiration, today).None?
      ensures r.Ok? ==> (fresh(r.value) && r.value.Valid() &&
                Some(r.value.number) == number && r.value.expiration == expiration &&
                r.value.expiration > today)
    {
      if IsNullOrWhiteSpace(number) {
        return Err(Argument("number"));
      }
      if expiration <= today {
        return Err(ArgumentOutOfRange("expiration"));
      }
      var p := new Passport(number.value, expiration);
      return Ok(p);
    }
  }

  class Person {
    const name: string
    /** Readable by anyone, set only by IssuePassport. */
    var passport: Passport?

    /** The name has content and a passport held is valid. */
    ghost predicate Valid()
      reads this
    {
      !IsBlank(name) && (passport != null ==> passport.Valid())
    }

    constructor (name: string)
      requires !IsBlank(name)
      ensures Valid() && this.name == name && passport == null
    {
      this.name := name;
      passport := null;
    }

    /** `new Person(name)`: a null or blank name throws ArgumentException;
        otherwise a person without passport. */
    static method Create(name: Option<string>) returns (r: Result<Person>)
      ensures r.Err? <==> IsNullOrWhiteSpace(name)
      ensures r.Err? ==> r.error == Argument("name")
      ensures r.Ok? ==> fresh(r.value) && r.value.Valid() && Some(r.value.name) == name && r.value.passport == null
    {
      if IsNullOrWhiteSpace(name) {
        return Err(Argument("name"));
      }
      var p := new Person(name.value);
      return Ok(p);
    }

    /** `Person.IssuePassport(passport)` on day `today`: null throws
        ArgumentNullException, a person who already has a passport throws
        InvalidOperationException; otherwise the person stores a new passport
        built from the given one's number and expiration, which re-checks them
        and throws if the passport expired in the meantime. Any failure leaves
        the person as it was. */
    method IssuePassport(given: Passport?, today: int) returns (r: Outcome)
      requires Valid()
      requires given != null ==> given.Valid()
      modifies this
      ensures Valid()
      ensures given == null ==> r == Fail(ArgumentNull("passport"))
      ensures given != null && old(passport) != null ==> r == Fail(InvalidOperation)
      ensures given != null && old(passport) == null ==>
                (r.Pass? <==> given.expiration > today) &&
                (r.Fail? ==> r.error == ArgumentOutOfRange("expiration"))
      ensures r.Fail? ==> passport == old(passport)
      ensures r.Pass? ==> (fresh(passport) && passport != given &&
                passport.number == given.number && passport.expiration == given.expiration)
    {
      if given == null {
        return Fail(ArgumentNull("passport"));
      }
      if passport != null {
        return Fail(InvalidOperation);
      }
      var copy := Passport.Create(Some(given.number), given.expiration, today);
      match copy
      case Err(e) =>
        r := Fail(e);
      case Ok(p) =>
        passport := p;
        r := Pass;
    }
  }

  /** PersonPassportEncapsulationSp.IssuePassport_deve_falhar_quando_ja_possui:
      once a passport is issued, a second one is refused and the first kept. */
  method SecondPassportRefused(person: Person, first: Passport, second: Passport, today: int)
    returns (r1: Outcome, r2: Outcome)
    requires person.Valid() && person.passport == null
    requires first.Valid() && second.Valid() && first.expiration > today
    modifies person
    ensures r1 == Pass && r2 == Fail(InvalidOperation)
    ensures person.passport != null && person.passport.number == first.number
  {
    r1 := person.IssuePassport(first, today);
    r2 := person.IssuePassport(second, today);
  }
}
