/** The Category entity (Category/Category.cs): identity by CategoryId, a
    fixed name and an optional description that is either meaningful text or
    null. */
module Categories {
  import opened Common
  import opened Text
  import opened Guards

  const DefaultName := "Uncategorized"

  /** The errors of `new Category(categoryId, name)`, in the order it checks. */
  function CategoryArgumentsError(categoryId: int, name: Option<string>): Option<Exception> {
    if categoryId < 0 then Some(ArgumentOutOfRange("categoryId"))
    else if name.None? then Some(ArgumentNull("name"))
    else None
  }

  /** The text of `Category.ToString()`; an absent description reads "N/A". */
  function Format(categoryId: nat, name: string, description: Option<string>): string {
    FormatHead + (NatToString(categoryId) + FormatTail(name, description))
  }

  const FormatHead := "Category [Id: "

  /** What follows the id in `Category.ToString()`. */
  function FormatTail(name: string, description: Option<string>): (r: string)
    ensures r != [] && r[0] == ','
  {
    ", Name: " + name + ", Description: " + DescriptionText(description) + "]"
  }

  function DescriptionText(description: Option<string>): string {
    match description
    case Some(d) => d
    case None => "N/A"
  }

  class Category {
    /** int in the source; the constructor refuses negative values. */
    const categoryId: nat
    const name: string
    var description: Option<string>

    /** The description is never blank: null or text with content. */
    ghost predicate Valid()
      reads this
    {
      description.Some? ==> !IsBlank(description.value)
    }

    constructor (categoryId: nat, name: string)
      ensures Valid()
      ensures this.categoryId == categoryId && this.name == name && description == None
    {
      this.categoryId := categoryId;
      this.name := name;
      description := None;
    }

    /** `new Category(categoryId, name)`: a negative id throws
        ArgumentOutOfRangeException, then a null name throws
        ArgumentNullException; otherwise a category without description. */
    static method Create(categoryId: int, name: Option<string>) returns (r: Result<Category>)
      ensures categoryId < 0 ==> r == Err(ArgumentOutOfRange("categoryId"))
      ensures categoryId >= 0 && name.None? ==> r == Err(ArgumentNull("name"))
      ensures r.Err? <==> CategoryArgumentsError(categoryId, name).Some?
      ensures r.Ok? ==> (fresh(r.value) && r.value.Valid() &&
                r.value.categoryId == categoryId && Some(r.value.name) == name &&
                r.value.description == None)
    {
      if categoryId < 0 {
        return Err(ArgumentOutOfRange("categoryId"));
      }
      var checked := AgainstNull(name, "name");
      if checked.Err? {
        return Err(checked.error);
      }
      var c := new Category(categoryId, checked.value);
      return Ok(c);
    }

    /** `Category.Default`: every access builds a new category 0 named
        "Uncategorized" with no description. */
    static method Default() returns (c: Category)
      ensures fresh(c) && c.Valid()
      ensures c.categoryId == 0 && c.name == DefaultName && c.description == None
    {
      c := new Category(0, DefaultName);
    }

    /** `Category.SetDescription`: text with content is kept verbatim (not
        trimmed); null, empty and white-space-only text clear the description. */
    method SetDescription(d: Option<string>)
      modifies this
      ensures Valid()
      ensures description == NonBlankOrNull(d)
      ensures !IsNullOrWhiteSpace(d) ==> description == d
      ensures IsNullOrWhiteSpace(d) ==> description == None
    {
      var (ok, result) := TryParseNonEmpty(d);
      if ok {
        description := result;
      } else {
        description := None;
      }
    }

    /** `Category.Equals(object? obj)`: equal exactly to categories with the
        same id, whatever their name or description. */
    function Equals(obj: Object<Category>): bool {
      match obj
      case Instance(other) => categoryId == other.categoryId
      case _ => false
    }

    /** `Category.GetHashCode()`: int's hash, which is the value itself. */
    function HashCode(): int {
      categoryId
    }

    /** `Category.ToString()`. */
    function ToString(): string
      reads this
    {
      Format(categoryId, name, description)
    }
  }

  /** Two categories are equal exactly when their ids agree, whatever their
      names and descriptions; Equals is reflexive and symmetric, refuses null
      and other classes, and equal categories hash alike. */
  lemma EqualsConsistentWithHash(a: Category, b: Category)
    ensures a.Equals(Instance(b)) <==> a.categoryId == b.categoryId
    ensures a.Equals(Instance(a))
    ensures a.Equals(Instance(b)) <==> b.Equals(Instance(a))
    ensures !a.Equals(Null) && !a.Equals(Foreign)
    ensures a.Equals(Instance(b)) <==> a.HashCode() == b.HashCode()
  {
  }

  /** The text starts with the id: two categories whose texts coincide have the
      same id. */
  lemma {:induction false} FormatDeterminesId(a: nat, nameA: string, descA: Option<string>,
                                             b: nat, nameB: string, descB: Option<string>)
    requires Format(a, nameA, descA) == Format(b, nameB, descB)
    ensures a == b
  {
    var x := NatToString(a) + FormatTail(nameA, descA);
    var y := NatToString(b) + FormatTail(nameB, descB);
    assert (FormatHead + x)[|FormatHead|..] == x;
    assert (FormatHead + y)[|FormatHead|..] == y;
    LeadingDigitsOf(NatToString(a), FormatTail(nameA, descA));
    LeadingDigitsOf(NatToString(b), FormatTail(nameB, descB));
    NatToStringRoundTrip(a);
    NatToStringRoundTrip(b);
  }

  /** CategorySpecs.Default_ChamadasMultiplas_DevemRetornarInstanciasDiferentes:
      two reads of Default are different objects that are equal. */
  method DefaultsAreDistinctButEqual() returns (first: Category, second: Category)
    ensures first != second
    ensures first.Equals(Instance(second)) && first.HashCode() == second.HashCode()
  {
    first := Category.Default();
    second := Category.Default();
  }
}
