/** The Product entity (Product/Product.cs): a required name, a product code
    that is never null, notes that read "" when absent, an optional
    description, and a category loaded lazily on first access. */
module Products {
  import opened Common
  import opened Text
  import opened Guards
  import opened Categories

  class Product {
    const name: string
    var description: Option<string>
    var productCode: string
    var notes: string
    /** `_category`: null until the Category property is first read. */
    var category: Category?

    /** The code is always trimmed and the description never blank. */
    ghost predicate Valid()
      reads this
    {
      IsTrimmed(productCode) &&
      (description.Some? ==> !IsBlank(description.value))
    }

    constructor (name: string)
      ensures Valid()
      ensures this.name == name && description == None
      ensures productCode == "" && notes == "" && category == null
    {
      this.name := name;
      description := None;
      productCode := "";
      notes := "";
      category := null;
    }

    /** `new Product(name)`: a null name throws ArgumentNullException
        ("name"); otherwise a product with empty code and notes, no
        description and no category loaded yet. */
    static method Create(name: Option<string>) returns (r: Result<Product>)
      ensures r.Err? <==> name.None?
      ensures r.Err? ==> r.error == ArgumentNull("name")
      ensures r.Ok? ==> (fresh(r.value) && r.value.Valid() && Some(r.value.name) == name &&
                r.value.description == None && r.value.productCode == "" &&
                r.value.notes == "" && r.value.category == null)
    {
      var checked := AgainstNull(name, "name");
      if checked.Err? {
        return Err(checked.error);
      }
      var p := new Product(checked.value);
      return Ok(p);
    }

    /** `Product.SetProductCode(code)`: a null code throws
        ArgumentNullException ("code") and keeps the old code; otherwise the
        code becomes the trimmed text, so a blank code becomes "". */
    method SetProductCode(code: Option<string>) returns (r: Outcome)
      requires Valid()
      modifies this
      ensures Valid()
      ensures code.None? ==> r == Fail(ArgumentNull("code")) && productCode == old(productCode)
      ensures code.Some? ==> r == Pass && productCode == Trim(code.value)
      ensures code.Some? ==> (productCode == [] <==> IsBlank(code.value))
      ensures description == old(description) && notes == old(notes) && category == old(category)
    {
      var checked := AgainstNull(code, "code");
      if checked.Err? {
        return Fail(checked.error);
      }
      var t := Trim(checked.value);
      productCode := t;
      return Pass;
    }

    /** The `Notes` setter: null is stored as "". */
    method SetNotes(value: Option<string>)
      requires Valid()
      modifies this
      ensures Valid()
      ensures value.None? ==> notes == ""
      ensures value.Some? ==> notes == value.value
      ensures description == old(description) && productCode == old(productCode) && category == old(category)
    {
      notes := match value case Some(v) => v case None => "";
    }

    /** `Product.SetDescription`: as for Category, meaningful text is kept
        verbatim and anything blank clears the description. */
    method SetDescription(d: Option<string>)
      requires Valid()
      modifies this
      ensures Valid()
      ensures description == NonBlankOrNull(d)
      ensures description.Some? ==> !IsBlank(description.value)
      ensures productCode == old(productCode) && notes == old(notes) && category == old(category)
    {
      var (ok, result) := TryParseNonEmpty(d);
      if ok {
        description := result;
      } else {
        description := None;
      }
    }

    /** `Product.EnsureCategory`: a loaded category stays; otherwise a fresh
        Default category is loaded. Afterwards one is always loaded. */
    method EnsureCategory()
      requires Valid()
      modifies this
      ensures Valid()
      ensures category != null
      ensures old(category) != null ==> category == old(category)
      ensures old(category) == null ==> (fresh(category) && category.categoryId == 0 &&
                category.name == DefaultName && category.description == None)
      ensures description == old(description) && productCode == old(productCode) && notes == old(notes)
    {
      if category == null {
        category := Category.Default();
      }
    }

    /** The `Category` getter: loads the category when needed and returns it;
        every later read returns the same object. */
    method GetCategory() returns (c: Category)
      requires Valid()
      modifies this
      ensures Valid()
      ensures c == category
      ensures old(category) != null ==> c == old(category)
      ensures old(category) == null ==> (fresh(c) && c.categoryId == 0 &&
                c.name == DefaultName && c.description == None)
      ensures description == old(description) && productCode == old(productCode) && notes == old(notes)
    {
      EnsureCategory();
      c := category;
    }
  }

  /** ProductSpecs.Category_MultiploAcessos_DeveRetornarMesmaInstancia: the
      first read of a new product's category gives Default, the second read
      the very same object. */
  method CategoryLoadedOnce(p: Product) returns (first: Category, second: Category)
    requires p.Valid() && p.category == null
    modifies p
    ensures first == second
    ensures first.categoryId == 0 && first.name == DefaultName && first.description == None
  {
    first := p.GetCategory();
    second := p.GetCategory();
  }
}
