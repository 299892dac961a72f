/** The introductory Produto (IntroducaoPOO.Modelo): a product with a name,
    a unit price and a stock quantity, checked on construction, whose price
    can be raised by a percentage and whose identity is its name. The double
    price is a real. */
module IntroducaoPOO {
  import opened Common
  import opened Text

  /** The errors of `new Produto(nome, precoUnitario, quantidade)`, in the
      order it checks. The name check throws an ArgumentException built
      without a parameter name. */
  function ProdutoArgumentsError(nome: Option<string>, precoUnitario: real, quantidade: int): (r: Option<Exception>)
    ensures r.None? <==> !IsNullOrWhiteSpace(nome) && precoUnitario > 0.0 && quantidade >= 0
    ensures IsNullOrWhiteSpace(nome) ==> r == Some(Argument(""))
  {
    if IsNullOrWhiteSpace(nome) then Some(Argument(""))
    else if precoUnitario <= 0.0 then Some(ArgumentOutOfRange("precoUnitario"))
    else if quantidade < 0 then Some(ArgumentOutOfRange("quantidade"))
    else None
  }

  /** The price after a raise of pct percent. */
  function Raised(price: real, pct: real): real {
    price + price * pct / 100.0
  }

  /** A positive raise of a positive price makes it strictly larger, by the
      factor 1 + pct/100. */
  lemma RaisedGrows(price: real, pct: real)
    requires price > 0.0 && pct > 0.0
    ensures Raised(price, pct) > price
    ensures Raised(price, pct) == price * (1.0 + pct / 100.0)
  {
    assert price * pct > 0.0;
  }

  class Produto {
    const nome: string
    var precoUnitario: real
    const quantidadeEmEstoque: int

    /** What the constructor guarantees and the price raise keeps. */
    ghost predicate Valid()
      reads this
    {
      !IsBlank(nome) && precoUnitario > 0.0 && quantidadeEmEstoque >= 0
    }

    constructor (nome: string, precoUnitario: real, quantidade: int)
      requires ProdutoArgumentsError(Some(nome), precoUnitario, quantidade).None?
      ensures Valid()
      ensures this.nome == nome && this.precoUnitario == precoUnitario && quantidadeEmEstoque == quantidade
    {
      this.nome := nome;
      this.precoUnitario := precoUnitario;
      quantidadeEmEstoque := quantidade;
    }

    /** `new Produto(nome, precoUnitario, quantidade)`: a null or blank name
        throws ArgumentException, then a price that is not positive throws
        ArgumentOutOfRangeException, then a negative quantity does; a stock of
        zero is allowed. */
    static method Create(nome: Option<string>, precoUnitario: real, quantidade: int) returns (r: Result<Produto>)
      ensures r.Err? <==> ProdutoArgumentsError(nome, precoUnitario, quantidade).Some?
      ensures r.Err? ==> r.error == ProdutoArgumentsError(nome, precoUnitario, quantidade).value
      ensures r.Ok? ==> (fresh(r.value) && r.value.Valid() && Some(r.value.nome) == nome &&
                r.value.precoUnitario == precoUnitario && r.value.quantidadeEmEstoque == quantidade)
    {
      var e := ProdutoArgumentsError(nome, precoUnitario, quantidade);
      if e.Some? {
        return Err(e.value);
      }
      var p := new Produto(nome.value, precoUnitario, quantidade);
      return Ok(p);
    }

    /** `new Produto(nome, precoUnitario)`: the same checks, with no stock. */
    static method CreateWithoutStock(nome: Option<string>, precoUnitario: real) returns (r: Result<Produto>)
      ensures r.Err? <==> IsNullOrWhiteSpace(nome) || precoUnitario <= 0.0
      ensures r.Err? ==> r.error == ProdutoArgumentsError(nome, precoUnitario, 0).value
      ensures r.Ok? ==> (fresh(r.value) && r.value.Valid() && Some(r.value.nome) == nome &&
                r.value.precoUnitario == precoUnitario && r.value.quantidadeEmEstoque == 0)
    {
      r := Create(nome, precoUnitario, 0);
    }

    /** `ValorTotal()`: the stock's worth, never negative. */
    function ValorTotal(): (r: real)
      requires Valid()
      reads this
      ensures r >= 0.0
      ensures quantidadeEmEstoque == 0 ==> r == 0.0
    {
      precoUnitario * quantidadeEmEstoque as real
    }

    /** `ReajustarPrecoUnitario(pct)`: a percentage that is not positive
        throws ArgumentOutOfRangeException and keeps the price; otherwise the
        price grows by pct percent of itself. */
    method ReajustarPrecoUnitario(pct: real) returns (r: Outcome)
      requires Valid()
      modifies this
      ensures Valid()
      ensures pct <= 0.0 ==> (r == Fail(ArgumentOutOfRange("percentualParaReajuste")) &&
                precoUnitario == old(precoUnitario))
      ensures pct > 0.0 ==> (r == Pass && precoUnitario == Raised(old(precoUnitario), pct) &&
                precoUnitario > old(precoUnitario))
    {
      if pct <= 0.0 {
        return Fail(ArgumentOutOfRange("percentualParaReajuste"));
      }
      RaisedGrows(precoUnitario, pct);
      precoUnitario := precoUnitario + (precoUnitario * pct / 100.0);
      return Pass;
    }

    /** `Equals(object? obj)` as written: `(obj as Produto).Nome` is read
        without a null check, so a null argument or an object of another
        class throws NullReferenceException instead of answering false. */
    function EqualsAsWritten(obj: Object<Produto>): (r: Result<bool>)
      ensures r.Err? <==> !obj.Instance?
      ensures r.Err? ==> r.error == NullReference
      ensures r.Ok? ==> (r.value <==> obj.value.nome == nome)
    {
      match obj
      case Instance(other) => Ok(nome == other.nome)
      case _ => Err(NullReference)
    }

    /** `Equals(object? obj)` as evidently intended: equal exactly to
        products with the same name; null and other classes are unequal. */
    function Equals(obj: Object<Produto>): (r: bool)
      ensures r <==> obj.Instance? && obj.value.nome == nome
    {
      match obj
      case Instance(other) => nome == other.nome
      case _ => false
    }

    /** `GetHashCode()`: the name's hash, for a given string hash. */
    function HashCode(stringHash: string -> int): int {
      stringHash(nome)
    }
  }

  /** The corrected Equals answers where the written one throws, and agrees
      with it wherever the written one answers. */
  lemma EqualsRepairsNull(p: Produto, obj: Object<Produto>)
    ensures p.EqualsAsWritten(Null) == Err(NullReference)
    ensures p.EqualsAsWritten(Foreign) == Err(NullReference)
    ensures !p.Equals(Null) && !p.Equals(Foreign)
    ensures p.EqualsAsWritten(obj).Ok? ==> p.EqualsAsWritten(obj) == Ok(p.Equals(obj))
  {
  }

  /** Equality by name is an equivalence and equal products hash alike,
      whatever the string hash. */
  lemma EqualsConsistentWithHash(a: Produto, b: Produto, c: Produto, stringHash: string -> int)
    ensures a.Equals(Instance(a))
    ensures a.Equals(Instance(b)) ==> b.Equals(Instance(a))
    ensures a.Equals(Instance(b)) && b.Equals(Instance(c)) ==> a.Equals(Instance(c))
    ensures a.Equals(Instance(b)) ==> a.HashCode(stringHash) == b.HashCode(stringHash)
  {
  }

  /** Raising the unit price raises the stock's worth by the same
      percentage. */
  lemma RaisedScalesTotal(price: real, quantidade: nat, pct: real)
    ensures Raised(price, pct) * quantidade as real == Raised(price * quantidade as real, pct)
  {
    var q := quantidade as real;
    calc {
      Raised(price, pct) * q;
      (price + price * pct / 100.0) * q;
      price * q + (price * pct / 100.0) * q;
      { assert (price * pct / 100.0) * q == (price * q) * pct / 100.0; }
      price * q + (price * q) * pct / 100.0;
    }
  }
}
