/** The repository demo (RepositoryAsyncMock): a ProdutoService that
    validates products before handing them to an in-memory repository, which
    numbers them 1, 2, 3, ... as they arrive. The asynchronous calls, their
    simulated latency and the lock are modelled as plain sequential calls. */
module RepositoryAsyncMock {
  import opened Common
  import opened Text

  /** The `Produto` entity of this demo: every property has a public setter;
      the decimal price is a real. */
  class Produto {
    var id: int
    var nome: string
    var preco: real

    constructor (nome: string, preco: real)
      ensures id == 0 && this.nome == nome && this.preco == preco
    {
      id := 0;
      this.nome := nome;
      this.preco := preco;
    }

    /** `new Produto(nome, preco)`: a null name throws ArgumentNullException
        ("nome"); the price is not checked here. */
    static method Create(nome: Option<string>, preco: real) returns (r: Result<Produto>)
      ensures nome.None? ==> r == Err(ArgumentNull("nome"))
      ensures nome.Some? ==> (r.Ok? && fresh(r.value) && r.value.id == 0 &&
                r.value.nome == nome.value && r.value.preco == preco)
    {
      if nome.None? {
        return Err(ArgumentNull("nome"));
      }
      var p := new Produto(nome.value, preco);
      return Ok(p);
    }
  }

  /** The first position in s holding a product with this id. */
  function FirstWithId(s: seq<Produto>, id: int): (r: Option<nat>)
    reads s
    ensures r.None? <==> forall i :: 0 <= i < |s| ==> s[i].id != id
    ensures r.Some? ==> (r.value < |s| && s[r.value].id == id &&
              forall i :: 0 <= i < r.value ==> s[i].id != id)
  {
    if s == [] then None
    else if s[0].id == id then Some(0)
    else match FirstWithId(s[1..], id)
      case None => None
      case Some(k) => Some(k + 1)
  }

  /** Product i (counting from 0) carries id i + 1. */
  ghost predicate NumberedFromOne(s: seq<Produto>)
    reads s
  {
    forall i :: 0 <= i < |s| ==> s[i].id == i + 1
  }

  /** In a store numbered from one, id k names product k - 1, and any other
      id names none. */
  lemma FirstWithIdNumbered(s: seq<Produto>, id: int)
    requires NumberedFromOne(s)
    ensures 1 <= id <= |s| ==> FirstWithId(s, id) == Some(id - 1)
    ensures !(1 <= id <= |s|) ==> FirstWithId(s, id) == None
  {
    if 1 <= id <= |s| {
      assert s[id - 1].id == id;
    }
  }

  class MockProdutoRepository {
    /** `_store`. */
    var store: seq<Produto>
    /** `_nextId`. */
    var nextId: int

    /** The next id is one past the number of products stored. */
    ghost predicate Valid()
      reads this
    {
      nextId == |store| + 1
    }

    /** A new repository: empty, next id 1. */
    constructor ()
      ensures Valid() && store == [] && nextId == 1
    {
      store := [];
      nextId := 1;
    }

    /** `AddAsync(produto)`: writes the next id into the product, moves the
        counter on and appends the product; earlier entries keep their place.
        Adding a product not yet stored keeps the store numbered from one. */
    method Add(produto: Produto)
      requires Valid()
      modifies this, produto
      ensures Valid()
      ensures produto.id == old(nextId) && nextId == old(nextId) + 1
      ensures store == old(store) + [produto]
      ensures produto.nome == old(produto.nome) && produto.preco == old(produto.preco)
      ensures produto !in old(store) && old(NumberedFromOne(store)) ==> NumberedFromOne(store)
    {
      ghost var before := store;
      produto.id := nextId;
      nextId := nextId + 1;
      store := store + [produto];
      if produto !in before && old(NumberedFromOne(store)) {
        forall i | 0 <= i < |store|
          ensures store[i].id == i + 1
        {
          if i < |before| {
            assert store[i] == before[i] && before[i] != produto;
          }
        }
      }
    }

    /** `GetByIdAsync(id)`: the first stored product with that id, or null;
        the store is only read. */
    function GetById(id: int): (r: Produto?)
      reads this, store
      ensures r == null <==> forall i :: 0 <= i < |store| ==> store[i].id != id
      ensures r != null ==> exists k :: 0 <= k < |store| && store[k] == r && r.id == id &&
                              forall i :: 0 <= i < k ==> store[i].id != id
    {
      match FirstWithId(store, id)
      case Some(k) => store[k]
      case None => null
    }
  }

  /** The errors of `AddProdutoAsync(produto)` for a non-null product, in the
      order they are checked. */
  function ProdutoError(nome: string, preco: real): (r: Option<Exception>)
    ensures r.None? <==> !IsBlank(nome) && preco > 0.0
    ensures IsBlank(nome) ==> r == Some(Argument("Nome"))
  {
    if IsNullOrWhiteSpace(Some(nome)) then Some(Argument("Nome"))
    else if preco <= 0.0 then Some(Argument("Preco"))
    else None
  }

  class ProdutoService {
    const repo: MockProdutoRepository

    constructor (repo: MockProdutoRepository)
      ensures this.repo == repo
    {
      this.repo := repo;
    }

    /** `new ProdutoService(repo)`: null throws ArgumentNullException
        ("repo"). */
    static method Create(repo: MockProdutoRepository?) returns (r: Result<ProdutoService>)
      ensures repo == null ==> r == Err(ArgumentNull("repo"))
      ensures repo != null ==> r.Ok? && fresh(r.value) && r.value.repo == repo
    {
      if repo == null {
        return Err(ArgumentNull("repo"));
      }
      var s := new ProdutoService(repo);
      return Ok(s);
    }

    /** `AddProdutoAsync(produto)`: null throws ArgumentNullException
        ("produto"), a blank name ArgumentException ("Nome"), a price that is
        not positive ArgumentException ("Preco"); each failure leaves the
        repository and the product untouched. Otherwise the repository's
        `AddAsync` runs exactly once. */
    method AddProduto(produto: Produto?) returns (r: Outcome)
      requires repo.Valid()
      modifies repo, produto
      ensures repo.Valid()
      ensures produto == null ==> r == Fail(ArgumentNull("produto"))
      ensures produto != null ==> (
                var e := ProdutoError(old(produto.nome), old(produto.preco));
                (e.Some? ==> r == Fail(e.value)) && (e.None? ==> r == Pass))
      ensures r.Fail? ==> (repo.store == old(repo.store) && repo.nextId == old(repo.nextId) &&
                (produto != null ==> produto.id == old(produto.id)))
      ensures r.Pass? ==> (repo.store == old(repo.store) + [produto] &&
                produto.id == old(repo.nextId) && repo.nextId == old(repo.nextId) + 1)
      ensures r.Pass? && produto !in old(repo.store) && old(NumberedFromOne(repo.store)) ==>
                NumberedFromOne(repo.store)
      ensures produto != null ==> produto.nome == old(produto.nome) && produto.preco == old(produto.preco)
    {
      if produto == null {
        return Fail(ArgumentNull("produto"));
      }
      if IsNullOrWhiteSpace(Some(produto.nome)) {
        return Fail(Argument("Nome"));
      }
      if produto.preco <= 0.0 {
        return Fail(Argument("Preco"));
      }
      repo.Add(produto);
      return Pass;
    }

    /** `GetByIdAsync(id)`: an id that is not positive throws
        ArgumentException ("id") without asking the repository; otherwise
        the repository's answer. */
    function GetById(id: int): (r: Result<Produto?>)
      reads this, repo, repo.store
      ensures r.Err? <==> id <= 0
      ensures r.Err? ==> r.error == Argument("id")
      ensures r.Ok? ==> (r.value == null <==> forall i :: 0 <= i < |repo.store| ==> repo.store[i].id != id)
      ensures r.Ok? ==> r.value == repo.GetById(id)
      ensures r.Ok? && r.value != null ==> r.value in repo.store && r.value.id == id
    {
      if id <= 0 then Err(Argument("id")) else Ok(repo.GetById(id))
    }
  }

  /** With the store numbered from one, looking up id k through the service
      finds the k-th product added, and ids past the end find nothing. */
  lemma LookupFindsKth(service: ProdutoService, id: int)
    requires NumberedFromOne(service.repo.store)
    ensures 1 <= id <= |service.repo.store| ==> service.GetById(id) == Ok(service.repo.store[id - 1])
    ensures id > |service.repo.store| ==> service.GetById(id) == Ok(null)
  {
    FirstWithIdNumbered(service.repo.store, id);
  }

  /** The demo's first part: two products added to a fresh repository get
      ids 1 and 2, and looking up id 1 finds the first. */
  method AddTwoAndFind() returns (p1: Produto, p2: Produto, found: Result<Produto?>)
    ensures p1.id == 1 && p2.id == 2
    ensures found == Ok(p1)
  {
    var repo := new MockProdutoRepository();
    var service := new ProdutoService(repo);
    p1 := new Produto("Caneta", 3.5);
    p2 := new Produto("Caderno", 25.0);
    assert !IsBlank(p1.nome) by { assert !IsWhiteSpace(p1.nome[0]); }
    var r1 := service.AddProduto(p1);
    assert repo.store == [p1] && p1.id == 1 && NumberedFromOne(repo.store);
    assert !IsBlank(p2.nome) by { assert !IsWhiteSpace(p2.nome[0]); }
    var r2 := service.AddProduto(p2);
    assert repo.store == [p1, p2] && p1.id == 1 && p2.id == 2;
    LookupFindsKth(service, 1);
    found := service.GetById(1);
  }

  /** The demo's second part: a product priced -1 is refused and the
      repository stays as it was. */
  method RefuseNegativePrice(service: ProdutoService) returns (refused: Outcome)
    requires service.repo.Valid()
    modifies service.repo
    ensures refused == Fail(Argument("Preco"))
    ensures service.repo.store == old(service.repo.store)
  {
    var bad := new Produto("Lapiseira", -1.0);
    assert !IsBlank(bad.nome) by { assert !IsWhiteSpace(bad.nome[0]); }
    refused := service.AddProduto(bad);
  }
}
