/** The Order aggregate (Order/OrderItem.cs, Order/Order.cs): an order keeps
    at most one line per SKU; adding a known SKU merges into its line, and
    removing lowers a line's quantity and drops the line when it reaches 0. */
module OrderAggregate {
  import opened Common
  import opened Text
  import opened ValueObjects
  import opened OrderHelpers

  // ---------------------------------------------------------------------
  // The abstract view of an order: its lines as values
  // ---------------------------------------------------------------------

  /** What an OrderItem holds at one moment. */
  datatype Line = Line(sku: string, quantity: real, unitPrice: Money)

  /** `OrderItem.SubTotal`, as a number: unit price times quantity. */
  function LineSubTotal(l: Line): real {
    l.unitPrice.value * l.quantity
  }

  /** No two lines share a SKU. */
  predicate DistinctSkus(ls: seq<Line>) {
    forall i, j :: 0 <= i < j < |ls| ==> ls[i].sku != ls[j].sku
  }

  /** `_items.FirstOrDefault(i => i.Sku == sku)`, as the index found: the first
      line with that SKU, or none when no line has it. */
  function FindSku(ls: seq<Line>, sku: string): (r: Option<nat>)
    ensures r.Some? ==> r.value < |ls| && ls[r.value].sku == sku
                        && forall j :: 0 <= j < r.value ==> ls[j].sku != sku
    ensures r.None? ==> forall j :: 0 <= j < |ls| ==> ls[j].sku != sku
  {
    if ls == [] then None
    else if ls[0].sku == sku then Some(0)
    else match FindSku(ls[1..], sku)
      case None => None
      case Some(k) => Some(k + 1)
  }

  /** `Order.AddItem(orderItem)` on the lines: a new SKU is appended; a known
      SKU raises the existing line's quantity by the new quantity and keeps the
      existing unit price (OrderItem.Increase, which refuses a quantity of 0 or
      less). The total grows by the added quantity times the unit price that
      applies: the new line's own, or the existing line's for a known SKU. */
  function AddLine(ls: seq<Line>, l: Line): (r: Result<seq<Line>>)
    ensures r.Ok? && FindSku(ls, l.sku).None? ==>
      Sum(r.value) == Sum(ls) + l.unitPrice.value * l.quantity
    ensures r.Ok? && FindSku(ls, l.sku).Some? ==>
      Sum(r.value) == Sum(ls) + ls[FindSku(ls, l.sku).value].unitPrice.value * l.quantity
  {
    match FindSku(ls, l.sku)
    case None =>
      SumAppend(ls, l);
      Ok(ls + [l])
    case Some(k) =>
      if l.quantity <= 0.0 then Err(ArgumentOutOfRange("quantityToIncrease"))
      else
        ShiftLineTotal(ls, k, l.quantity);
        Ok(ls[k := ls[k].(quantity := ls[k].quantity + l.quantity)])
  }

  /** `Order.RemoveItem(sku, quantity)` on the lines: normalise the SKU (null
      throws), find its line (absent: InvalidOperation), refuse more than the
      line holds (InvalidOperation), then OrderItem.Decrease (0 or less:
      ArgumentOutOfRange); a line whose quantity reaches 0 is deleted. */
  function RemoveLine(ls: seq<Line>, sku: Option<string>, quantity: real): Result<seq<Line>> {
    match NormalizeSku(sku)
    case Err(e) => Err(e)
    case Ok(key) =>
      match FindSku(ls, key)
      case None => Err(InvalidOperation)
      case Some(k) =>
        if ls[k].quantity < quantity then Err(InvalidOperation)
        else if quantity <= 0.0 then Err(ArgumentOutOfRange("quantityToDecrease"))
        else Ok(LowerLine(ls, k, quantity))
  }

  /** Line k lowered by q, and dropped when nothing of it is left: the total
      drops by q units of the line's price either way. */
  function LowerLine(ls: seq<Line>, k: nat, q: real): (r: seq<Line>)
    requires k < |ls|
    ensures Sum(r) == Sum(ls) - ls[k].unitPrice.value * q
  {
    if ls[k].quantity - q == 0.0 then
      DropLineSum(ls, k, q);
      ls[..k] + ls[k + 1..]
    else
      KeepLineSum(ls, k, q);
      ls[k := ls[k].(quantity := ls[k].quantity - q)]
  }

  /** `_items.Aggregate(new Money(0), (acc, it) => new Money(acc.Value +
      it.SubTotal.Value))`: a left fold of the subtotals. */
  function FoldTotal(acc: real, ls: seq<Line>): real
    decreases |ls|
  {
    if ls == [] then acc else FoldTotal(acc + LineSubTotal(ls[0]), ls[1..])
  }

  /** The sum of the subtotals, as a reference definition of the total. */
  function Sum(ls: seq<Line>): real {
    if ls == [] then 0.0 else LineSubTotal(ls[0]) + Sum(ls[1..])
  }

  /** The fold the source uses computes the sum of the subtotals. */
  lemma {:induction false} FoldIsSum(acc: real, ls: seq<Line>)
    ensures FoldTotal(acc, ls) == acc + Sum(ls)
    decreases |ls|
  {
    if ls != [] {
      FoldIsSum(acc + LineSubTotal(ls[0]), ls[1..]);
    }
  }

  predicate NonNegativeQuantities(ls: seq<Line>) {
    forall i :: 0 <= i < |ls| ==> ls[i].quantity >= 0.0
  }

  lemma {:induction false} SumNonNegative(ls: seq<Line>)
    requires NonNegativeQuantities(ls)
    ensures Sum(ls) >= 0.0
    decreases |ls|
  {
    if ls != [] {
      assert LineSubTotal(ls[0]) >= 0.0;
      SumNonNegative(ls[1..]);
    }
  }

  lemma {:induction false} SumAppend(ls: seq<Line>, l: Line)
    ensures Sum(ls + [l]) == Sum(ls) + LineSubTotal(l)
    decreases |ls|
  {
    if ls == [] {
      assert [l][1..] == [];
    } else {
      assert (ls + [l])[1..] == ls[1..] + [l];
      SumAppend(ls[1..], l);
    }
  }

  lemma {:induction false} SumUpdate(ls: seq<Line>, k: nat, l: Line)
    requires k < |ls|
    ensures Sum(ls[k := l]) == Sum(ls) - LineSubTotal(ls[k]) + LineSubTotal(l)
    decreases |ls|
  {
    if k == 0 {
      assert ls[k := l][1..] == ls[1..];
    } else {
      assert ls[k := l][1..] == ls[1..][k - 1 := l];
      SumUpdate(ls[1..], k - 1, l);
    }
  }

  lemma {:induction false} SumDelete(ls: seq<Line>, k: nat)
    requires k < |ls|
    ensures Sum(ls[..k] + ls[k + 1..]) == Sum(ls) - LineSubTotal(ls[k])
    decreases |ls|
  {
    if k == 0 {
      assert ls[..0] + ls[1..] == ls[1..];
    } else {
      assert (ls[..k] + ls[k + 1..])[1..] == ls[1..][..k - 1] + ls[1..][k..];
      SumDelete(ls[1..], k - 1);
    }
  }

  /** Adding a line keeps the SKUs distinct. A new SKU grows the order by one
      line, the given one; a known SKU keeps the number of lines, raises that
      line's quantity by the given quantity, keeps its unit price and leaves the
      other lines alone. */
  lemma AddLineShape(ls: seq<Line>, l: Line)
    requires DistinctSkus(ls)
    ensures AddLine(ls, l).Ok? ==> DistinctSkus(AddLine(ls, l).value)
    ensures FindSku(ls, l.sku).None? ==> AddLine(ls, l) == Ok(ls + [l]) && |ls + [l]| == |ls| + 1
    ensures FindSku(ls, l.sku).Some? ==>
      var k := FindSku(ls, l.sku).value;
      (l.quantity <= 0.0 <==> AddLine(ls, l).Err?) &&
      (AddLine(ls, l).Ok? ==>
        var ls' := AddLine(ls, l).value;
        |ls'| == |ls| && ls'[k].quantity == ls[k].quantity + l.quantity &&
        ls'[k].sku == ls[k].sku && ls'[k].unitPrice == ls[k].unitPrice &&
        forall j :: 0 <= j < |ls| && j != k ==> ls'[j] == ls[j])
  {
  }

  /** A line holding q units is worth q units of its price. */
  lemma SubTotalOfQuantity(l: Line, q: real)
    requires l.quantity == q
    ensures LineSubTotal(l) == l.unitPrice.value * q
  {
  }

  /** Lowering a line by q units takes q units of its price off its
      subtotal. */
  lemma SubTotalLowered(l: Line, q: real)
    ensures LineSubTotal(l.(quantity := l.quantity - q)) == LineSubTotal(l) - l.unitPrice.value * q
  {
    var p := l.unitPrice.value;
    assert p * (l.quantity - q) == p * l.quantity - p * q;
  }

  /** Changing a line's quantity by d changes its subtotal by d units. */
  lemma SubTotalShift(l: Line, d: real)
    ensures LineSubTotal(l.(quantity := l.quantity + d)) == LineSubTotal(l) + l.unitPrice.value * d
  {
    var p := l.unitPrice.value;
    assert p * (l.quantity + d) == p * l.quantity + p * d;
  }

  /** Changing line k's quantity by d changes the total by d units of its
      price. */
  lemma ShiftLineTotal(ls: seq<Line>, k: nat, d: real)
    requires k < |ls|
    ensures Sum(ls[k := ls[k].(quantity := ls[k].quantity + d)]) == Sum(ls) + ls[k].unitPrice.value * d
    ensures LineSubTotal(ls[k].(quantity := ls[k].quantity + d)) == LineSubTotal(ls[k]) + ls[k].unitPrice.value * d
  {
    SumUpdate(ls, k, ls[k].(quantity := ls[k].quantity + d));
    SubTotalShift(ls[k], d);
  }

  /** Removing succeeds exactly when the SKU is non-null, its normalised form
      has a line holding at least the quantity, and the quantity is positive;
      a null SKU and an unknown SKU fail as the source does. */
  lemma RemoveLineSucceeds(ls: seq<Line>, sku: Option<string>, q: real)
    ensures RemoveLine(ls, sku, q).Ok? <==>
      sku.Some? && FindSku(ls, Normalize(sku.value)).Some? &&
      0.0 < q <= ls[FindSku(ls, Normalize(sku.value)).value].quantity
    ensures sku.None? ==> RemoveLine(ls, sku, q) == Err(ArgumentNull("raw"))
    ensures sku.Some? && FindSku(ls, Normalize(sku.value)).None? ==>
      RemoveLine(ls, sku, q) == Err(InvalidOperation)
    ensures sku.Some? && FindSku(ls, Normalize(sku.value)).Some? &&
            q > ls[FindSku(ls, Normalize(sku.value)).value].quantity ==>
      RemoveLine(ls, sku, q) == Err(InvalidOperation)
  {
  }

  /** A successful removal from line k lowers that line only, deletes it
      exactly when its quantity becomes 0, keeps the SKUs distinct and lowers
      the total by the quantity times the line's unit price. */
  lemma RemoveLineEffect(ls: seq<Line>, sku: Option<string>, q: real, k: nat)
    requires DistinctSkus(ls)
    requires sku.Some? && FindSku(ls, Normalize(sku.value)) == Some(k)
    requires 0.0 < q <= ls[k].quantity
    ensures RemoveLine(ls, sku, q) == Ok(LowerLine(ls, k, q))
    ensures DistinctSkus(RemoveLine(ls, sku, q).value)
    ensures ls[k].quantity == q ==> RemoveLine(ls, sku, q).value == ls[..k] + ls[k + 1..]
    ensures ls[k].quantity != q ==>
      RemoveLine(ls, sku, q).value == ls[k := ls[k].(quantity := ls[k].quantity - q)]
  {
    LowerLineDistinct(ls, k, q);
  }

  /** Deleting line k, which holds q units, takes q units of its price off
      the total. */
  lemma DropLineSum(ls: seq<Line>, k: nat, q: real)
    requires k < |ls| && ls[k].quantity == q
    ensures Sum(ls[..k] + ls[k + 1..]) == Sum(ls) - ls[k].unitPrice.value * q
  {
    SubTotalOfQuantity(ls[k], q);
    SumDelete(ls, k);
  }

  /** Lowering line k by q takes q units of its price off the total. */
  lemma KeepLineSum(ls: seq<Line>, k: nat, q: real)
    requires k < |ls|
    ensures Sum(ls[k := ls[k].(quantity := ls[k].quantity - q)]) == Sum(ls) - ls[k].unitPrice.value * q
  {
    SubTotalLowered(ls[k], q);
    SumUpdate(ls, k, ls[k].(quantity := ls[k].quantity - q));
  }

  /** Lowering a line, or dropping it, keeps the SKUs distinct. */
  lemma LowerLineDistinct(ls: seq<Line>, k: nat, q: real)
    requires DistinctSkus(ls) && k < |ls|
    ensures DistinctSkus(LowerLine(ls, k, q))
  {
    var ls' := LowerLine(ls, k, q);
    if ls[k].quantity == q {
      assert ls' == ls[..k] + ls[k + 1..];
      forall i, j | 0 <= i < j < |ls'| ensures ls'[i].sku != ls'[j].sku {
        var i0 := if i < k then i else i + 1;
        var j0 := if j < k then j else j + 1;
        assert ls'[i] == ls[i0] && ls'[j] == ls[j0];
      }
    } else {
      forall i, j | 0 <= i < j < |ls'| ensures ls'[i].sku != ls'[j].sku {
        assert ls'[i].sku == ls[i].sku && ls'[j].sku == ls[j].sku;
      }
    }
  }

  lemma CanonicalExampleSku()
    ensures Normalize("PROD-001") == "PROD-001"
  {
    assert NoWhiteSpace("PROD-001") by {
      forall i | 0 <= i < 8 ensures !IsWhiteSpace("PROD-001"[i]) {
        assert "PROD-001"[i] in {'P', 'R', 'O', 'D', '-', '0', '1'};
      }
    }
    StripOfClean("PROD-001");
    assert ToUpperInvariant("PROD-001") == "PROD-001";
  }

  /** The two lines of the OrderSpecs total scenario. */
  const FirstLine := Line("PROD-001", 3.0, Money(50.0))
  const SecondLine := Line("PROD-002", 2.0, Money(100.0))

  lemma AddExampleLines()
    ensures AddLine([], FirstLine) == Ok([FirstLine])
    ensures AddLine([FirstLine], SecondLine) == Ok([FirstLine, SecondLine])
  {
    assert FindSku([], FirstLine.sku) == None;
    assert [] + [FirstLine] == [FirstLine];
    assert FirstLine.sku != SecondLine.sku by { assert FirstLine.sku[7] != SecondLine.sku[7]; }
    assert [FirstLine][1..] == [];
    assert FindSku([FirstLine], SecondLine.sku) == None;
    assert [FirstLine] + [SecondLine] == [FirstLine, SecondLine];
  }

  lemma RemoveExampleLine()
    ensures RemoveLine([FirstLine, SecondLine], Some("PROD-001"), 1.0)
            == Ok([FirstLine.(quantity := 2.0), SecondLine])
  {
    var two := [FirstLine, SecondLine];
    CanonicalExampleSku();
    assert NormalizeSku(Some("PROD-001")) == Ok("PROD-001");
    assert FindSku(two, "PROD-001") == Some(0);
    assert two[0 := two[0].(quantity := two[0].quantity - 1.0)] == [FirstLine.(quantity := 2.0), SecondLine];
  }

  /** The scenario of OrderSpecs.Total_AposRemocao_CalculaValorCorreto:
      3 x 50 and 2 x 100, then removing 1 of the first SKU, leaves 300. */
  lemma TotalAfterRemovalExample()
    ensures AddLine([], FirstLine).Ok?
    ensures AddLine(AddLine([], FirstLine).value, SecondLine).Ok?
    ensures RemoveLine(AddLine(AddLine([], FirstLine).value, SecondLine).value, Some("PROD-001"), 1.0).Ok?
    ensures FoldTotal(0.0, RemoveLine(AddLine(AddLine([], FirstLine).value, SecondLine).value,
                                      Some("PROD-001"), 1.0).value) == 300.0
  {
    AddExampleLines();
    RemoveExampleLine();
    var after := [FirstLine.(quantity := 2.0), SecondLine];
    FoldIsSum(0.0, after);
    assert after[1..] == [SecondLine] && [SecondLine][1..] == [];
    assert Sum([SecondLine]) == 200.0;
    assert Sum(after) == LineSubTotal(after[0]) + Sum([SecondLine]);
  }

  // ---------------------------------------------------------------------
  // OrderItem: one line of an order, its quantity changed in place
  // ---------------------------------------------------------------------

  /** The guards of `new OrderItem(sku, quantity, unitPrice)`, in the order the
      constructor runs them; None when all pass. */
  function ItemArgumentsError(sku: Option<string>, quantity: real, unitPrice: Option<Money>): Option<Exception> {
    if IsNullOrWhiteSpace(sku) then Some(Argument("sku"))
    else if quantity <= 0.0 then Some(ArgumentOutOfRange("quantity"))
    else if unitPrice.None? then Some(ArgumentNull("unitPrice"))
    else None
  }

  class OrderItem {
    const sku: string
    var quantity: real
    const unitPrice: Money

    /** The SKU is canonical and non-empty; the quantity is never negative. */
    ghost predicate Valid()
      reads this
    {
      quantity >= 0.0 && sku != [] && Normalize(sku) == sku
    }

    /** The line this item holds now. */
    function View(): Line
      reads this
    {
      Line(sku, quantity, unitPrice)
    }

    constructor (sku: string, quantity: real, unitPrice: Money)
      requires !IsBlank(sku) && quantity > 0.0
      ensures Valid()
      ensures this.sku == Normalize(sku) && this.quantity == quantity && this.unitPrice == unitPrice
    {
      NormalizeLength(sku);
      NormalizeIdempotent(sku);
      this.sku := Normalize(sku);
      this.quantity := quantity;
      this.unitPrice := unitPrice;
    }

    /** `new OrderItem(sku, quantity, unitPrice)`: a null or blank SKU throws
        ArgumentException first, then a quantity of 0 or less throws
        ArgumentOutOfRangeException, then a null price throws
        ArgumentNullException; otherwise the item holds the normalised SKU, the
        quantity and the price. */
    static method Create(sku: Option<string>, quantity: real, unitPrice: Option<Money>)
      returns (r: Result<OrderItem>)
      ensures IsNullOrWhiteSpace(sku) ==> r == Err(Argument("sku"))
      ensures !IsNullOrWhiteSpace(sku) && quantity <= 0.0 ==> r == Err(ArgumentOutOfRange("quantity"))
      ensures !IsNullOrWhiteSpace(sku) && quantity > 0.0 && unitPrice.None? ==>
                r == Err(ArgumentNull("unitPrice"))
      ensures r.Err? <==> ItemArgumentsError(sku, quantity, unitPrice).Some?
      ensures r.Ok? ==> (fresh(r.value) && r.value.Valid() &&
                r.value.sku == Normalize(sku.value) && r.value.quantity == quantity &&
                r.value.unitPrice == unitPrice.value)
    {
      if IsNullOrWhiteSpace(sku) {
        return Err(Argument("sku"));
      }
      if quantity <= 0.0 {
        return Err(ArgumentOutOfRange("quantity"));
      }
      if unitPrice.None? {
        return Err(ArgumentNull("unitPrice"));
      }
      var item := new OrderItem(sku.value, quantity, unitPrice.value);
      return Ok(item);
    }

    /** `OrderItem.Increase`: refuses an amount of 0 or less; otherwise adds it
        to the quantity. SKU and unit price never change. */
    method Increase(amount: real) returns (r: Outcome)
      requires Valid()
      modifies this
      ensures Valid()
      ensures amount <= 0.0 ==> r == Fail(ArgumentOutOfRange("quantityToIncrease")) && quantity == old(quantity)
      ensures amount > 0.0 ==> r == Pass && quantity == old(quantity) + amount
    {
      if amount <= 0.0 {
        return Fail(ArgumentOutOfRange("quantityToIncrease"));
      }
      quantity := quantity + amount;
      return Pass;
    }

    /** `OrderItem.Decrease`: refuses an amount of 0 or less, then an amount
        above the quantity (InvalidOperation); otherwise subtracts it, so the
        quantity never goes below 0. */
    method Decrease(amount: real) returns (r: Outcome)
      requires Valid()
      modifies this
      ensures Valid()
      ensures amount <= 0.0 ==> r == Fail(ArgumentOutOfRange("quantityToDecrease")) && quantity == old(quantity)
      ensures amount > 0.0 && amount > old(quantity) ==> r == Fail(InvalidOperation) && quantity == old(quantity)
      ensures 0.0 < amount <= old(quantity) ==> r == Pass && quantity == old(quantity) - amount
    {
      if amount <= 0.0 {
        return Fail(ArgumentOutOfRange("quantityToDecrease"));
      }
      if amount > quantity {
        return Fail(InvalidOperation);
      }
      quantity := quantity - amount;
      return Pass;
    }

    /** `OrderItem.SubTotal`: a Money (never negative) worth the unit price
        times the quantity; it is positive whenever price and quantity are. */
    function SubTotal(): (r: Money)
      reads this
      requires Valid()
      ensures r.value == LineSubTotal(View())
      ensures unitPrice.value > 0.0 && quantity > 0.0 ==> r.value > 0.0
    {
      Money(unitPrice.value * quantity)
    }

    /** `OrderItem.Equals(object? obj)`: identity by SKU alone; quantity and
        price are ignored, and null or another class give false. */
    function Equals(obj: Object<OrderItem>): bool {
      match obj
      case Instance(other) => other.sku == sku
      case _ => false
    }
  }

  /** `_items.FirstOrDefault(i => i.Equals(orderItem))` is the SKU search
      AddItem runs on the lines: it finds the first item Equals accepts, and
      it finds nothing exactly when Equals accepts none. */
  lemma FindSkuIsFirstEqual(items: seq<OrderItem>, item: OrderItem)
    ensures FindSku(LinesOf(items), item.sku).None? <==>
              forall j :: 0 <= j < |items| ==> !items[j].Equals(Instance(item))
    ensures FindSku(LinesOf(items), item.sku).Some? ==>
              var k := FindSku(LinesOf(items), item.sku).value;
              k < |items| && items[k].Equals(Instance(item)) &&
              forall j :: 0 <= j < k ==> !items[j].Equals(Instance(item))
  {
  }

  /** The lines of a sequence of items, position by position. */
  function LinesOf(s: seq<OrderItem>): (r: seq<Line>)
    reads s
    ensures |r| == |s| && forall i :: 0 <= i < |s| ==> r[i] == s[i].View()
  {
    seq(|s|, i requires 0 <= i < |s| reads s => s[i].View())
  }

  /** Deleting the item at k deletes its line and keeps only items that were
      there. */
  lemma DeleteItem(s: seq<OrderItem>, k: nat)
    requires k < |s|
    ensures LinesOf(s[..k] + s[k + 1..]) == LinesOf(s)[..k] + LinesOf(s)[k + 1..]
    ensures forall x :: x in s[..k] + s[k + 1..] ==> x in s
  {
    var t := s[..k] + s[k + 1..];
    forall i | 0 <= i < |t| ensures LinesOf(t)[i] == (LinesOf(s)[..k] + LinesOf(s)[k + 1..])[i] {
      if i < k { assert t[i] == s[i]; } else { assert t[i] == s[i + 1]; }
    }
  }

  /** Appending an item appends its line. */
  lemma AppendItem(s: seq<OrderItem>, x: OrderItem)
    ensures LinesOf(s + [x]) == LinesOf(s) + [x.View()]
  {
    var t := s + [x];
    forall i | 0 <= i < |t| ensures LinesOf(t)[i] == (LinesOf(s) + [x.View()])[i] {
      if i < |s| { assert t[i] == s[i]; }
    }
  }

  lemma ValidItemsNonNegative(s: seq<OrderItem>)
    requires forall x :: x in s ==> x.Valid()
    ensures NonNegativeQuantities(LinesOf(s))
  {
    forall i | 0 <= i < |s| ensures LinesOf(s)[i].quantity >= 0.0 {
      assert s[i] in s;
    }
  }

  /** Items whose lines have distinct SKUs are distinct objects. */
  lemma OthersDiffer(s: seq<OrderItem>, k: nat)
    requires k < |s| && DistinctSkus(LinesOf(s))
    ensures forall j :: 0 <= j < |s| && j != k ==> s[j] != s[k]
  {
    forall j | 0 <= j < |s| && j != k ensures s[j] != s[k] {
      assert LinesOf(s)[j].sku != LinesOf(s)[k].sku;
    }
  }

  // ---------------------------------------------------------------------
  // Order: the list of items, changed in place
  // ---------------------------------------------------------------------

  class Order {
    /** `_items`: the caller's OrderItem objects themselves. */
    var items: seq<OrderItem>

    /** Every item is valid and no two share a SKU. */
    ghost predicate Valid()
      reads this, items
    {
      (forall x :: x in items ==> x.Valid()) && DistinctSkus(Lines())
    }

    /** The lines the order holds now. */
    function Lines(): seq<Line>
      reads this, items
    {
      LinesOf(items)
    }

    /** A new order has no items and a total of 0. */
    constructor ()
      ensures Valid() && items == [] && Lines() == [] && Total().value == 0.0
    {
      items := [];
    }

    /** `Order.Total`: the fold of the subtotals, which is their sum. */
    function Total(): (r: Money)
      reads this, items
      requires Valid()
      ensures r.value == Sum(Lines())
    {
      FoldIsSum(0.0, Lines());
      ValidItemsNonNegative(items);
      SumNonNegative(Lines());
      Money(FoldTotal(0.0, Lines()))
    }

    /** `Order.AddItem(orderItem)`: an item with a new SKU is appended (the
        object itself); an item with a known SKU adds no line and raises the
        existing line's quantity by the item's quantity, keeping that line's
        price. Merging an item whose quantity is 0 throws from Increase and
        changes nothing. */
    method AddItem(item: OrderItem) returns (r: Outcome)
      requires Valid() && item.Valid()
      modifies this, items
      ensures Valid()
      ensures var expected := AddLine(old(Lines()), old(item.View()));
              (r.Pass? <==> expected.Ok?) &&
              (r.Pass? ==> Lines() == expected.value) &&
              (r.Fail? ==> r.error == expected.error && Lines() == old(Lines()) && items == old(items))
      ensures FindSku(old(Lines()), item.sku).None? ==> items == old(items) + [item]
      ensures FindSku(old(Lines()), item.sku).Some? ==> items == old(items)
    {
      var found := FindSku(Lines(), item.sku);
      match found
      case None =>
        Append(item);
        r := Pass;
      case Some(k) =>
        AddLineShape(Lines(), item.View());
        r := IncreaseAt(k, item.quantity);
    }

    /** `_items.Add(orderItem)`: the item object itself goes at the end. */
    method Append(item: OrderItem)
      requires Valid() && item.Valid() && FindSku(Lines(), item.sku).None?
      modifies this
      ensures Valid()
      ensures items == old(items) + [item]
      ensures Lines() == old(Lines()) + [item.View()]
    {
      AppendItem(items, item);
      AddLineShape(Lines(), item.View());
      items := items + [item];
    }

    /** `OrderItem.Increase` on item k: the list keeps its items, and only
        line k changes, by the quantity added. */
    method IncreaseAt(k: nat, amount: real) returns (r: Outcome)
      requires Valid() && k < |items|
      modifies items[k]
      ensures forall x :: x in items ==> x.Valid()
      ensures amount <= 0.0 ==> (r == Fail(ArgumentOutOfRange("quantityToIncrease")) &&
                Lines() == old(Lines()))
      ensures amount > 0.0 ==> (r == Pass &&
                Lines() == old(Lines())[k := old(Lines())[k].(quantity := old(Lines())[k].quantity + amount)])
    {
      ghost var before := Lines();
      var line := items[k];
      OthersDiffer(items, k);
      r := line.Increase(amount);
      assert Lines() == before[k := line.View()] by {
        forall i | 0 <= i < |items| ensures Lines()[i] == before[k := line.View()][i] {
        }
      }
    }

    /** `Order.AddItem(sku, quantity, unitPrice)`: build the OrderItem, then add
        it. Invalid arguments throw the constructor's exception and leave the
        order unchanged; valid ones always succeed. */
    method AddItemBySku(sku: Option<string>, quantity: real, unitPrice: Option<Money>)
      returns (r: Outcome)
      requires Valid()
      modifies this, items
      ensures Valid()
      ensures ItemArgumentsError(sku, quantity, unitPrice).Some? ==>
                r == Fail(ItemArgumentsError(sku, quantity, unitPrice).value) &&
                items == old(items) && Lines() == old(Lines())
      ensures ItemArgumentsError(sku, quantity, unitPrice).None? ==>
                r == Pass &&
                Lines() == AddLine(old(Lines()), Line(Normalize(sku.value), quantity, unitPrice.value)).value
    {
      var created := OrderItem.Create(sku, quantity, unitPrice);
      match created
      case Err(e) =>
        r := Fail(e);
      case Ok(item) =>
        r := AddItem(item);
    }

    /** `Order.RemoveItem(sku, quantity)`: as RemoveLine on the lines. Every
        failure leaves the order unchanged; a success lowers one line and removes
        that item exactly when its quantity reaches 0. */
    method RemoveItem(sku: Option<string>, quantity: real) returns (r: Outcome)
      requires Valid()
      modifies this, items
      ensures Valid()
      ensures var expected := RemoveLine(old(Lines()), sku, quantity);
              (r.Pass? <==> expected.Ok?) &&
              (r.Pass? ==> Lines() == expected.value) &&
              (r.Fail? ==> r.error == expected.error && Lines() == old(Lines()) && items == old(items))
      ensures forall x :: x in items ==> x in old(items)
    {
      var normalized := NormalizeSku(sku);
      if normalized.Err? {
        return Fail(normalized.error);
      }
      var key := normalized.value;
      var found := FindSku(Lines(), key);
      if found.None? {
        return Fail(InvalidOperation);
      }
      var k := found.value;
      if items[k].quantity < quantity {
        return Fail(InvalidOperation);
      }
      r := LowerItem(k, quantity);
    }

    /** The tail of `Order.RemoveItem` once item k is known to hold at least
        the quantity: decrease it, and drop it from the list when it reaches
        0. */
    method LowerItem(k: nat, quantity: real) returns (r: Outcome)
      requires Valid() && k < |items| && quantity <= items[k].quantity
      modifies this, items
      ensures Valid()
      ensures quantity <= 0.0 ==> (r == Fail(ArgumentOutOfRange("quantityToDecrease")) &&
                items == old(items) && Lines() == old(Lines()))
      ensures quantity > 0.0 ==> r == Pass && Lines() == LowerLine(old(Lines()), k, quantity)
      ensures forall x :: x in items ==> x in old(items)
    {
      ghost var before := Lines();
      r := DecreaseAt(k, quantity);
      if r.Fail? {
        return;
      }
      LowerLineDistinct(before, k, quantity);
      if items[k].quantity == 0.0 {
        DeleteAt(k);
        assert before[k].quantity - quantity == 0.0;
      } else {
        assert before[k].quantity - quantity != 0.0;
      }
    }

    /** `OrderItem.Decrease` on item k: the list keeps its items, and only
        line k changes, by the quantity taken off. */
    method DecreaseAt(k: nat, quantity: real) returns (r: Outcome)
      requires Valid() && k < |items| && quantity <= items[k].quantity
      modifies items[k]
      ensures forall x :: x in items ==> x.Valid()
      ensures quantity <= 0.0 ==> (r == Fail(ArgumentOutOfRange("quantityToDecrease")) &&
                Lines() == old(Lines()))
      ensures quantity > 0.0 ==> (r == Pass &&
                Lines() == old(Lines())[k := old(Lines())[k].(quantity := old(Lines())[k].quantity - quantity)])
    {
      ghost var before := Lines();
      var line := items[k];
      OthersDiffer(items, k);
      r := line.Decrease(quantity);
      assert Lines() == before[k := line.View()] by {
        forall i | 0 <= i < |items| ensures Lines()[i] == before[k := line.View()][i] {
        }
      }
    }

    /** `_items.Remove(item)` for item k: the list loses that item and its
        line, and every other item stays. */
    method DeleteAt(k: nat)
      requires k < |items|
      modifies this
      ensures items == old(items)[..k] + old(items)[k + 1..]
      ensures Lines() == old(Lines())[..k] + old(Lines())[k + 1..]
    {
      DeleteItem(items, k);
      items := items[..k] + items[k + 1..];
    }
  }
}
