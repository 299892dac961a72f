/** The Money value object (Money.cs): an immutable, non-negative amount. */
module ValueObjects {
  import opened Common

  /** decimal amounts, modelled exactly. */
  type NonNegative = x: real | x >= 0.0

  /** Every Money holds a non-negative Value, fixed at construction. */
  datatype Money = Money(value: NonNegative)

  /** `new Money(value)`: a negative value throws ArgumentOutOfRangeException;
      zero and every positive value are accepted and stored as given. */
  function NewMoney(value: real): (r: Result<Money>)
    ensures r.Ok? <==> value >= 0.0
    ensures r.Ok? ==> r.value.value == value
    ensures r.Err? ==> r.error == ArgumentOutOfRange("value")
  {
    if value < 0.0 then Err(ArgumentOutOfRange("value")) else Ok(Money(value))
  }

  /** `Money.Equals(object? obj)`: only another Money with the same Value. */
  function Equals(m: Money, obj: Object<Money>): bool {
    obj.Instance? && obj.value.value == m.value
  }

  /** `Money.GetHashCode()`: the hash of Value; decimal's own hash function is
      not modelled and is passed in. */
  function HashCode(m: Money, valueHash: real -> int): int {
    valueHash(m.value)
  }

  /** Equals is an equivalence on Money instances: two Money values are
      equal exactly when they are the same value. */
  lemma EqualsIsEquivalence(a: Money, b: Money, c: Money)
    ensures Equals(a, Instance(b)) <==> a == b
    ensures Equals(a, Instance(a))
    ensures Equals(a, Instance(b)) <==> Equals(b, Instance(a))
    ensures Equals(a, Instance(b)) && Equals(b, Instance(c)) ==> Equals(a, Instance(c))
    ensures !Equals(a, Null) && !Equals(a, Foreign)
  {
  }

  /** Equal Money values have equal hash codes, whatever decimal's hash is. */
  lemma EqualsImpliesEqualHash(a: Money, b: Money, valueHash: real -> int)
    requires Equals(a, Instance(b))
    ensures HashCode(a, valueHash) == HashCode(b, valueHash)
  {
  }
}
