/** SKU canonicalisation (Order/Helpers/OrderHelper.cs). */
module OrderHelpers {
  import opened Common
  import opened Text

  /** `raw.Where(c => !char.IsWhiteSpace(c))`: the non-white-space characters
      of the input, in their original order. */
  function StripWhiteSpace(s: string): string {
    if s == [] then []
    else if IsWhiteSpace(s[0]) then StripWhiteSpace(s[1..])
    else [s[0]] + StripWhiteSpace(s[1..])
  }

  /** The canonical form of a non-null SKU: white space removed, then
      upper-cased. */
  function Normalize(raw: string): string {
    ToUpperInvariant(StripWhiteSpace(raw))
  }

  /** `OrderHelper.NormalizeSku(raw)`: a null input throws ArgumentNullException
      (parameter "raw"); otherwise the result is the canonical form. */
  function NormalizeSku(raw: Option<string>): (r: Result<string>)
    ensures r.Err? <==> raw.None?
    ensures r.Err? ==> r.error == ArgumentNull("raw")
    ensures r.Ok? ==> r.value == Normalize(raw.value)
    ensures r.Ok? ==> NoWhiteSpace(r.value) && |r.value| <= |raw.value|
  {
    match raw
    case None => Err(ArgumentNull("raw"))
    case Some(s) =>
      NormalizeHasNoWhiteSpace(s);
      NormalizeLength(s);
      Ok(Normalize(s))
  }

  predicate NoWhiteSpace(s: string) {
    forall i :: 0 <= i < |s| ==> !IsWhiteSpace(s[i])
  }

  lemma {:induction false} StripConcat(a: string, b: string)
    ensures StripWhiteSpace(a + b) == StripWhiteSpace(a) + StripWhiteSpace(b)
    decreases |a|
  {
    if a == [] {
      assert a + b == b;
    } else {
      assert (a + b)[0] == a[0];
      assert (a + b)[1..] == a[1..] + b;
      StripConcat(a[1..], b);
    }
  }

  lemma UpperConcat(a: string, b: string)
    ensures ToUpperInvariant(a + b) == ToUpperInvariant(a) + ToUpperInvariant(b)
  {
  }

  /** Normalisation works character by character: it distributes over
      concatenation and maps one character to nothing (white space) or to its
      upper-case form. These two facts determine Normalize completely: the
      result is the upper-cased subsequence of the non-white-space characters,
      in their original order. */
  lemma {:induction false} NormalizeConcat(a: string, b: string)
    ensures Normalize(a + b) == Normalize(a) + Normalize(b)
  {
    StripConcat(a, b);
    UpperConcat(StripWhiteSpace(a), StripWhiteSpace(b));
  }

  lemma NormalizeChar(c: char)
    ensures Normalize([c]) == if IsWhiteSpace(c) then [] else [ToUpperChar(c)]
  {
    assert [c][1..] == [];
    assert StripWhiteSpace([c]) == if IsWhiteSpace(c) then [] else [c];
    assert ToUpperInvariant([c]) == [ToUpperChar(c)];
  }

  lemma {:induction false} StripHasNoWhiteSpace(s: string)
    ensures NoWhiteSpace(StripWhiteSpace(s))
    decreases |s|
  {
    if s != [] {
      StripHasNoWhiteSpace(s[1..]);
    }
  }

  /** The result contains no white space. */
  lemma {:induction false} NormalizeHasNoWhiteSpace(s: string)
    ensures NoWhiteSpace(Normalize(s))
  {
    StripHasNoWhiteSpace(s);
    forall c ensures IsWhiteSpace(ToUpperChar(c)) <==> IsWhiteSpace(c) {
      UpperKeepsNonWhiteSpace(c);
    }
  }

  lemma {:induction false} StripLength(s: string)
    ensures |StripWhiteSpace(s)| <= |s|
    ensures |StripWhiteSpace(s)| == |s| <==> NoWhiteSpace(s)
    ensures StripWhiteSpace(s) == [] <==> IsBlank(s)
    decreases |s|
  {
    if s != [] {
      StripLength(s[1..]);
      if NoWhiteSpace(s[1..]) && !IsWhiteSpace(s[0]) {
        forall i | 0 <= i < |s| ensures !IsWhiteSpace(s[i]) {
          if i > 0 { assert s[i] == s[1..][i - 1]; }
        }
      }
      if IsBlank(s[1..]) && IsWhiteSpace(s[0]) {
        forall i | 0 <= i < |s| ensures IsWhiteSpace(s[i]) {
          if i > 0 { assert s[i] == s[1..][i - 1]; }
        }
      }
    }
  }

  /** The result is never longer than the input; it is exactly as long when the
      input has no white space, and empty exactly when the input is empty or
      all white space. */
  lemma {:induction false} NormalizeLength(s: string)
    ensures |Normalize(s)| <= |s|
    ensures |Normalize(s)| == |s| <==> NoWhiteSpace(s)
    ensures Normalize(s) == [] <==> IsBlank(s)
  {
    StripLength(s);
  }

  lemma {:induction false} StripOfClean(s: string)
    requires NoWhiteSpace(s)
    ensures StripWhiteSpace(s) == s
    decreases |s|
  {
    if s != [] {
      StripOfClean(s[1..]);
    }
  }

  /** Normalising twice gives the same SKU as normalising once. */
  lemma {:induction false} NormalizeIdempotent(s: string)
    ensures Normalize(Normalize(s)) == Normalize(s)
  {
    NormalizeHasNoWhiteSpace(s);
    StripOfClean(Normalize(s));
    var u := StripWhiteSpace(s);
    assert ToUpperInvariant(ToUpperInvariant(u)) == ToUpperInvariant(u);
  }
}
