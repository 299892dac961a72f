/** Guard clauses shared by the association lessons (Guards/Guard.cs). */
module Guards {
  import opened Common
  import opened Text

  /** `Guard.AgainstNull(ref value, paramName)`: throws ArgumentNullException
      carrying `paramName` exactly when the value is null; otherwise it returns
      normally and the caller's value is the same as before (the `ref` is never
      written). */
  function AgainstNull<T>(value: Option<T>, paramName: string): (r: Result<T>)
    ensures r.Err? <==> value.None?
    ensures r.Err? ==> r.error == ArgumentNull(paramName)
    ensures r.Ok? ==> Some(r.value) == value
  {
    match value
    case None => Err(ArgumentNull(paramName))
    case Some(v) => Ok(v)
  }

  /** `Guard.TryParseNonEmpty(s, out result)`: succeeds exactly when `s` is
      non-null and holds a character that is not white space; the `out` value is
      then `s` itself, untrimmed, and null otherwise. */
  function TryParseNonEmpty(s: Option<string>): (r: (bool, Option<string>))
    ensures r.0 <==> s.Some? && exists i :: 0 <= i < |s.value| && !IsWhiteSpace(s.value[i])
    ensures r.0 ==> r.1 == s
    ensures !r.0 ==> r.1 == None
  {
    if !IsNullOrWhiteSpace(s) then (true, s) else (false, None)
  }

  /** The rule `SetDescription` of Category and of Product applies: keep the
      text verbatim when it has content, store null otherwise. */
  function NonBlankOrNull(s: Option<string>): (r: Option<string>)
    ensures r.Some? <==> !IsNullOrWhiteSpace(s)
    ensures r.Some? ==> r == s
  {
    var (ok, result) := TryParseNonEmpty(s);
    if ok then result else None
  }

  /** Setting a description to the one already stored changes nothing. */
  lemma NonBlankOrNullIdempotent(s: Option<string>)
    ensures NonBlankOrNull(NonBlankOrNull(s)) == NonBlankOrNull(s)
  {
  }
}
