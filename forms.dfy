/** `Forms`: the value kinds and per-field checks shared by the two onboarding forms. */
module Forms {
  import opened Wrappers
  import opened Text
  import opened Types

  /** A value `handleChange(name, value: string | number)` can store in the form.
      Text inputs pass strings; the number input passes `parseInt(…) || 0`, an integer. */
  datatype FieldValue = Str(text: string) | Num(n: int)

  /** `!v?.trim()`: true when the text is blank. A number has no `trim`, so the
      check throws a TypeError. */
  function BlankCheck(v: FieldValue): (r: Reply<bool>)
    ensures r.Threw? <==> v.Num?
    ensures r.Returned? ==> (r.value <==> forall i :: 0 <= i < |v.text| ==> IsWhitespace(v.text[i]))
  {
    match v
    case Num(_) => Threw
    case Str(t) =>
      BlankIffAllWhitespace(t);
      Returned(IsBlank(t))
  }

  /** `!v`: JavaScript falsiness of a stored value. */
  predicate Falsy(v: FieldValue)
  {
    v == Str("") || v == Num(0)
  }

  /** `typeof v !== 'number' || v < 0`. */
  predicate NotNonNegativeNumber(v: FieldValue)
  {
    v.Str? || v.n < 0
  }

  /** What a submit does with the backend, in order. */
  datatype BackendCall = GetUserId | GetSession | FetchProfile(id: string) | Upsert(table: string, id: string) | SaveRole(role: Role)
}
