/**
  Input validation for the feedback API (backend/app/validators.py): the submission body
  (text and category), the pagination query parameters and the category filter.
  A raised `ValidationError` is an `Err(Invalid(code, field))`; any other exception raised
  while validating is `Err(Raised)` (the route decorator reports it as VALIDATION_ERROR).
*/
module Validators {
  import opened Wrappers
  import opened Text
  import opened Json

  const MinTextLength := 10
  const MaxTextLength := 5000
  const ValidCategories: seq<string> := ["general", "service", "product", "support", "billing", "technical"]
  const ScriptScheme := "javascript:"

  datatype Failure =
    | Invalid(code: string, field: Option<string>)
    | Raised

  datatype Submission = Submission(text: string, category: string)

  /** The suspicious-content scan. The literal `javascript:` pattern is checked here; the
      other five regular expressions are the caller-supplied `otherPatterns`. Both look at
      the lower-cased text. */
  predicate Suspicious(text: string, otherPatterns: string -> bool) {
    var lower := Lower(text);
    Contains(lower, ScriptScheme) || otherPatterns(lower)
  }

  /** `_validate_text`: accepted text is the stripped input, 10 to 5000 characters long and
      free of suspicious content; every other input gets the matching error code. */
  function ValidateText(v: Value, otherPatterns: string -> bool): (r: Result<string, Failure>)
    ensures r.Ok? <==> v.Str? && MinTextLength <= |Strip(v.s)| <= MaxTextLength
                       && !Suspicious(Strip(v.s), otherPatterns)
    ensures r.Ok? ==> r.value == Strip(v.s) && !Contains(Lower(r.value), ScriptScheme)
    ensures !Truthy(v) ==> r == Err(Invalid("MISSING_TEXT", Some("text")))
    ensures Truthy(v) && !v.Str? ==> r == Err(Invalid("INVALID_TYPE", Some("text")))
    ensures v.Str? && v.s != [] && |Strip(v.s)| < MinTextLength ==> r == Err(Invalid("TEXT_TOO_SHORT", Some("text")))
    ensures v.Str? && |Strip(v.s)| > MaxTextLength ==> r == Err(Invalid("TEXT_TOO_LONG", Some("text")))
    ensures v.Str? && MinTextLength <= |Strip(v.s)| <= MaxTextLength && Suspicious(Strip(v.s), otherPatterns) ==>
              r == Err(Invalid("SUSPICIOUS_CONTENT", Some("text")))
  {
    if !Truthy(v) then Err(Invalid("MISSING_TEXT", Some("text")))
    else if !v.Str? then Err(Invalid("INVALID_TYPE", Some("text")))
    else
      var text := Strip(v.s);
      if |text| < MinTextLength then Err(Invalid("TEXT_TOO_SHORT", Some("text")))
      else if |text| > MaxTextLength then Err(Invalid("TEXT_TOO_LONG", Some("text")))
      else if Suspicious(text, otherPatterns) then Err(Invalid("SUSPICIOUS_CONTENT", Some("text")))
      else Ok(text)
  }

  /** `_validate_category`: `None` means 'general'; a string is stripped and lower-cased and
      must then be one of the six categories. */
  function ValidateCategory(v: Value): (r: Result<string, Failure>)
    ensures r.Ok? ==> r.value in ValidCategories
    ensures v == Null ==> r == Ok("general")
    ensures v != Null && !v.Str? ==> r == Err(Invalid("INVALID_TYPE", Some("category")))
    ensures v.Str? ==> (r.Ok? <==> Lower(Strip(v.s)) in ValidCategories)
    ensures v.Str? && r.Ok? ==> r.value == Lower(Strip(v.s))
    ensures v.Str? && r.Err? ==> r == Err(Invalid("INVALID_CATEGORY", Some("category")))
  {
    if v == Null then Ok("general")
    else if !v.Str? then Err(Invalid("INVALID_TYPE", Some("category")))
    else
      var category := Lower(Strip(v.s));
      if category !in ValidCategories then Err(Invalid("INVALID_CATEGORY", Some("category")))
      else Ok(category)
  }

  /** `validate_feedback_submission`: an empty body is MISSING_BODY; the text is checked
      before the category, and an absent category defaults to 'general'. */
  function ValidateSubmission(data: Value, otherPatterns: string -> bool): (r: Result<Submission, Failure>)
    ensures !Truthy(data) ==> r == Err(Invalid("MISSING_BODY", None))
    ensures Truthy(data) && !data.Object? ==> r == Err(Raised)
    ensures r.Ok? ==> data.Object? && MinTextLength <= |r.value.text| <= MaxTextLength
                      && !Suspicious(r.value.text, otherPatterns)
                      && r.value.category in ValidCategories
    ensures r.Ok? ==> ValidateText(Get(data.fields, "text", Null), otherPatterns) == Ok(r.value.text)
    ensures r.Ok? ==> ValidateCategory(Get(data.fields, "category", Str("general"))) == Ok(r.value.category)
    ensures Truthy(data) && data.Object? && ValidateText(Get(data.fields, "text", Null), otherPatterns).Ok? ==>
              var category := ValidateCategory(Get(data.fields, "category", Str("general")));
              (r.Ok? <==> category.Ok?) && (category.Err? ==> r == Err(category.error))
  {
    if !Truthy(data) then Err(Invalid("MISSING_BODY", None))
    else if !data.Object? then Err(Raised)
    else
      match ValidateText(Get(data.fields, "text", Null), otherPatterns)
      case Err(e) => Err(e)
      case Ok(text) =>
        match ValidateCategory(Get(data.fields, "category", Str("general")))
        case Err(e) => Err(e)
        case Ok(category) => Ok(Submission(text, category))
  }

  /** A body without a category key, or with a `null` one, is filed under 'general' once its
      text passes. */
  lemma SubmissionDefaultsToGeneral(fields: map<string, Value>, otherPatterns: string -> bool)
    requires "category" !in fields || fields["category"] == Null
    requires ValidateText(Get(fields, "text", Null), otherPatterns).Ok?
    ensures ValidateSubmission(Object(fields), otherPatterns)
            == Ok(Submission(ValidateText(Get(fields, "text", Null), otherPatterns).value, "general"))
  {
    assert "text" in fields;
    if "category" !in fields {
      DefaultCategoryValid();
    }
  }

  /** The default 'general' passes the category check as it is. */
  lemma DefaultCategoryValid()
    ensures ValidateCategory(Str("general")) == Ok("general")
  {
    var g := "general";
    assert g[0] == 'g' && g[|g| - 1] == 'l';
    StripTrimmed(g);
    assert forall k :: 0 <= k < |g| ==> LowerChar(g[k]) == g[k];
    assert Lower(g) == g;
  }

  /** Whatever its letter case and wherever it stands, a `javascript:` in the submitted text
      gets the text rejected. */
  lemma ScriptSchemeRejected(raw: string, i: int, otherPatterns: string -> bool)
    requires OccursAt(Lower(raw), ScriptScheme, i)
    ensures ValidateText(Str(raw), otherPatterns).Err?
    ensures MinTextLength <= |Strip(raw)| <= MaxTextLength ==>
              ValidateText(Str(raw), otherPatterns) == Err(Invalid("SUSPICIOUS_CONTENT", Some("text")))
  {
    var text := Strip(raw);
    if MinTextLength <= |text| <= MaxTextLength {
      StripKeepsOccurrence(Lower(raw), ScriptScheme, i);
      LowerStripCommute(raw);
      assert Suspicious(text, otherPatterns);
    }
  }

  /** The submission's own text check comes first: with a text that fails, the category is
      never looked at. */
  lemma TextCheckedFirst(fields: map<string, Value>, otherPatterns: string -> bool)
    requires fields != map[]
    requires ValidateText(Get(fields, "text", Null), otherPatterns).Err?
    ensures ValidateSubmission(Object(fields), otherPatterns)
            == Err(ValidateText(Get(fields, "text", Null), otherPatterns).error)
  {
  }

  /** `int(x)` as the pagination check applies it; `None` is a ValueError or TypeError. */
  function PyInt(v: Value): Option<int> {
    match v
    case Int(i) => Some(i)
    case Bool(b) => Some(if b then 1 else 0)
    case Float(r) => Some(if r >= 0.0 then r.Floor else -((-r).Floor))
    case Str(s) => ParseInt(s)
    case _ => None
  }

  function Clamp(lo: int, x: int, hi: int): int {
    if x < lo then lo else if x > hi then hi else x
  }

  /** `validate_pagination`: always a page of at least 1 and a page size between 1 and 100. */
  function ValidatePagination(page: Value, perPage: Value): (r: (int, int))
    ensures r.0 >= 1 && 1 <= r.1 <= 100
  {
    var p :=
      if page == Null then 1
      else match PyInt(page)
        case None => 1
        case Some(n) => if n < 1 then 1 else n;
    var pp :=
      if perPage == Null then 10
      else match PyInt(perPage)
        case None => 10
        case Some(n) => Clamp(1, n, 100);
    (p, pp)
  }

  /** Absent or unreadable parameters fall back to page 1 of 10 items; readable ones are
      raised to 1 or clamped into 1..100. */
  lemma PaginationCases(page: Value, perPage: Value)
    ensures (page == Null || PyInt(page).None?) ==> ValidatePagination(page, perPage).0 == 1
    ensures (perPage == Null || PyInt(perPage).None?) ==> ValidatePagination(page, perPage).1 == 10
    ensures page != Null && PyInt(page).Some? ==>
              ValidatePagination(page, perPage).0 == if PyInt(page).value < 1 then 1 else PyInt(page).value
    ensures perPage != Null && PyInt(perPage).Some? ==>
              ValidatePagination(page, perPage).1 == Clamp(1, PyInt(perPage).value, 100)
  {
  }

  /** Feeding the validated pair back in returns it unchanged. */
  lemma PaginationIdempotent(page: Value, perPage: Value)
    ensures var r := ValidatePagination(page, perPage);
            ValidatePagination(Int(r.0), Int(r.1)) == r
  {
  }

  /** A query string that already holds a valid page and page size is taken at its word,
      except a page number too long for `int` to read, which falls back to page 1. */
  lemma PaginationReadsDecimal(page: nat, perPage: nat)
    requires page >= 1 && 1 <= perPage <= 100
    ensures ValidatePagination(Str(NatToString(page)), Str(NatToString(perPage)))
            == (if |NatToString(page)| <= MaxStrDigits then page else 1, perPage)
  {
    var p, q := NatToString(page), NatToString(perPage);
    ParseIntOfNatToString(perPage);
    NatToStringLength(perPage);
    assert PyInt(Str(q)) == Some(perPage);
    ParseIntOfNatToString(page);
    if |p| <= MaxStrDigits {
      assert PyInt(Str(p)) == Some(page);
    } else {
      assert PyInt(Str(p)) == None;
    }
  }

  /** `validate_category_filter`: never raises; gives no filter or one of the six categories. */
  function ValidateCategoryFilter(v: Value): (r: Option<string>)
    ensures r.Some? ==> r.value in ValidCategories
    ensures !Truthy(v) || !v.Str? ==> r == None
  {
    if !Truthy(v) then None
    else if !v.Str? then None
    else
      var category := Lower(Strip(v.s));
      if category in ValidCategories then Some(category) else None
  }

  /** On a non-empty string the filter accepts exactly what the submission check accepts,
      with the same normalised result. */
  lemma FilterAgreesWithCategory(s: string, c: string)
    requires s != []
    ensures ValidateCategoryFilter(Str(s)) == Some(c) <==> ValidateCategory(Str(s)) == Ok(c)
  {
  }
}
