/**
 * `validate_input`: the checks of a parsed input, one error per failed
 * check, in a fixed order.
 */
module Validators {
  import opened Wrappers
  import opened Json
  import opened Config

  /** The input fields an error can name, in the order they are checked. */
  datatype InputField = CategoryField | MyBrandField | PlatformsField | PromptsField | CompetitorsField {
    /** The field's name in the input and in the error record. */
    function Name(): string {
      match this
      case CategoryField => "category"
      case MyBrandField => "myBrand"
      case PlatformsField => "platforms"
      case PromptsField => "prompts"
      case CompetitorsField => "competitors"
    }

    /** The field's place in the check order. */
    function Order(): nat {
      match this
      case CategoryField => 0
      case MyBrandField => 1
      case PlatformsField => 2
      case PromptsField => 3
      case CompetitorsField => 4
    }
  }

  /** `InputValidationError`: every one raised here names one of the input fields. */
  datatype ValidationError = ValidationError(message: string, field: InputField, helpText: Option<string>)

  /** `to_dict()` */
  datatype ErrorDict = ErrorDict(kind: string, error: string, field: Option<string>)

  function ToDict(e: ValidationError): (d: ErrorDict)
    ensures d.kind == "validation_error" && d.error == e.message && d.field == Some(e.field.Name())
  {
    ErrorDict("validation_error", e.message, Some(e.field.Name()))
  }

  const CategoryError := ValidationError("Category is required", CategoryField, None)
  const BrandError := ValidationError("Brand name is required", MyBrandField, None)
  const PlatformsError := ValidationError("At least one platform is required", PlatformsField, None)
  const NoPromptsError := ValidationError("At least one prompt is required", PromptsField, None)
  const TooManyPromptsError := ValidationError("Maximum 3 prompts allowed", PromptsField, None)
  const CompetitorsError := ValidationError("Maximum 5 competitors allowed", CompetitorsField, None)

  /** Every check the input passes. */
  predicate IsValid(input: ActorInput) {
    input.category != "" && input.myBrand != "" && input.platforms != []
    && 1 <= |input.prompts| <= 3 && |input.competitors| <= 5
  }

  /** The errors name their fields in check order, each field at most once. */
  predicate InCheckOrder(errors: seq<ValidationError>) {
    forall i, j :: 0 <= i < j < |errors| ==> errors[i].field.Order() < errors[j].field.Order()
  }

  /** `[e]` when the check fails, nothing otherwise. */
  function Check(failed: bool, e: ValidationError): seq<ValidationError> {
    if failed then [e] else []
  }

  /** The errors of the five checks, in the order they run; the two prompt checks exclude each other. */
  function ValidationErrors(input: ActorInput): seq<ValidationError> {
    Check(input.category == "", CategoryError)
    + Check(input.myBrand == "", BrandError)
    + Check(input.platforms == [], PlatformsError)
    + (if input.prompts == [] then [NoPromptsError] else Check(|input.prompts| > 3, TooManyPromptsError))
    + Check(|input.competitors| > 5, CompetitorsError)
  }

  /** `validate_input` */
  method ValidateInput(input: ActorInput) returns (errors: seq<ValidationError>)
    ensures errors == ValidationErrors(input)
  {
    errors := [];
    if input.category == "" {
      errors := errors + [CategoryError];
    }
    assert errors == Check(input.category == "", CategoryError);
    ghost var e1 := errors;
    if input.myBrand == "" {
      errors := errors + [BrandError];
    }
    assert errors == e1 + Check(input.myBrand == "", BrandError);
    ghost var e2 := errors;
    if input.platforms == [] {
      errors := errors + [PlatformsError];
    }
    assert errors == e2 + Check(input.platforms == [], PlatformsError);
    ghost var e3 := errors;
    if input.prompts == [] {
      errors := errors + [NoPromptsError];
    } else if |input.prompts| > 3 {
      errors := errors + [TooManyPromptsError];
    }
    assert errors == e3 + (if input.prompts == [] then [NoPromptsError] else Check(|input.prompts| > 3, TooManyPromptsError));
    ghost var e4 := errors;
    if |input.competitors| > 5 {
      errors := errors + [CompetitorsError];
    }
    assert errors == e4 + Check(|input.competitors| > 5, CompetitorsError);
  }

  /** No error exactly when every check passes. */
  lemma NoErrorsIffValid(input: ActorInput)
    ensures ValidationErrors(input) == [] <==> IsValid(input)
  {
  }

  /** Every error names a field placed at most `k` in the check order. */
  predicate FieldsUpTo(es: seq<ValidationError>, k: int) {
    forall i :: 0 <= i < |es| ==> es[i].field.Order() <= k
  }

  /** Appending at most one error of a later field keeps the order. */
  lemma OrderedAppend(xs: seq<ValidationError>, k: int, ys: seq<ValidationError>, k': int)
    requires InCheckOrder(xs) && FieldsUpTo(xs, k) && |xs| <= k + 1
    requires |ys| <= 1 && k < k' && forall i :: 0 <= i < |ys| ==> ys[i].field.Order() == k'
    ensures InCheckOrder(xs + ys) && FieldsUpTo(xs + ys, k') && |xs + ys| <= k' + 1
  {
  }

  /** The errors come one per field at most, in check order, so there are at most five. */
  lemma ErrorsInCheckOrder(input: ActorInput)
    ensures InCheckOrder(ValidationErrors(input)) && |ValidationErrors(input)| <= 5
  {
    var a := Check(input.category == "", CategoryError);
    var b := Check(input.myBrand == "", BrandError);
    var c := Check(input.platforms == [], PlatformsError);
    var d := if input.prompts == [] then [NoPromptsError] else Check(|input.prompts| > 3, TooManyPromptsError);
    var e := Check(|input.competitors| > 5, CompetitorsError);
    assert ValidationErrors(input) == a + b + c + d + e;
    CheckAtMostOne(input.category == "", CategoryError, 0);
    CheckAtMostOne(input.myBrand == "", BrandError, 1);
    CheckAtMostOne(input.platforms == [], PlatformsError, 2);
    CheckAtMostOne(|input.competitors| > 5, CompetitorsError, 4);
    if input.prompts == [] {
      assert AtMostOneOf(d, 3);
    } else {
      CheckAtMostOne(|input.prompts| > 3, TooManyPromptsError, 3);
    }
    OrderedChecks(a, b, c, d, e);
  }

  lemma CheckAtMostOne(failed: bool, e: ValidationError, k: int)
    requires e.field.Order() == k
    ensures AtMostOneOf(Check(failed, e), k)
  {
  }

  /** One error at most per check, each naming the check's field. */
  predicate AtMostOneOf(es: seq<ValidationError>, k: int) {
    |es| <= 1 && forall i :: 0 <= i < |es| ==> es[i].field.Order() == k
  }

  lemma OrderedChecks(a: seq<ValidationError>, b: seq<ValidationError>, c: seq<ValidationError>,
                      d: seq<ValidationError>, e: seq<ValidationError>)
    requires AtMostOneOf(a, 0) && AtMostOneOf(b, 1) && AtMostOneOf(c, 2) && AtMostOneOf(d, 3) && AtMostOneOf(e, 4)
    ensures InCheckOrder(a + b + c + d + e) && |a + b + c + d + e| <= 5
  {
    OrderedAppend(a, 0, b, 1);
    OrderedAppend(a + b, 1, c, 2);
    OrderedAppend(a + b + c, 2, d, 3);
    OrderedAppend(a + b + c + d, 3, e, 4);
  }

  /** Each error appears exactly when its check fails. */
  lemma ErrorsMatchChecks(input: ActorInput)
    ensures var es := ValidationErrors(input);
      && (CategoryError in es <==> input.category == "")
      && (BrandError in es <==> input.myBrand == "")
      && (PlatformsError in es <==> input.platforms == [])
      && (NoPromptsError in es <==> input.prompts == [])
      && (TooManyPromptsError in es <==> |input.prompts| > 3)
      && (CompetitorsError in es <==> |input.competitors| > 5)
  {
    var a := Check(input.category == "", CategoryError);
    var b := Check(input.myBrand == "", BrandError);
    var c := Check(input.platforms == [], PlatformsError);
    var d := if input.prompts == [] then [NoPromptsError] else Check(|input.prompts| > 3, TooManyPromptsError);
    var e := Check(|input.competitors| > 5, CompetitorsError);
    assert ValidationErrors(input) == a + b + c + d + e;
    assert NoPromptsError != TooManyPromptsError by {
      assert NoPromptsError.message[0] != TooManyPromptsError.message[0];
    }
    InFive(a, b, c, d, e, CategoryError);
    InFive(a, b, c, d, e, BrandError);
    InFive(a, b, c, d, e, PlatformsError);
    InFive(a, b, c, d, e, NoPromptsError);
    InFive(a, b, c, d, e, TooManyPromptsError);
    InFive(a, b, c, d, e, CompetitorsError);
  }

  /** Membership in the five checks' concatenation is membership in one of them. */
  lemma InFive(a: seq<ValidationError>, b: seq<ValidationError>, c: seq<ValidationError>,
               d: seq<ValidationError>, e: seq<ValidationError>, x: ValidationError)
    ensures x in a + b + c + d + e <==> x in a || x in b || x in c || x in d || x in e
  {
  }

  /** At most one error ever names the prompts. */
  lemma OnePromptsError(input: ActorInput)
    ensures var es := ValidationErrors(input);
      forall i, j :: 0 <= i < j < |es| ==> es[i].field != PromptsField || es[j].field != PromptsField
  {
    ErrorsInCheckOrder(input);
  }

  /** What `from_raw_input` returns never has too many prompts or competitors. */
  lemma ParsedInputWithinLimits(raw: seq<(string, Json)>)
    requires FromRawInput(raw).Success?
    ensures var es := ValidationErrors(FromRawInput(raw).value);
      TooManyPromptsError !in es && CompetitorsError !in es
  {
    FromRawInputShape(raw);
    ErrorsMatchChecks(FromRawInput(raw).value);
  }
}
