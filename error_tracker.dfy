/**
 * `ErrorTracker`: append-only logs of the errors, successes and warnings of
 * one run, with counting queries over them.
 */
module ErrorTracking {
  import opened Wrappers
  import opened Json

  /** `ErrorRecord`; the creation timestamp is not modelled. */
  datatype ErrorRecord = ErrorRecord(errorType: string, message: string, context: Option<string>, recoverable: bool)

  /** `SuccessRecord`; the creation timestamp is not modelled. */
  datatype SuccessRecord = SuccessRecord(operation: string, details: Option<Json>)

  /** `get_summary()` */
  datatype TrackerSummary = TrackerSummary(successes: nat, errors: nat, warnings: nat, fatalErrors: nat)

  /** `sum(1 for e in errors if not e.recoverable)` */
  function FatalCount(errors: seq<ErrorRecord>): nat {
    if errors == [] then 0
    else FatalCount(errors[..|errors| - 1]) + (if errors[|errors| - 1].recoverable then 0 else 1)
  }

  /** Non-recoverable errors are a part of all errors, and there is one exactly when the count is positive. */
  lemma {:induction false} FatalCountFacts(errors: seq<ErrorRecord>)
    ensures FatalCount(errors) <= |errors|
    ensures FatalCount(errors) > 0 <==> exists i :: 0 <= i < |errors| && !errors[i].recoverable
  {
    if errors != [] {
      var p := errors[..|errors| - 1];
      FatalCountFacts(p);
      if exists i :: 0 <= i < |p| && !p[i].recoverable {
        var i :| 0 <= i < |p| && !p[i].recoverable;
        assert errors[i] == p[i];
      }
      if exists i :: 0 <= i < |errors| && !errors[i].recoverable {
        var i :| 0 <= i < |errors| && !errors[i].recoverable;
        if i < |p| {
          assert p[i] == errors[i];
        }
      }
    }
  }

  /**
   * One more error raises the fatal count by one exactly when it is not
   * recoverable, so the run has a fatal error afterwards exactly when it had
   * one before or the new error is not recoverable.
   */
  lemma FatalCountAppend(errors: seq<ErrorRecord>, e: ErrorRecord)
    ensures FatalCount(errors + [e]) == FatalCount(errors) + (if e.recoverable then 0 else 1)
    ensures FatalCount(errors + [e]) > 0 <==> FatalCount(errors) > 0 || !e.recoverable
  {
    assert (errors + [e])[..|errors|] == errors;
  }

  class ErrorTracker {
    var errors: seq<ErrorRecord>
    var successes: seq<SuccessRecord>
    var warnings: seq<string>

    constructor ()
      ensures errors == [] && successes == [] && warnings == []
    {
      errors := [];
      successes := [];
      warnings := [];
    }

    /** `add_error`; `recoverable` defaults to true as in the source. */
    method AddError(errorType: string, message: string, context: Option<string> := None, recoverable: bool := true)
      modifies this
      ensures errors == old(errors) + [ErrorRecord(errorType, message, context, recoverable)]
      ensures successes == old(successes) && warnings == old(warnings)
    {
      errors := errors + [ErrorRecord(errorType, message, context, recoverable)];
    }

    /** `add_success` */
    method AddSuccess(operation: string, details: Option<Json> := None)
      modifies this
      ensures successes == old(successes) + [SuccessRecord(operation, details)]
      ensures errors == old(errors) && warnings == old(warnings)
    {
      successes := successes + [SuccessRecord(operation, details)];
    }

    /** `add_warning` */
    method AddWarning(message: string)
      modifies this
      ensures warnings == old(warnings) + [message]
      ensures errors == old(errors) && successes == old(successes)
    {
      warnings := warnings + [message];
    }

    /** `has_fatal_errors()`: some recorded error is not recoverable. */
    predicate HasFatalErrors()
      reads this
      ensures HasFatalErrors() <==> exists i :: 0 <= i < |errors| && !errors[i].recoverable
    {
      FatalCountFacts(errors);
      FatalCount(errors) > 0
    }

    /** `get_summary()`: the three log lengths and the number of non-recoverable errors. */
    function GetSummary(): (s: TrackerSummary)
      reads this
      ensures s.successes == |successes| && s.errors == |errors| && s.warnings == |warnings|
      ensures s.fatalErrors <= s.errors
      ensures s.fatalErrors > 0 <==> HasFatalErrors()
    {
      FatalCountFacts(errors);
      TrackerSummary(|successes|, |errors|, |warnings|, FatalCount(errors))
    }
  }
}
