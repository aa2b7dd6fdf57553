/** Folding the errors of failing policies into the diagnostics of one image. */
module ErrorFolding {
  import opened Wrappers
  import opened FieldErrors

  /** An error of a policy: a levelled diagnostic, or any other error. */
  datatype PolicyError = Field(fe: FieldError) | Plain(text: string)

  /** The fold counts a diagnostic as a warning if it holds one, and as an error otherwise. */
  predicate Cautions(e: PolicyError) { e.Field? && Holds(Some(e.fe), WarningLevel) }

  predicate Blames(e: PolicyError) { e.Field? && !Holds(Some(e.fe), WarningLevel) }

  predicate AnyCautions(errors: seq<PolicyError>) { exists i | 0 <= i < |errors| :: Cautions(errors[i]) }

  predicate AnyBlames(errors: seq<PolicyError>) { exists i | 0 <= i < |errors| :: Blames(errors[i]) }

  function FailedPolicy(name: string): string { "failed policy: " + name }

  function Diagnostic(name: string, path: string, details: string): FieldError {
    FieldError(FailedPolicy(name), [path], ErrorLevel, details, [])
  }

  lemma DiagnosticHolds(name: string, path: string, details: string, message: string)
    ensures Holds(Some(Diagnostic(name, path, details)), ErrorLevel)
    ensures !Holds(Some(Diagnostic(name, path, details)), WarningLevel)
    ensures Mentions(Some(Diagnostic(name, path, details)), message) <==> message == FailedPolicy(name)
  {
  }

  /** The inner loop: which kinds of diagnostics the errors of one policy contain, and the details text. */
  method Classify(image: string, errors: seq<PolicyError>)
    returns (warned: bool, blamed: bool, warnDetails: string, errDetails: string)
    ensures warned <==> AnyCautions(errors)
    ensures blamed <==> AnyBlames(errors)
    ensures !warned ==> warnDetails == image
  {
    warned, blamed, warnDetails, errDetails := false, false, image, image;
    for i := 0 to |errors|
      invariant warned <==> exists j | 0 <= j < i :: Cautions(errors[j])
      invariant blamed <==> exists j | 0 <= j < i :: Blames(errors[j])
      invariant !warned ==> warnDetails == image
    {
      match errors[i]
      case Field(fe) =>
        FilterHolds(Some(fe), WarningLevel);
        if Filter(Some(fe), WarningLevel).Some? {
          warnDetails := warnDetails + " " + fe.message;
          warned := true;
        } else {
          errDetails := errDetails + " " + fe.message;
          blamed := true;
        }
      case Plain(text) => errDetails := errDetails + " " + text;
    }
  }

  /** One policy's contribution, given the flags as they stand after it. */
  method Append(errs: Option<FieldError>, name: string, path: string, hasWarnings: bool, hasErrors: bool,
                warnDetails: string, errDetails: string) returns (r: Option<FieldError>)
    ensures Holds(r, ErrorLevel) <==> hasErrors || (Holds(errs, ErrorLevel) && !hasWarnings)
    ensures Holds(r, WarningLevel) <==> hasWarnings || Holds(errs, WarningLevel)
    ensures forall message :: Mentions(r, message) <==>
      Mentions(errs, message) || ((hasWarnings || hasErrors) && message == FailedPolicy(name))
  {
    r := errs;
    if hasWarnings {
      var warning := Some(Diagnostic(name, path, warnDetails));
      forall message
        ensures Mentions(At(Also(r, warning), WarningLevel), message) <==>
          Mentions(r, message) || message == FailedPolicy(name)
      {
        DiagnosticHolds(name, path, warnDetails, message);
        AlsoMentions(r, warning, message);
        AtMentions(Also(r, warning), WarningLevel, message);
      }
      DiagnosticHolds(name, path, warnDetails, "");
      AlsoHolds(r, warning, ErrorLevel);
      AtHolds(Also(r, warning), WarningLevel, ErrorLevel);
      AtHolds(Also(r, warning), WarningLevel, WarningLevel);
      r := At(Also(r, warning), WarningLevel);
    }
    if hasErrors {
      var error := Some(Diagnostic(name, path, errDetails));
      forall message
        ensures Mentions(Also(r, error), message) <==> Mentions(r, message) || message == FailedPolicy(name)
      {
        DiagnosticHolds(name, path, errDetails, message);
        AlsoMentions(r, error, message);
      }
      DiagnosticHolds(name, path, errDetails, "");
      AlsoHolds(r, error, ErrorLevel);
      AlsoHolds(r, error, WarningLevel);
      r := Also(r, error);
    }
  }

  ghost predicate IsOrderOf(order: seq<string>, failing: map<string, seq<PolicyError>>) {
    && (forall k :: k in order <==> k in failing)
    && (forall i, j :: 0 <= i < j < |order| ==> order[i] != order[j])
  }

  /**
   The fold over the map of failing policies, in any iteration order. The two flags outlive the policy that sets them
   and a warning relabels everything before it; nevertheless the levels of the result do not depend on the order, and
   plain errors alone leave no diagnostic at all.
   */
  method ErrorsToFieldErrors(image: string, path: string, failing: map<string, seq<PolicyError>>, order: seq<string>)
    returns (errs: Option<FieldError>)
    requires IsOrderOf(order, failing)
    ensures Holds(errs, ErrorLevel) <==> exists k :: k in failing && AnyBlames(failing[k])
    ensures Holds(errs, WarningLevel) <==> exists k :: k in failing && AnyCautions(failing[k])
    ensures forall k :: k in failing && (AnyBlames(failing[k]) || AnyCautions(failing[k])) ==>
      Mentions(errs, FailedPolicy(k))
    ensures forall message :: Mentions(errs, message) ==> exists k :: k in failing && message == FailedPolicy(k)
  {
    errs := None;
    var hasWarnings, hasErrors := false, false;
    for i := 0 to |order|
      invariant hasErrors <==> exists k :: k in order[..i] && AnyBlames(failing[k])
      invariant hasWarnings <==> exists k :: k in order[..i] && AnyCautions(failing[k])
      invariant Holds(errs, ErrorLevel) <==> hasErrors
      invariant Holds(errs, WarningLevel) <==> hasWarnings
      invariant forall k :: k in order[..i] && (AnyBlames(failing[k]) || AnyCautions(failing[k])) ==>
        Mentions(errs, FailedPolicy(k))
      invariant forall message :: Mentions(errs, message) ==> exists k :: k in order[..i] && message == FailedPolicy(k)
    {
      var k := order[i];
      assert order[..i + 1] == order[..i] + [k];
      var warned, blamed, warnDetails, errDetails := Classify(image, failing[k]);
      hasWarnings, hasErrors := hasWarnings || warned, hasErrors || blamed;
      errs := Append(errs, k, path, hasWarnings, hasErrors, warnDetails, errDetails);
    }
    assert order[..|order|] == order;
  }
}
