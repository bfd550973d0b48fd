/**
 * sample/pkg/apis/sample/v1alpha1/flunders.go: validation of a Flunder's
 * reference fields, as a list of field errors.
 */
module Flunders {
  const FlunderReferenceType: string := "Flunder"
  const FischerReferenceType: string := "Fischer"

  datatype FlunderSpec = FlunderSpec(flunderReference: string, fischerReference: string, referenceType: string)
  datatype Flunder = Flunder(name: string, spec: FlunderSpec)

  /** A field path, root first: field.NewPath("spec").Child("fischerReference") is ["spec", "fischerReference"]. */
  type Path = seq<string>

  /** Path.Child: the path extended by one field name. */
  function Child(path: Path, name: string): (p: Path)
    ensures |p| == |path| + 1 && p[..|path|] == path && p[|path|] == name
  {
    path + [name]
  }

  /** field.Invalid: an ErrorTypeInvalid error on a path, with the bad value and a detail. */
  datatype FieldError = Invalid(field: Path, badValue: string, detail: string)

  /** The outcome of the reference switch (it reports the first matching case only). */
  function SwitchErrors(s: FlunderSpec, path: Path): (r: seq<FieldError>)
    ensures |r| <= 1 && forall e :: e in r ==> |e.field| == |path| + 1 && e.field[..|path|] == path && e.field[|path|] != "referenceType"
  {
    if |s.flunderReference| != 0 && |s.fischerReference| != 0 then
      [Invalid(Child(path, "fischerReference"), s.fischerReference, "cannot be set with flunderReference at the same time")]
    else if |s.flunderReference| != 0 && s.referenceType != FlunderReferenceType then
      [Invalid(Child(path, "flunderReference"), s.flunderReference, "cannot be set if referenceType is not Flunder")]
    else if |s.fischerReference| != 0 && s.referenceType != FischerReferenceType then
      [Invalid(Child(path, "fischerReference"), s.fischerReference, "cannot be set if referenceType is not Fischer")]
    else if |s.fischerReference| == 0 && s.referenceType == FischerReferenceType then
      [Invalid(Child(path, "fischerReference"), s.fischerReference, "cannot be empty if referenceType is Fischer")]
    else if |s.flunderReference| == 0 && s.referenceType == FlunderReferenceType then
      [Invalid(Child(path, "flunderReference"), s.flunderReference, "cannot be empty if referenceType is Flunder")]
    else []
  }

  predicate KnownReferenceType(t: string) {
    |t| == 0 || t == FischerReferenceType || t == FlunderReferenceType
  }

  /** The specs the validator is meant to let through: at most one reference, named by its type, and no reference with no type. */
  predicate Acceptable(s: FlunderSpec) {
    || (|s.flunderReference| == 0 && |s.fischerReference| == 0 && |s.referenceType| == 0)
    || (|s.flunderReference| != 0 && |s.fischerReference| == 0 && s.referenceType == FlunderReferenceType)
    || (|s.flunderReference| == 0 && |s.fischerReference| != 0 && s.referenceType == FischerReferenceType)
  }

  /**
   * validateFlunderSpec: at most one error from the reference switch and at
   * most one for the type, every one on a child of `path`.
   */
  function ValidateFlunderSpec(s: FlunderSpec, path: Path): (r: seq<FieldError>)
    ensures |r| <= 2
    ensures forall i :: 0 <= i < |r| ==> |r[i].field| == |path| + 1 && r[i].field[..|path|] == path
  {
    SwitchErrors(s, path) +
    (if !KnownReferenceType(s.referenceType)
     then [Invalid(Child(path, "referenceType"), s.referenceType, "must be Flunder or Fischer")]
     else [])
  }

  /** The validator passes exactly the Acceptable specs. */
  lemma ValidateAcceptsExactly(s: FlunderSpec, path: Path)
    ensures ValidateFlunderSpec(s, path) == [] <==> Acceptable(s)
  {
    assert FlunderReferenceType != FischerReferenceType;
  }

  /** Both references set is reported first, on fischerReference, whatever the type. */
  lemma ValidateReportsBothReferences(s: FlunderSpec, path: Path)
    requires |s.flunderReference| != 0 && |s.fischerReference| != 0
    ensures var r := ValidateFlunderSpec(s, path);
      |r| >= 1 && r[0] == Invalid(Child(path, "fischerReference"), s.fischerReference, "cannot be set with flunderReference at the same time")
  {
  }

  /** An unknown type is reported, and reported last, on referenceType; a known one never is. */
  lemma ValidateReportsUnknownType(s: FlunderSpec, path: Path)
    ensures var r := ValidateFlunderSpec(s, path);
      !KnownReferenceType(s.referenceType) <==>
      |r| >= 1 && r[|r| - 1] == Invalid(Child(path, "referenceType"), s.referenceType, "must be Flunder or Fischer")
  {
    if KnownReferenceType(s.referenceType) {
      assert ValidateFlunderSpec(s, path) == SwitchErrors(s, path);
    }
  }

  /** A type whose reference is missing is reported on that reference, and nothing else is. */
  lemma ValidateReportsMissingReference(s: FlunderSpec, path: Path)
    requires |s.fischerReference| == 0 && |s.flunderReference| == 0
    ensures s.referenceType == FischerReferenceType ==>
      ValidateFlunderSpec(s, path) == [Invalid(Child(path, "fischerReference"), "", "cannot be empty if referenceType is Fischer")]
    ensures s.referenceType == FlunderReferenceType ==>
      ValidateFlunderSpec(s, path) == [Invalid(Child(path, "flunderReference"), "", "cannot be empty if referenceType is Flunder")]
  {
    assert FlunderReferenceType != FischerReferenceType;
  }

  /** Flunder.Validate: the spec's errors under the path "spec". */
  function Validate(f: Flunder): (r: seq<FieldError>)
    ensures forall i :: 0 <= i < |r| ==> |r[i].field| == 2 && r[i].field[0] == "spec"
  {
    var r := ValidateFlunderSpec(f.spec, ["spec"]);
    assert forall i :: 0 <= i < |r| ==> r[i].field[0] == r[i].field[..1][0];
    r
  }

  /** Flunder.ValidateUpdate: the old object plays no part. */
  function ValidateUpdate(f: Flunder, prev: Flunder): (r: seq<FieldError>)
    ensures r == Validate(f)
  {
    Validate(f)
  }

  /** The two cases accepted outright: the empty spec, and a flunder reference of type Flunder. */
  lemma AcceptedExamples(name: string, ref: string)
    requires |ref| != 0
    ensures Validate(Flunder(name, FlunderSpec("", "", ""))) == []
    ensures Validate(Flunder(name, FlunderSpec(ref, "", FlunderReferenceType))) == []
  {
  }
}
