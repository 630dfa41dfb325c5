/**
 * The status-code return-type accumulator: for every response status code of an operation it
 * adds a status-code record type to the return types, remembers whether a `default` response
 * was bound and which other codes were, and records diagnostics for codes it cannot map.
 */
module StatusCodeReturnType {
  import opened Common
  import opened Diagnostics
  import opened Syntax

  /** The status code of the catch-all response. */
  const Default := "default"

  /** What generating the status-code record type for one response gives: the type and the
      diagnostics collected on the way, or the invalid-reference exception's diagnostic. */
  datatype RecordOutcome = RecordOk(typ: TypeDesc, diagnostics: seq<Diagnostic>) | RecordInvalidReference(diagnostic: Diagnostic)

  /** The shared utility generator; only its default-status-code flag is modelled. */
  class BallerinaUtilGenerator {
    var defaultStatusCodeResponseBinding: bool

    constructor()
      ensures !defaultStatusCodeResponseBinding
    {
      defaultStatusCodeResponseBinding := false;
    }
  }

  /** The caller's list of return types, appended to in place. */
  class ReturnTypeList {
    var types: seq<TypeDesc>

    constructor()
      ensures types == []
    {
      types := [];
    }
  }

  /** Everything one `populateReturnType` call may change. */
  datatype Accumulated = Accumulated(
    hasDefaultStatusCodeBinding: bool,
    nonDefaultStatusCodes: seq<string>,
    returnTypes: seq<TypeDesc>,
    diagnostics: seq<Diagnostic>,
    utilDefaultBinding: bool)

  /** The state after one response: an unmapped code only adds OAS_CLIENT_113; an invalid
      reference only adds its diagnostic; otherwise one return type is added and the code is
      recorded as the default binding or as a non-default code. */
  function Populate(s: Accumulated, statusCode: string, httpCodes: map<string, string>, record: RecordOutcome)
    : Accumulated
  {
    if statusCode !in httpCodes then s.(diagnostics := s.diagnostics + [Diag(OAS_CLIENT_113, [statusCode])])
    else match record
      case RecordInvalidReference(d) => s.(diagnostics := s.diagnostics + [d])
      case RecordOk(typ, recordDiagnostics) =>
        if statusCode == Default then
          s.(returnTypes := s.returnTypes + [typ], hasDefaultStatusCodeBinding := true, utilDefaultBinding := true,
             diagnostics := s.diagnostics + recordDiagnostics)
        else
          s.(returnTypes := s.returnTypes + [typ], nonDefaultStatusCodes := s.nonDefaultStatusCodes + [statusCode],
             diagnostics := s.diagnostics + recordDiagnostics)
  }

  /** A code with no entry in the status-code table adds OAS_CLIENT_113 naming it and changes
      nothing else. */
  lemma UnknownCodeOnlyDiagnoses(s: Accumulated, statusCode: string, httpCodes: map<string, string>,
                                 record: RecordOutcome)
    requires statusCode !in httpCodes
    ensures Populate(s, statusCode, httpCodes, record)
      == s.(diagnostics := s.diagnostics + [Diag(OAS_CLIENT_113, [statusCode])])
  {
  }

  /** One call adds at most one return type, exactly one when the code is mapped and its
      record type was generated, and only ever appends. */
  lemma PopulateAppends(s: Accumulated, statusCode: string, httpCodes: map<string, string>, record: RecordOutcome)
    ensures var t := Populate(s, statusCode, httpCodes, record);
      && (|t.returnTypes| == |s.returnTypes| + 1 <==> statusCode in httpCodes && record.RecordOk?)
      && t.returnTypes[..|s.returnTypes|] == s.returnTypes
      && |t.returnTypes| <= |s.returnTypes| + 1
      && t.nonDefaultStatusCodes[..|s.nonDefaultStatusCodes|] == s.nonDefaultStatusCodes
      && |t.diagnostics| >= |s.diagnostics| && t.diagnostics[..|s.diagnostics|] == s.diagnostics
  {
  }

  /** The default binding flags never go back from true to false. */
  lemma PopulateMonotone(s: Accumulated, statusCode: string, httpCodes: map<string, string>, record: RecordOutcome)
    ensures var t := Populate(s, statusCode, httpCodes, record);
      (s.hasDefaultStatusCodeBinding ==> t.hasDefaultStatusCodeBinding)
      && (s.utilDefaultBinding ==> t.utilDefaultBinding)
  {
  }

  /** The state after a sequence of calls, one per (status code, record outcome), in order. */
  function PopulateAll(s: Accumulated, calls: seq<(string, RecordOutcome)>, httpCodes: map<string, string>)
    : Accumulated
  {
    if calls == [] then s
    else
      var last := calls[|calls| - 1];
      Populate(PopulateAll(s, calls[..|calls| - 1], httpCodes), last.0, httpCodes, last.1)
  }

  /** The codes that get bound as non-default, in call order: mapped, with a generated record
      type, and not `default`. */
  function BoundNonDefault(calls: seq<(string, RecordOutcome)>, httpCodes: map<string, string>): (r: seq<string>)
    ensures Default !in r
  {
    if calls == [] then []
    else
      var last := calls[|calls| - 1];
      BoundNonDefault(calls[..|calls| - 1], httpCodes)
        + (if last.0 in httpCodes && last.1.RecordOk? && last.0 != Default then [last.0] else [])
  }

  /** Call `i` bound the `default` response. */
  predicate BindsDefaultAt(calls: seq<(string, RecordOutcome)>, i: int, httpCodes: map<string, string>) {
    0 <= i < |calls| && calls[i].0 == Default && Default in httpCodes && calls[i].1.RecordOk?
  }

  /** Whether some call bound the `default` response. */
  predicate BindsDefault(calls: seq<(string, RecordOutcome)>, httpCodes: map<string, string>) {
    exists i :: 0 <= i < |calls| && BindsDefaultAt(calls, i, httpCodes)
  }

  /** After any sequence of calls the non-default codes are exactly the bound non-default codes
      in call order, so never `default`. */
  lemma {:induction false} PopulateAllNonDefault(s: Accumulated, calls: seq<(string, RecordOutcome)>,
                                                 httpCodes: map<string, string>)
    ensures PopulateAll(s, calls, httpCodes).nonDefaultStatusCodes
      == s.nonDefaultStatusCodes + BoundNonDefault(calls, httpCodes)
  {
    if calls != [] {
      PopulateAllNonDefault(s, calls[..|calls| - 1], httpCodes);
    }
  }

  /** The default binding flags are set after a sequence of calls exactly when some call bound
      `default` or they were set before. */
  lemma {:induction false} PopulateAllDefault(s: Accumulated, calls: seq<(string, RecordOutcome)>,
                                              httpCodes: map<string, string>)
    ensures var t := PopulateAll(s, calls, httpCodes);
      && (t.hasDefaultStatusCodeBinding <==> s.hasDefaultStatusCodeBinding || BindsDefault(calls, httpCodes))
      && (t.utilDefaultBinding <==> s.utilDefaultBinding || BindsDefault(calls, httpCodes))
  {
    if calls != [] {
      var init := calls[..|calls| - 1];
      var last := calls[|calls| - 1];
      PopulateAllDefault(s, init, httpCodes);
      assert PopulateAll(s, calls, httpCodes) == Populate(PopulateAll(s, init, httpCodes), last.0, httpCodes, last.1);
      if BindsDefault(init, httpCodes) {
        var i :| 0 <= i < |init| && BindsDefaultAt(init, i, httpCodes);
        assert init[i] == calls[i];
        assert BindsDefaultAt(calls, i, httpCodes);
      }
      if BindsDefault(calls, httpCodes) {
        var i :| 0 <= i < |calls| && BindsDefaultAt(calls, i, httpCodes);
        if i < |calls| - 1 {
          assert init[i] == calls[i];
          assert BindsDefaultAt(init, i, httpCodes);
        }
      }
      if BindsDefaultAt(calls, |calls| - 1, httpCodes) {
        assert BindsDefault(calls, httpCodes);
      }
    }
  }

  class FunctionStatusCodeReturnTypeGenerator {
    /** `GeneratorConstants.HTTP_CODES_DES`: status code to status-code type name. */
    const httpCodes: map<string, string>
    const ballerinaUtilGenerator: BallerinaUtilGenerator
    var hasDefaultStatusCodeBinding: bool
    var nonDefaultStatusCodes: seq<string>
    var diagnostics: seq<Diagnostic>

    constructor(httpCodes: map<string, string>, ballerinaUtilGenerator: BallerinaUtilGenerator)
      ensures this.httpCodes == httpCodes && this.ballerinaUtilGenerator == ballerinaUtilGenerator
      ensures !hasDefaultStatusCodeBinding && nonDefaultStatusCodes == [] && diagnostics == []
    {
      this.httpCodes := httpCodes;
      this.ballerinaUtilGenerator := ballerinaUtilGenerator;
      hasDefaultStatusCodeBinding := false;
      nonDefaultStatusCodes := [];
      diagnostics := [];
    }

    /** The fields this generator and its collaborators hold, as one value. */
    function State(returnTypes: ReturnTypeList): Accumulated
      reads this, ballerinaUtilGenerator, returnTypes
    {
      Accumulated(hasDefaultStatusCodeBinding, nonDefaultStatusCodes, returnTypes.types, diagnostics,
        ballerinaUtilGenerator.defaultStatusCodeResponseBinding)
    }

    /** Adds the return type of one response; the answer is always false. */
    method PopulateReturnType(statusCode: string, record: RecordOutcome, returnTypes: ReturnTypeList)
      returns (r: bool)
      modifies this, ballerinaUtilGenerator, returnTypes
      ensures !r
      ensures State(returnTypes) == Populate(old(State(returnTypes)), statusCode, httpCodes, record)
    {
      if statusCode !in httpCodes {
        diagnostics := diagnostics + [Diag(OAS_CLIENT_113, [statusCode])];
        return false;
      }
      match record {
        case RecordInvalidReference(d) =>
          diagnostics := diagnostics + [d];
        case RecordOk(typ, newDiagnostics) =>
          returnTypes.types := returnTypes.types + [typ];
          if statusCode == Default {
            hasDefaultStatusCodeBinding := true;
            if !ballerinaUtilGenerator.defaultStatusCodeResponseBinding {
              ballerinaUtilGenerator.defaultStatusCodeResponseBinding := true;
            }
          } else {
            nonDefaultStatusCodes := nonDefaultStatusCodes + [statusCode];
          }
          diagnostics := diagnostics + newDiagnostics;
      }
      return false;
    }

    function HasDefaultStatusCodeBinding(): bool
      reads this
    {
      hasDefaultStatusCodeBinding
    }

    function GetNonDefaultStatusCodes(): seq<string>
      reads this
    {
      nonDefaultStatusCodes
    }
  }
}
