/**
 * The error record of the `registered-organisations` endpoint in its two forms: the exception
 * `NsgException`, which the fetchers throw, and the envelope `NSGErrorModel`, which is written
 * to the caller and which upstream registers send back in the same shape. Both are objects
 * whose constructors assign their public properties one by one; their contents are also given
 * as values (`ErrorFields`, `ErrorEnvelope`), which is what the rest of the model passes around.
 */
module Errors {
  import opened Wrappers
  import opened Dates
  import Text

  /** A .NET string property, which may be null. */
  type NullableString = Option<string>

  /** The seven error properties of an `NsgException`, in declaration order. */
  datatype ErrorFields = ErrorFields(
    code: NullableString,
    errorType: NullableString,
    instance: NullableString,
    source: NullableString,
    detail: NullableString,
    status: int,
    title: NullableString)

  /** The nine public fields of an `NSGErrorModel`, in declaration order. */
  datatype ErrorEnvelope = ErrorEnvelope(
    errorType: NullableString,
    instance: NullableString,
    status: int,
    timestamp: Instant,
    requestId: NullableString,
    title: NullableString,
    detail: NullableString,
    code: NullableString,
    source: NullableString)

  /** Every field at its default: null strings, status 0 and `DateTime.MinValue`. */
  const EmptyEnvelope := ErrorEnvelope(None, None, 0, MinValue, None, None, None, None, None)

  /** What `new NsgException(error)` reads from an envelope. */
  function FieldsOf(e: ErrorEnvelope): ErrorFields {
    ErrorFields(e.code, e.errorType, e.instance, e.source, e.detail, e.status, e.title)
  }

  /**
   * What `new NSGErrorModel(ex, requestIdValue)` holds, as the constructor is written: the
   * assignment meant for `requestId` assigns the property to itself, so it stays null and
   * `requestIdValue` is never read. `now` is the clock reading that becomes `timestamp`. The
   * endpoint does not call this constructor; it fills an empty envelope field by field.
   */
  function EnvelopeFromException(f: ErrorFields, requestIdValue: NullableString, now: Instant): ErrorEnvelope {
    ErrorEnvelope(f.errorType, f.instance, f.status, now, None, f.title, f.detail, f.code, f.source)
  }

  /**
   * The envelope with the request id it was given, which is what the constructor's parameter
   * is for and what the endpoint's own catch block builds.
   */
  function EnvelopeWithRequestId(f: ErrorFields, requestIdValue: NullableString, now: Instant): ErrorEnvelope {
    ErrorEnvelope(f.errorType, f.instance, f.status, now, requestIdValue, f.title, f.detail, f.code, f.source)
  }

  /** `NsgException.ToString`: the seven properties, labelled, in declaration order. */
  function Render(f: ErrorFields): string {
    "ErrorCode = " + f.code.GetOr("")
    + ", ErrorType = " + f.errorType.GetOr("")
    + ", ErrorInstance = " + f.instance.GetOr("")
    + ", ErrorSource = " + f.source.GetOr("")
    + ", ErrorDetail = " + f.detail.GetOr("")
    + ", ErrorStatus = " + Text.IntToString(f.status)
    + ", ErrorTitle = " + f.title.GetOr("")
  }

  // ---------------------------------------------------------------------------------------
  // The two classes
  // ---------------------------------------------------------------------------------------

  /** `NsgException`, with its seven settable properties. */
  class NsgException {
    var errorCode: NullableString
    var errorType: NullableString
    var errorInstance: NullableString
    var errorSource: NullableString
    var errorDetail: NullableString
    var errorStatus: int
    var errorTitle: NullableString

    /** The seven properties as one value. */
    function Fields(): ErrorFields
      reads this
    {
      ErrorFields(errorCode, errorType, errorInstance, errorSource, errorDetail, errorStatus, errorTitle)
    }

    /** The seven-argument constructor: each argument goes to its own property, unchanged. */
    constructor (errorCode: NullableString, errorType: NullableString, errorInstance: NullableString,
                 errorSource: NullableString, errorDetail: NullableString, errorStatus: int,
                 errorTitle: NullableString)
      ensures Fields() == ErrorFields(errorCode, errorType, errorInstance, errorSource, errorDetail, errorStatus, errorTitle)
    {
      this.errorCode := errorCode;
      this.errorType := errorType;
      this.errorInstance := errorInstance;
      this.errorSource := errorSource;
      this.errorDetail := errorDetail;
      this.errorStatus := errorStatus;
      this.errorTitle := errorTitle;
    }

    /** The constructor from an envelope: seven of its nine fields, copied. */
    constructor FromEnvelope(error: NsgErrorModel)
      ensures Fields() == FieldsOf(error.Envelope())
    {
      errorCode := error.code;
      errorType := error.errorType;
      errorInstance := error.instance;
      errorSource := error.source;
      errorDetail := error.detail;
      errorStatus := error.status;
      errorTitle := error.title;
    }

    function ToString(): string
      reads this
    {
      Render(Fields())
    }
  }

  /** `NSGErrorModel`, with its nine public fields (`type` is a keyword here: `errorType`). */
  class NsgErrorModel {
    var errorType: NullableString
    var instance: NullableString
    var status: int
    var timestamp: Instant
    var requestId: NullableString
    var title: NullableString
    var detail: NullableString
    var code: NullableString
    var source: NullableString

    /** The nine fields as one value. */
    function Envelope(): ErrorEnvelope
      reads this
    {
      ErrorEnvelope(errorType, instance, status, timestamp, requestId, title, detail, code, source)
    }

    /** The default constructor sets nothing: every field keeps its default value. */
    constructor ()
      ensures Envelope() == EmptyEnvelope
    {
      errorType := None;
      instance := None;
      status := 0;
      timestamp := MinValue;
      requestId := None;
      title := None;
      detail := None;
      code := None;
      source := None;
    }

    /**
     * The constructor from an exception, in the source's order of assignments. The fourth
     * one assigns `requestId` to itself, which leaves its default, null.
     */
    constructor FromException(ex: NsgException, requestIdValue: NullableString, now: Instant)
      ensures Envelope() == EnvelopeFromException(ex.Fields(), requestIdValue, now)
    {
      code := ex.errorCode;
      detail := ex.errorDetail;
      instance := ex.errorInstance;
      requestId := None;
      source := ex.errorSource;
      status := ex.errorStatus;
      timestamp := now;
      title := ex.errorTitle;
      errorType := ex.errorType;
    }
  }

  /**
   * `new NsgException(new NSGErrorModel(ex, id))`: the copy has the same seven error
   * properties as the original.
   */
  method ThroughEnvelope(ex: NsgException, requestIdValue: NullableString, now: Instant)
    returns (copy: NsgException)
    ensures copy.Fields() == ex.Fields()
  {
    var envelope := new NsgErrorModel.FromException(ex, requestIdValue, now);
    copy := new NsgException.FromEnvelope(envelope);
  }

  // ---------------------------------------------------------------------------------------
  // Properties of the copies
  // ---------------------------------------------------------------------------------------

  /** Exception to envelope to exception loses none of the seven error properties. */
  lemma EnvelopeRoundTrip(f: ErrorFields, requestIdValue: NullableString, now: Instant)
    ensures FieldsOf(EnvelopeFromException(f, requestIdValue, now)) == f
    ensures FieldsOf(EnvelopeWithRequestId(f, requestIdValue, now)) == f
  {
  }

  /** The envelope's `timestamp` and `requestId` never reach the exception. */
  lemma FieldsOfIgnoresRequestAndTime(e: ErrorEnvelope, requestId: NullableString, timestamp: Instant)
    ensures FieldsOf(e.(requestId := requestId, timestamp := timestamp)) == FieldsOf(e)
  {
  }

  /** As written, the envelope's request id is null whatever id the constructor is given. */
  lemma RequestIdDropped(f: ErrorFields, requestIdValue: NullableString, now: Instant)
    ensures EnvelopeFromException(f, requestIdValue, now).requestId == None
    ensures requestIdValue.Some? ==> EnvelopeFromException(f, requestIdValue, now).requestId != requestIdValue
  {
  }

  /** A concrete instance: the id `"abc"` is lost. */
  lemma RequestIdDroppedExample()
    ensures EnvelopeFromException(FieldsOf(EmptyEnvelope), Some("abc"), 0).requestId != Some("abc")
  {
  }

  /** The corrected envelope keeps the request id, the clock reading and the error fields. */
  lemma EnvelopeWithRequestIdKeepsIt(f: ErrorFields, requestIdValue: NullableString, now: Instant)
    ensures EnvelopeWithRequestId(f, requestIdValue, now).requestId == requestIdValue
    ensures EnvelopeWithRequestId(f, requestIdValue, now).timestamp == now
    ensures EnvelopeWithRequestId(f, requestIdValue, now) == EnvelopeFromException(f, requestIdValue, now).(requestId := requestIdValue)
  {
  }

  /** `ToString` tells apart two errors that differ only in their status. */
  lemma {:induction false} RenderShowsStatus(f: ErrorFields, status: int)
    ensures Render(f) == Render(f.(status := status)) <==> f.status == status
  {
    var g := f.(status := status);
    var front := "ErrorCode = " + f.code.GetOr("")
      + ", ErrorType = " + f.errorType.GetOr("")
      + ", ErrorInstance = " + f.instance.GetOr("")
      + ", ErrorSource = " + f.source.GetOr("")
      + ", ErrorDetail = " + f.detail.GetOr("")
      + ", ErrorStatus = ";
    var back := ", ErrorTitle = " + f.title.GetOr("");
    assert Render(f) == front + Text.IntToString(f.status) + back;
    assert Render(g) == front + Text.IntToString(status) + back;
    if Render(f) == Render(g) {
      assert |Text.IntToString(f.status)| == |Text.IntToString(status)|;
      assert Text.IntToString(f.status) == Render(f)[|front|..|Render(f)| - |back|];
      assert Text.IntToString(status) == Render(g)[|front|..|Render(g)| - |back|];
      Text.IntToStringInjective(f.status, status);
    }
  }

  /** A null property renders exactly like an empty one. */
  lemma RenderNullAsEmpty(f: ErrorFields)
    ensures Render(f.(code := None)) == Render(f.(code := Some("")))
    ensures Render(f.(title := None)) == Render(f.(title := Some("")))
  {
  }
}
