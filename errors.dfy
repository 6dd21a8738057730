/** The library's error type (`src/error.rs`). */
module Errors {

  /** A failed validation rule: the field, the rule's name and a message. */
  datatype ValidationError = ValidationError(field: string, rule: string, message: string)

  /**
   * One variant per kind of error. The payloads of `Io` and `Serialization` wrap
   * foreign error values; only their rendered text is kept. The constructor
   * helpers `Error::config`, `Error::processing`, ... are these constructors.
   */
  datatype Error =
    | Config(msg: string)
    | Validation(detail: ValidationError)
    | Processing(msg: string)
    | Storage(msg: string)
    | Io(msg: string)
    | Serialization(msg: string)
    | InvalidState(msg: string)
    | NotFound(msg: string)
    | Timeout(msg: string)
    | Concurrency(msg: string)
    | Internal(msg: string)

  /** `Display for ValidationError`. */
  function DisplayValidation(e: ValidationError): (r: string)
    ensures |r| == 36 + |e.field| + |e.rule| + |e.message|
  {
    "Field '" + e.field + "' failed validation rule '" + e.rule + "': " + e.message
  }

  /** The rendering quotes the field first, then quotes the rule, and ends with the message. */
  lemma DisplayValidationLayout(e: ValidationError)
    ensures var r, k := DisplayValidation(e), 7 + |e.field|;
      && r[..7] == "Field '" && r[7..k] == e.field && r[k] == '\''
      && r[k..k + 26] == "' failed validation rule '"
      && r[k + 26..k + 26 + |e.rule|] == e.rule
      && r[k + 26 + |e.rule|..k + 29 + |e.rule|] == "': "
      && r[|r| - |e.message|..] == e.message
  {
    var r, k := DisplayValidation(e), 7 + |e.field|;
    var tail := "' failed validation rule '" + e.rule + "': ";
    assert r == "Field '" + e.field + tail + e.message;
    assert r[7..k] == e.field;
  }

  /** The text before the first quote character of `s` (all of `s` if there is none). */
  function UpToQuote(s: string): (r: string)
    ensures |r| <= |s| && r == s[..|r|]
    ensures '\'' !in r
  {
    if s == [] || s[0] == '\'' then [] else [s[0]] + UpToQuote(s[1..])
  }

  /** Reads the field name back out of a rendered validation error. */
  function FieldOfDisplay(s: string): string {
    if |s| < 7 then [] else UpToQuote(s[7..])
  }

  lemma {:induction false} UpToQuoteOfAppend(a: string, b: string)
    requires '\'' !in a
    ensures UpToQuote(a + "'" + b) == a
  {
    if a != [] {
      assert (a + "'" + b)[1..] == a[1..] + "'" + b;
      UpToQuoteOfAppend(a[1..], b);
    }
  }

  /** The rendering names the field, and the field can be read back from it when it holds no quote. */
  lemma DisplayNamesField(e: ValidationError)
    requires '\'' !in e.field
    ensures FieldOfDisplay(DisplayValidation(e)) == e.field
  {
    var r := DisplayValidation(e);
    DisplayValidationLayout(e);
    var rest := r[7 + |e.field| + 1..];
    assert r[7..] == e.field + "'" + rest;
    UpToQuoteOfAppend(e.field, rest);
  }

  /** The text `Display for Error` substitutes for `{0}`. */
  function Payload(e: Error): string {
    if e.Validation? then DisplayValidation(e.detail) else e.msg
  }

  /** The heading each `#[error(...)]` attribute puts before `{0}`: the kind of error, then ": ". */
  function Heading(e: Error): (r: string)
    ensures |r| >= 11 && r[|r| - 2..] == ": "
  {
    match e
    case Config(_) => "Configuration error: "
    case Validation(_) => "Validation error: "
    case Processing(_) => "Processing error: "
    case Storage(_) => "Storage error: "
    case Io(_) => "I/O error: "
    case Serialization(_) => "Serialization error: "
    case InvalidState(_) => "Invalid state: "
    case NotFound(_) => "Resource not found: "
    case Timeout(_) => "Operation timed out: "
    case Concurrency(_) => "Concurrent access error: "
    case Internal(_) => "Internal error: "
  }

  /** `Display for Error`: the variant's heading followed by the payload's text. */
  function Display(e: Error): string {
    Heading(e) + Payload(e)
  }

  /** Every rendering ends with ": " and the payload's text. */
  lemma DisplayEndsWithPayload(e: Error)
    ensures |Display(e)| >= |Payload(e)| + 2
    ensures var r, p := Display(e), Payload(e);
      r[|r| - |p|..] == p && r[|r| - |p| - 2..|r| - |p|] == ": "
  {
    var h, p := Heading(e), Payload(e);
    assert Display(e)[|h| - 2..|h|] == h[|h| - 2..];
  }

  /** Characters 2 and 3 of the heading already tell the variants apart. */
  lemma HeadingKey(e: Error)
    ensures var c, d := Heading(e)[2], Heading(e)[3];
      && (c == 'n' && d == 'f' <==> e.Config?) && (c == 'l' && d == 'i' <==> e.Validation?)
      && (c == 'o' && d == 'c' <==> e.Processing?) && (c == 'o' && d == 'r' <==> e.Storage?)
      && (c == 'O' && d == ' ' <==> e.Io?) && (c == 'r' && d == 'i' <==> e.Serialization?)
      && (c == 'v' && d == 'a' <==> e.InvalidState?) && (c == 's' && d == 'o' <==> e.NotFound?)
      && (c == 'e' && d == 'r' <==> e.Timeout?) && (c == 'n' && d == 'c' <==> e.Concurrency?)
      && (c == 't' && d == 'e' <==> e.Internal?)
  {
  }

  /**
   * The heading is fixed per variant, and no variant's heading begins another's:
   * equal headings exactly for equal variants, and a heading that is a prefix of
   * another is that same heading.
   */
  lemma HeadingIdentifiesVariant(a: Error, b: Error)
    ensures Heading(a) <= Heading(b) <==> SameVariant(a, b)
    ensures Heading(a) == Heading(b) <==> SameVariant(a, b)
  {
    var x, y := Heading(a), Heading(b);
    if x <= y {
      HeadingKey(a);
      HeadingKey(b);
      assert x[2] == y[2] && x[3] == y[3];
    }
    if SameVariant(a, b) {
      assert x == y by {
        match a
        case Config(_) => assert b.Config?;
        case Validation(_) => assert b.Validation?;
        case Processing(_) => assert b.Processing?;
        case Storage(_) => assert b.Storage?;
        case Io(_) => assert b.Io?;
        case Serialization(_) => assert b.Serialization?;
        case InvalidState(_) => assert b.InvalidState?;
        case NotFound(_) => assert b.NotFound?;
        case Timeout(_) => assert b.Timeout?;
        case Concurrency(_) => assert b.Concurrency?;
        case Internal(_) => assert b.Internal?;
      }
    }
  }

  /** Of two equal renderings, the shorter heading begins the longer one, so the variants agree. */
  lemma EqualDisplaySameVariant(a: Error, b: Error)
    requires Display(a) == Display(b) && |Heading(a)| <= |Heading(b)|
    ensures SameVariant(a, b)
  {
    var ha, hb := Heading(a), Heading(b);
    assert ha == Display(b)[..|ha|] == hb[..|ha|];
    HeadingIdentifiesVariant(a, b);
  }

  /** The rendering identifies the error: equal renderings exactly for equal variants with equal payload texts. */
  lemma DisplayIdentifiesError(a: Error, b: Error)
    ensures Display(a) == Display(b) <==> SameVariant(a, b) && Payload(a) == Payload(b)
  {
    var ha, hb := Heading(a), Heading(b);
    HeadingIdentifiesVariant(a, b);
    if Display(a) == Display(b) {
      if |ha| <= |hb| {
        EqualDisplaySameVariant(a, b);
      } else {
        EqualDisplaySameVariant(b, a);
        HeadingIdentifiesVariant(b, a);
      }
      assert Payload(a) == Display(a)[|ha|..] == Display(b)[|hb|..] == Payload(b);
    }
  }

  /** `Error::is_retryable`. */
  predicate IsRetryable(e: Error) {
    e.Timeout? || e.Concurrency? || e.Io?
  }

  /** `Error::code`, the code used for monitoring: a non-empty upper-case identifier. */
  function Code(e: Error): (r: string)
    ensures |r| > 0 && forall i :: 0 <= i < |r| ==> 'A' <= r[i] <= 'Z' || r[i] == '_'
  {
    match e
    case Config(_) => "CONFIG_ERROR"
    case Validation(_) => "VALIDATION_ERROR"
    case Processing(_) => "PROCESSING_ERROR"
    case Storage(_) => "STORAGE_ERROR"
    case Io(_) => "IO_ERROR"
    case Serialization(_) => "SERIALIZATION_ERROR"
    case InvalidState(_) => "INVALID_STATE"
    case NotFound(_) => "NOT_FOUND"
    case Timeout(_) => "TIMEOUT"
    case Concurrency(_) => "CONCURRENCY_ERROR"
    case Internal(_) => "INTERNAL_ERROR"
  }

  /** Two errors are of the same variant, whatever their payloads. */
  predicate SameVariant(a: Error, b: Error) {
    && a.Config? == b.Config?
    && a.Validation? == b.Validation?
    && a.Processing? == b.Processing?
    && a.Storage? == b.Storage?
    && a.Io? == b.Io?
    && a.Serialization? == b.Serialization?
    && a.InvalidState? == b.InvalidState?
    && a.NotFound? == b.NotFound?
    && a.Timeout? == b.Timeout?
    && a.Concurrency? == b.Concurrency?
    && a.Internal? == b.Internal?
  }

  /** The code identifies the variant: equal codes exactly for equal variants. */
  lemma CodeIdentifiesVariant(a: Error, b: Error)
    ensures Code(a) == Code(b) <==> SameVariant(a, b)
  {
    if Code(a) == Code(b) {
      assert |Code(a)| == |Code(b)| && Code(a)[0] == Code(b)[0] && Code(a)[1] == Code(b)[1];
    }
  }

  /** Retryable errors are exactly those whose code is one of the three transient codes. */
  lemma RetryableByCode(e: Error)
    ensures IsRetryable(e) <==> Code(e) in {"TIMEOUT", "CONCURRENCY_ERROR", "IO_ERROR"}
  {
    CodeIdentifiesVariant(e, Timeout(""));
    CodeIdentifiesVariant(e, Concurrency(""));
    CodeIdentifiesVariant(e, Io(""));
  }

  /** `Error::config(..)` and `Error::timeout(..)`: their codes and retryability. */
  lemma HelperClassification(msg: string)
    ensures Code(Config(msg)) == "CONFIG_ERROR" && !IsRetryable(Config(msg))
    ensures Code(Timeout(msg)) == "TIMEOUT" && IsRetryable(Timeout(msg))
  {
  }
}
