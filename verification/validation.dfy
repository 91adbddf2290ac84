/**
 * `Validator`: range checks on an already-parsed number. Each check receives
 * what the Python parser (`int(...)` or `float(...)`) produced — the number,
 * or the parser's own error message — and the field label used in its
 * messages, and either returns the number or fails with a message built from
 * the label.
 */
module Validation {
  import opened Wrappers
  import opened Floats

  /** The message of a failed positivity check: the field label, then " must be positive". */
  function NotPositive(name: string): (m: string)
    ensures |m| > |name| && m[..|name|] == name
    ensures m[|name|..] == " must be positive"
  {
    name + " must be positive"
  }

  /** The message of a failed GPA range check: the field label, then " must be between 0 and 4". */
  function OutOfRange(name: string): (m: string)
    ensures |m| > |name| && m[..|name|] == name
    ensures m[|name|..] == " must be between 0 and 4"
  {
    name + " must be between 0 and 4"
  }

  /**
   * `Validator.positive_int`: a parse failure passes through unchanged; a
   * parsed integer is accepted, unchanged, exactly when it is positive, and
   * otherwise rejected with "<name> must be positive".
   */
  function PositiveInt(parsed: Result<int, string>, name: string): (r: Result<int, string>)
    ensures parsed.Failure? ==> r == parsed
    ensures parsed.Success? ==> (r.Success? <==> parsed.value > 0)
    ensures r.Success? ==> r == parsed
    ensures parsed.Success? && r.Failure? ==> r.error == NotPositive(name)
  {
    match parsed
    case Failure(e) => Failure(e)
    case Success(v) => if v <= 0 then Failure(NotPositive(name)) else Success(v)
  }

  /**
   * `Validator.positive_float` as written: rejects only what `v <= 0` holds
   * for, so NaN and positive infinity get through.
   */
  function PositiveFloatAsWritten(parsed: Result<Float, string>, name: string): (r: Result<Float, string>)
    ensures parsed.Failure? ==> r == parsed
    ensures parsed.Success? ==> (r.Success? <==> !AtMost(parsed.value, 0.0))
    ensures r.Success? ==> r == parsed
    ensures parsed.Success? && r.Failure? ==> r.error == NotPositive(name)
  {
    match parsed
    case Failure(e) => Failure(e)
    case Success(v) => if AtMost(v, 0.0) then Failure(NotPositive(name)) else Success(v)
  }

  /**
   * `Validator.positive_float` as intended: a parse failure passes through;
   * a parsed value is accepted exactly when it is a positive number, and the
   * number is returned unchanged; anything else is rejected with "<name> must be positive".
   */
  function PositiveFloat(parsed: Result<Float, string>, name: string): (r: Result<real, string>)
    ensures parsed.Failure? ==> r == Failure(parsed.error)
    ensures r.Success? <==> parsed.Success? && parsed.value.Finite? && parsed.value.value > 0.0
    ensures r.Success? ==> parsed.value == Finite(r.value)
    ensures parsed.Success? && r.Failure? ==> r.error == NotPositive(name)
  {
    match parsed
    case Failure(e) => Failure(e)
    case Success(Finite(v)) => if v <= 0.0 then Failure(NotPositive(name)) else Success(v)
    case Success(_) => Failure(NotPositive(name))
  }

  /**
   * `Validator.gpa` as written: rejects only what `v < 0 or v > 4` holds for,
   * so NaN gets through.
   */
  function GpaAsWritten(parsed: Result<Float, string>, name: string): (r: Result<Float, string>)
    ensures parsed.Failure? ==> r == parsed
    ensures parsed.Success? ==> (r.Success? <==> !Less(parsed.value, 0.0) && !Greater(parsed.value, 4.0))
    ensures r.Success? ==> r == parsed
    ensures parsed.Success? && r.Failure? ==> r.error == OutOfRange(name)
  {
    match parsed
    case Failure(e) => Failure(e)
    case Success(v) => if Less(v, 0.0) || Greater(v, 4.0) then Failure(OutOfRange(name)) else Success(v)
  }

  /**
   * `Validator.gpa` as intended: a parse failure passes through; a parsed
   * value is accepted exactly when it is a number in the closed interval
   * [0, 4], and returned unchanged; anything else is rejected with
   * "<name> must be between 0 and 4".
   */
  function GpaRange(parsed: Result<Float, string>, name: string): (r: Result<real, string>)
    ensures parsed.Failure? ==> r == Failure(parsed.error)
    ensures r.Success? <==> parsed.Success? && parsed.value.Finite? && 0.0 <= parsed.value.value <= 4.0
    ensures r.Success? ==> parsed.value == Finite(r.value)
    ensures parsed.Success? && r.Failure? ==> r.error == OutOfRange(name)
  {
    match parsed
    case Failure(e) => Failure(e)
    case Success(Finite(v)) => if v < 0.0 || v > 4.0 then Failure(OutOfRange(name)) else Success(v)
    case Success(_) => Failure(OutOfRange(name))
  }

  /** A checked number seen again as a parsed float. */
  function AsParsed(r: Result<real, string>): Result<Float, string> {
    match r
    case Success(v) => Success(Finite(v))
    case Failure(e) => Failure(e)
  }

  /**
   * As written, `positive_float` behaves as intended on every input except
   * NaN and positive infinity, which it accepts although neither is a positive number.
   */
  lemma PositiveFloatAsWrittenDiffersOnlyOnNaNAndInfinity(parsed: Result<Float, string>, name: string)
    ensures PositiveFloatAsWritten(parsed, name) == AsParsed(PositiveFloat(parsed, name))
        <==> parsed != Success(NaN) && parsed != Success(Infinity(false))
  {
  }

  /** As written, `positive_float` accepts NaN, and `gpa` accepts NaN as a GPA. */
  lemma AsWrittenAcceptsNaN(name: string)
    ensures PositiveFloatAsWritten(Success(NaN), name) == Success(NaN)
    ensures PositiveFloatAsWritten(Success(Infinity(false)), name) == Success(Infinity(false))
    ensures GpaAsWritten(Success(NaN), name) == Success(NaN)
    ensures PositiveFloat(Success(NaN), name) == Failure(NotPositive(name))
    ensures GpaRange(Success(NaN), name) == Failure(OutOfRange(name))
  {
  }

  /** As written, `gpa` behaves as intended on every input except NaN. */
  lemma GpaAsWrittenDiffersOnlyOnNaN(parsed: Result<Float, string>, name: string)
    ensures GpaAsWritten(parsed, name) == AsParsed(GpaRange(parsed, name)) <==> parsed != Success(NaN)
  {
  }

  /** An accepted value passes the same check again, under any label, unchanged. */
  lemma RecheckAccepts(v: real, n: int, name: string, other: string)
    ensures PositiveInt(Success(n), name).Success? ==> PositiveInt(PositiveInt(Success(n), name), other) == Success(n)
    ensures PositiveFloat(Success(Finite(v)), name).Success? ==>
      PositiveFloat(AsParsed(PositiveFloat(Success(Finite(v)), name)), other) == Success(v)
    ensures GpaRange(Success(Finite(v)), name).Success? ==>
      GpaRange(AsParsed(GpaRange(Success(Finite(v)), name)), other) == Success(v)
  {
  }

  /**
   * The messages identify the field and the check: the same kind of message for
   * two labels is the same message only for the same label, and a positivity
   * message never reads like a range message.
   */
  lemma MessagesIdentifyFieldAndCheck(a: string, b: string)
    ensures NotPositive(a) == NotPositive(b) ==> a == b
    ensures OutOfRange(a) == OutOfRange(b) ==> a == b
    ensures NotPositive(a) != OutOfRange(b)
  {
    if NotPositive(a) == NotPositive(b) {
      assert a == NotPositive(a)[..|a|] && b == NotPositive(b)[..|b|];
    }
    if OutOfRange(a) == OutOfRange(b) {
      assert a == OutOfRange(a)[..|a|] && b == OutOfRange(b)[..|b|];
    }
    var p, q := NotPositive(a), OutOfRange(b);
    assert p[|p| - 1] == 'e' && q[|q| - 1] == '4';
  }

  /** `positive_int` rejects -1 and 0 with the label in the message, and accepts 1. */
  lemma PositiveIntExamples()
    ensures PositiveInt(Success(-1), "X") == Failure("X must be positive")
    ensures PositiveInt(Success(0), "Subjects") == Failure("Subjects must be positive")
    ensures PositiveInt(Success(1), "Subjects") == Success(1)
  {
    assert "X" + " must be positive" == "X must be positive";
    assert NotPositive("X") == "X must be positive";
    assert "Subjects" + " must be positive" == "Subjects must be positive";
    assert NotPositive("Subjects") == "Subjects must be positive";
  }

  /** `positive_float` rejects 0, accepts 0.5, and passes a parse failure through. */
  lemma PositiveFloatExamples()
    ensures PositiveFloat(Success(Finite(0.0)), "Credit 1") == Failure("Credit 1 must be positive")
    ensures PositiveFloat(Success(Finite(0.5)), "Credit 1") == Success(0.5)
    ensures PositiveFloat(Failure("could not convert"), "Z") == Failure("could not convert")
  {
    assert "Credit 1" + " must be positive" == "Credit 1 must be positive";
    assert NotPositive("Credit 1") == "Credit 1 must be positive";
  }

  /** `gpa` accepts both ends of [0, 4] and rejects values just outside. */
  lemma GpaRangeExamples()
    ensures GpaRange(Success(Finite(4.5)), "Y") == Failure("Y must be between 0 and 4")
    ensures GpaRange(Success(Finite(-0.1)), "Y") == Failure("Y must be between 0 and 4")
    ensures GpaRange(Success(Finite(4.0)), "Y") == Success(4.0)
    ensures GpaRange(Success(Finite(0.0)), "Y") == Success(0.0)
  {
    assert "Y" + " must be between 0 and 4" == "Y must be between 0 and 4";
    assert OutOfRange("Y") == "Y must be between 0 and 4";
  }
}
