/**
 * The Quality Scorer: `evaluate_response_quality` in agents.py. The text
 * handling is modelled on ASCII digits: strip, the digit-string check, the
 * `\d+` scan, `int` with CPython's default limit of 4300 digits, and the
 * clamp. The evaluator call goes through the Model Invoker oracle.
 */
module Scoring {
  import opened Wrappers
  import opened Invoker

  /** The model the evaluator always asks. */
  const EvaluatorModel: string := "gemini-2.5-flash"

  /** The neutral score used when nothing better is known. */
  const DefaultScore: int := 50

  const MinScore: int := 1
  const MaxScore: int := 100

  // ---------------------------------------------------------------------
  // str.strip()

  /** The characters `str.isspace` accepts (and so `str.strip` removes). */
  predicate IsSpace(c: char) {
    var n := c as int;
    || 9 <= n <= 13 || 28 <= n <= 32 || n == 0x85 || n == 0xA0 || n == 0x1680
    || 0x2000 <= n <= 0x200A || n == 0x2028 || n == 0x2029 || n == 0x202F
    || n == 0x205F || n == 0x3000
  }

  /** Number of leading whitespace characters. */
  function LeadingSpace(s: string): (n: nat)
    ensures n <= |s|
    ensures forall k :: 0 <= k < n ==> IsSpace(s[k])
    ensures n < |s| ==> !IsSpace(s[n])
  {
    if s == [] || !IsSpace(s[0]) then 0 else 1 + LeadingSpace(s[1..])
  }

  /** Number of trailing whitespace characters. */
  function TrailingSpace(s: string): (n: nat)
    ensures n <= |s|
    ensures forall k :: |s| - n <= k < |s| ==> IsSpace(s[k])
    ensures n < |s| ==> !IsSpace(s[|s| - 1 - n])
  {
    if s == [] || !IsSpace(s[|s| - 1]) then 0 else 1 + TrailingSpace(s[..|s| - 1])
  }

  /** `str.strip()`: the longest piece of `s` with no whitespace at either end. */
  function Strip(s: string): (r: string)
    ensures var a := LeadingSpace(s);
      && a + |r| <= |s| && r == s[a..a + |r|]
      && (forall k :: a + |r| <= k < |s| ==> IsSpace(s[k]))
    ensures r != [] ==> !IsSpace(r[0]) && !IsSpace(r[|r| - 1])
    ensures r == [] <==> forall k :: 0 <= k < |s| ==> IsSpace(s[k])
  {
    var a := LeadingSpace(s);
    var t := s[a..];
    var r := t[..|t| - TrailingSpace(t)];
    assert r == s[a..a + |r|];
    assert a < |s| ==> r != [];
    r
  }

  // ---------------------------------------------------------------------
  // Digits, `str.isdigit` and `int`

  predicate IsDigit(c: char) { '0' <= c <= '9' }

  predicate AllDigits(s: string) { forall k :: 0 <= k < |s| ==> IsDigit(s[k]) }

  /** `str.isdigit()`: true of a non-empty string of digits only. */
  predicate IsDigitString(s: string) { |s| > 0 && AllDigits(s) }

  function DigitValue(c: char): nat requires IsDigit(c) { c as int - '0' as int }

  function Pow10(n: nat): (p: nat)
    ensures p >= 1
  {
    if n == 0 then 1 else 10 * Pow10(n - 1)
  }

  /** The number a string of decimal digits denotes (leading zeros allowed); `k` digits stay below 10^k. */
  function DecimalValue(ds: string): (v: nat)
    requires AllDigits(ds)
    ensures v < Pow10(|ds|)
  {
    if ds == [] then 0
    else DecimalValue(ds[..|ds| - 1]) * 10 + DigitValue(ds[|ds| - 1])
  }

  /** The canonical decimal spelling of `n`, the partner of `DecimalValue`. */
  function DecimalString(n: nat): (ds: string)
    ensures IsDigitString(ds)
  {
    var d := [('0' as int + n % 10) as char];
    if n < 10 then d else DecimalString(n / 10) + d
  }

  /** Reading back the spelling of a number gives the number. */
  lemma {:induction false} DecimalRoundTrip(n: nat)
    ensures DecimalValue(DecimalString(n)) == n
  {
    var ds := DecimalString(n);
    if n >= 10 {
      DecimalRoundTrip(n / 10);
      assert ds[..|ds| - 1] == DecimalString(n / 10);
    }
  }

  /** CPython's default bound on the digits `int()` converts from a decimal string. */
  const MaxStrDigits: nat := 4300

  /** The `ValueError` message `int()` raises on a string of `n` digits past the bound (CPython 3.12 wording). */
  function IntLimitMessage(n: nat): string {
    "Exceeds the limit (4300 digits) for integer string conversion: value has " + DecimalString(n)
      + " digits; use sys.set_int_max_str_digits() to increase the limit"
  }

  /** `int(ds)` on a digit string: its value, or `None` where `int` raises because of the digit bound. */
  function IntOf(ds: string): (r: Option<nat>)
    requires AllDigits(ds)
    ensures r.None? <==> |ds| > MaxStrDigits
    ensures r.Some? ==> r.value == DecimalValue(ds)
  {
    if |ds| > MaxStrDigits then None else Some(DecimalValue(ds))
  }

  /** `int` reads back the spelling of every number whose spelling is within the bound, and of no other. */
  lemma IntRoundTrip(n: nat)
    ensures IntOf(DecimalString(n)) == if |DecimalString(n)| <= MaxStrDigits then Some(n) else None
  {
    DecimalRoundTrip(n);
  }

  /** Numbers up to 100 are spelled with at most three digits. */
  lemma ShortSpelling(n: nat)
    requires n <= 100
    ensures |DecimalString(n)| <= 3
  {
    if n >= 10 {
      assert |DecimalString(n / 10)| <= 2;
    }
  }

  // ---------------------------------------------------------------------
  // re.findall(r'\d+', s)

  /** The end of the digit run that starts at or after `i` without a gap. */
  function RunEnd(s: string, i: nat): (e: nat)
    requires i <= |s|
    ensures i <= e <= |s|
    ensures forall k :: i <= k < e ==> IsDigit(s[k])
    ensures e < |s| ==> !IsDigit(s[e])
    decreases |s| - i
  {
    if i == |s| || !IsDigit(s[i]) then i else RunEnd(s, i + 1)
  }

  /** The maximal digit runs of `s[i..]`, left to right, as `re.findall` scans. */
  function DigitRunsFrom(s: string, i: nat): (runs: seq<string>)
    requires i <= |s|
    ensures forall j :: 0 <= j < |runs| ==> IsDigitString(runs[j])
    decreases |s| - i
  {
    if i == |s| then []
    else if !IsDigit(s[i]) then DigitRunsFrom(s, i + 1)
    else
      var e := RunEnd(s, i);
      [s[i..e]] + DigitRunsFrom(s, e)
  }

  /**
   * The reference meaning of "the last number in the text": `s[a..b]` is a
   * digit run that cannot be extended to the left and that only non-digits
   * follow.
   */
  predicate IsLastRun(s: string, a: int, b: int) {
    && 0 <= a < b <= |s|
    && (forall k :: a <= k < b ==> IsDigit(s[k]))
    && (a == 0 || !IsDigit(s[a - 1]))
    && (forall k :: b <= k < |s| ==> !IsDigit(s[k]))
  }

  predicate HasDigit(s: string) { exists k :: 0 <= k < |s| && IsDigit(s[k]) }

  /** There is at most one last run. */
  lemma LastRunUnique(s: string, a: int, b: int, a': int, b': int)
    requires IsLastRun(s, a, b) && IsLastRun(s, a', b')
    ensures a == a' && b == b'
  {
    assert IsDigit(s[b' - 1]) && IsDigit(s[b - 1]);
  }

  lemma {:induction false} LastOfRunsFrom(s: string, i: nat)
    requires i <= |s|
    requires i == 0 || i == |s| || !IsDigit(s[i - 1]) || !IsDigit(s[i])
    ensures DigitRunsFrom(s, i) == [] <==> forall k :: i <= k < |s| ==> !IsDigit(s[k])
    ensures var runs := DigitRunsFrom(s, i);
      runs != [] ==> exists a, b :: i <= a && IsLastRun(s, a, b) && runs[|runs| - 1] == s[a..b]
    decreases |s| - i
  {
    if i == |s| {
    } else if !IsDigit(s[i]) {
      LastOfRunsFrom(s, i + 1);
      assert DigitRunsFrom(s, i) == DigitRunsFrom(s, i + 1);
    } else {
      var e := RunEnd(s, i);
      LastOfRunsFrom(s, e);
      var runs := DigitRunsFrom(s, i);
      var rest := DigitRunsFrom(s, e);
      assert runs == [s[i..e]] + rest;
      if rest == [] {
        assert IsLastRun(s, i, e);
      } else {
        var a, b :| e <= a && IsLastRun(s, a, b) && rest[|rest| - 1] == s[a..b];
        assert runs[|runs| - 1] == s[a..b];
      }
    }
  }

  /**
   * `re.findall(r'\d+', s)` with ASCII digits: digit strings only, none
   * exactly when the text has no digit, and the last one is the text's
   * last maximal digit run.
   */
  function DigitRuns(s: string): (runs: seq<string>)
    ensures forall j :: 0 <= j < |runs| ==> IsDigitString(runs[j])
    ensures runs == [] <==> !HasDigit(s)
    ensures runs != [] ==> exists a, b :: IsLastRun(s, a, b) && runs[|runs| - 1] == s[a..b]
  {
    LastOfRunsFrom(s, 0);
    DigitRunsFrom(s, 0)
  }

  // ---------------------------------------------------------------------
  // The fallback ladder and the clamp

  /** The digit string the ladder hands to `int`: the whole text, the last `\d+` match, or none (score 50). */
  function Converted(t: string): (ds: Option<string>)
    ensures ds.Some? ==> IsDigitString(ds.value)
    ensures ds.None? <==> !HasDigit(t)
  {
    if IsDigitString(t) then
      assert IsDigit(t[0]);
      Some(t)
    else
      var runs := DigitRuns(t);
      if runs != [] then Some(runs[|runs| - 1]) else None
  }

  /** The ladder on the stripped text, before clamping; `None` where `int` raises. */
  function RawScore(t: string): (r: Option<nat>)
    ensures !HasDigit(t) ==> r == Some(DefaultScore)
    ensures r.None? ==> HasDigit(t) && |Converted(t).value| > MaxStrDigits
  {
    match Converted(t)
    case None => Some(DefaultScore)
    case Some(ds) => IntOf(ds)
  }

  /** `min(100, max(1, n))`. */
  function Clamp(n: int): (r: int)
    ensures MinScore <= r <= MaxScore
    ensures MinScore <= n <= MaxScore ==> r == n
    ensures n < MinScore ==> r == MinScore
    ensures n > MaxScore ==> r == MaxScore
  {
    if n > MaxScore then MaxScore else if n < MinScore then MinScore else n
  }

  /** The score parsed out of the evaluator's answer; `None` where the conversion raises. */
  function ParseScore(output: string): (r: Option<int>)
    ensures r.Some? ==> MinScore <= r.value <= MaxScore
  {
    match RawScore(Strip(output))
    case None => None
    case Some(n) => Some(Clamp(n))
  }

  /**
   * The ladder means: the value of the last number in the text, or 50 when
   * the text holds no digit; the conversion fails exactly when that last
   * number has more digits than `int` accepts. (The all-digit rung agrees
   * with the scan rung.)
   */
  lemma RawScoreIsLastNumber(t: string)
    ensures !HasDigit(t) ==> RawScore(t) == Some(DefaultScore)
    ensures HasDigit(t) ==> exists a, b :: IsLastRun(t, a, b) && RawScore(t) == IntOf(t[a..b])
  {
    if IsDigitString(t) {
      assert Converted(t) == Some(t);
      assert IsLastRun(t, 0, |t|);
      assert t[0..|t|] == t;
    } else if HasDigit(t) {
      var runs := DigitRuns(t);
      assert Converted(t) == Some(runs[|runs| - 1]);
      var a, b :| IsLastRun(t, a, b) && runs[|runs| - 1] == t[a..b];
      assert RawScore(t) == IntOf(t[a..b]);
    }
  }

  /** Whatever the text, its score is read from its last run of digits. */
  lemma RawScoreOfLastRun(t: string, a: int, b: int)
    requires IsLastRun(t, a, b)
    ensures RawScore(t) == IntOf(t[a..b])
  {
    assert IsDigit(t[a]);
    RawScoreIsLastNumber(t);
    var a', b' :| IsLastRun(t, a', b') && RawScore(t) == IntOf(t[a'..b']);
    LastRunUnique(t, a, b, a', b');
  }

  /** A text without surrounding whitespace scores its last number clamped, when that number is within the bound. */
  lemma ScoreOfLastRun(t: string, a: int, b: int)
    requires Strip(t) == t && IsLastRun(t, a, b) && b - a <= MaxStrDigits
    ensures ParseScore(t) == Some(Clamp(DecimalValue(t[a..b])))
  {
    RawScoreOfLastRun(t, a, b);
  }

  /** Stripping removes no digit, so an answer without digits scores the neutral 50. */
  lemma NoDigitScoresDefault(t: string)
    requires !HasDigit(t)
    ensures ParseScore(t) == Some(DefaultScore)
  {
    var r := Strip(t);
    var a := LeadingSpace(t);
    assert !HasDigit(r) by {
      forall k | 0 <= k < |r| ensures !IsDigit(r[k]) {
        assert r[k] == t[a + k];
      }
    }
  }

  /** A digit string has no surrounding whitespace. */
  lemma StripDigitString(ds: string)
    requires IsDigitString(ds)
    ensures Strip(ds) == ds
  {
    assert !IsSpace(ds[0]) && !IsSpace(ds[|ds| - 1]);
    assert LeadingSpace(ds) == 0 && TrailingSpace(ds) == 0;
  }

  /** An answer that is just a digit string scores its value clamped, unless it has more digits than `int` accepts. */
  lemma ScoreOfDigitString(ds: string)
    requires IsDigitString(ds)
    ensures ParseScore(ds) == if |ds| <= MaxStrDigits then Some(Clamp(DecimalValue(ds))) else None
  {
    StripDigitString(ds);
  }

  /** An answer that is just the number n scores n clamped, when its spelling is within the bound. */
  lemma ScoreOfPlainNumber(n: nat)
    ensures ParseScore(DecimalString(n)) == if |DecimalString(n)| <= MaxStrDigits then Some(Clamp(n)) else None
  {
    ScoreOfDigitString(DecimalString(n));
    DecimalRoundTrip(n);
  }

  /** "87" scores 87. */
  lemma PlainNumberExample()
    ensures ParseScore("87") == Some(87)
  {
    var t := "87";
    assert LeadingSpace(t) == 0 && TrailingSpace(t) == 0;
    assert Strip(t) == t;
    assert IsDigitString(t);
    assert t[..1] == "8";
    assert DecimalValue(t) == 87;
  }

  /** Surrounding whitespace is stripped and 250 is clamped to 100. */
  lemma ClampHighExample()
    ensures ParseScore(" 250\n") == Some(100)
  {
    ClampHighStripped(" 250\n");
    assert "250"[..2] == "25" && "25"[..1] == "2";
    assert IsDigitString("250");
    assert DecimalValue("250") == 250;
  }

  lemma ClampHighStripped(t: string)
    requires t == " 250\n"
    ensures Strip(t) == "250"
  {
    assert LeadingSpace(t) == 1 by { assert t[1..] == "250\n"; }
    assert TrailingSpace(t[1..]) == 1 by { assert t[1..][..3] == "250"; }
  }

  /** 0 is clamped to 1. */
  lemma ClampLowExample()
    ensures ParseScore("0") == Some(1)
  {
    var t := "0";
    assert LeadingSpace(t) == 0 && TrailingSpace(t) == 0;
    assert Strip(t) == t;
    assert IsDigitString(t);
  }

  /** The text "no numbers here" scores the neutral 50. */
  lemma NoNumberExample()
    ensures ParseScore("no numbers here") == Some(50)
  {
    var t := "no numbers here";
    assert !IsDigit(t[0]) && !IsDigit(t[1]) && !IsDigit(t[2]);
    NoDigitScoresDefault(t);
  }

  /** "Score: 42 out of 100, final: 91" scores 91: the last number wins. */
  lemma LastNumberWinsExample(t: string)
    requires t == "Score: 42 out of 100, final: 91"
    ensures ParseScore(t) == Some(91)
  {
    ExampleIsStripped(t);
    ExampleLastRun(t);
    ScoreOfLastRun(t, 29, 31);
    assert t[29..31] == "91";
    assert "91"[..1] == "9";
    assert DecimalValue("91") == 91;
  }

  lemma ExampleIsStripped(t: string)
    requires t == "Score: 42 out of 100, final: 91"
    ensures Strip(t) == t
  {
    assert LeadingSpace(t) == 0 && TrailingSpace(t) == 0;
  }

  lemma ExampleLastRun(t: string)
    requires t == "Score: 42 out of 100, final: 91"
    ensures IsLastRun(t, 29, 31)
  {
  }

  // ---------------------------------------------------------------------
  // evaluate_response_quality

  /** The evaluator's verdict: a parsed score, or the neutral score and why. */
  datatype Evaluation = Scored(score: int, rawOutput: string) | Unscored(score: int, error: string) {
    predicate Success() { Scored? }
  }

  /** The request the evaluator sends on behalf of chain step `step`. */
  function EvaluationRequest(step: nat, response: string, task: string, apiKey: string): Request {
    Request(step, EvaluatorModel, Evaluation(task, response), apiKey)
  }

  /**
   * `evaluate_response_quality`: never raises, always a score in [1, 100];
   * `EvaluateCases` states what it yields for each kind of reply.
   */
  function Evaluate(service: Service, step: nat, response: string, task: string, apiKey: string)
    : (e: Evaluation)
    ensures MinScore <= e.score <= MaxScore
  {
    match CallModel(service, EvaluationRequest(step, response, task, apiKey))
    case Raised(reason) => Unscored(DefaultScore, "Exception: " + reason)
    case Returned(res) =>
      if res.Success() then ScoreText(res.Output())
      else Unscored(DefaultScore, "Evaluation failed: " + res.reason)
  }

  /** The part of the `try` after a successful call: parse the stripped text, or report the exception `int` raises. */
  function ScoreText(output: string): (e: Evaluation)
    ensures MinScore <= e.score <= MaxScore
  {
    match ParseScore(output)
    case Some(n) => Scored(n, Strip(output))
    case None => Unscored(DefaultScore, "Exception: " + IntLimitMessage(|Converted(Strip(output)).value|))
  }

  /**
   * The evaluation succeeds exactly when the evaluator generated text whose
   * score converts; it then keeps the parsed score and the stripped text.
   * Every exception inside the `try`, the call's and `int`'s, gives the
   * neutral score with "Exception: " and the message; a failed call gives
   * it with "Evaluation failed: " and the error.
   */
  lemma EvaluateCases(service: Service, step: nat, response: string, task: string, apiKey: string)
    ensures var e := Evaluate(service, step, response, task, apiKey);
      var reply := service(EvaluationRequest(step, response, task, apiKey));
      && (e.Success() <==> reply.Text? && ParseScore(reply.text).Some?)
      && (reply.Text? && ParseScore(reply.text).Some? ==>
            e == Scored(ParseScore(reply.text).value, Strip(reply.text)))
      && (reply.Text? && ParseScore(reply.text).None? ==>
            e == Unscored(DefaultScore, "Exception: " + IntLimitMessage(|Converted(Strip(reply.text)).value|)))
      && (reply.Error? ==> e == Unscored(DefaultScore, "Evaluation failed: " + reply.reason))
      && (reply.Crash? ==> e == Unscored(DefaultScore, "Exception: " + reply.reason))
  {
  }

  /**
   * An evaluator answering with a bare digit string yields its value,
   * clamped, when it is within the bound, and otherwise the neutral score
   * with the conversion's message.
   */
  lemma EvaluateOfDigitString(service: Service, step: nat, response: string, task: string, apiKey: string,
                              ds: string)
    requires IsDigitString(ds)
    requires service(EvaluationRequest(step, response, task, apiKey)) == Text(ds)
    ensures Evaluate(service, step, response, task, apiKey)
         == if |ds| <= MaxStrDigits then Scored(Clamp(DecimalValue(ds)), ds)
            else Unscored(DefaultScore, "Exception: " + IntLimitMessage(|ds|))
  {
    assert Evaluate(service, step, response, task, apiKey) == ScoreText(ds);
    ScoreOfDigitString(ds);
    assert Converted(ds) == Some(ds);
    StripDigitString(ds);
  }

  /** An evaluator that answers with a bare number in [1, 100] yields exactly that score. */
  lemma EvaluateOfPlainNumber(service: Service, step: nat, response: string, task: string, apiKey: string, n: nat)
    requires MinScore <= n <= MaxScore
    requires service(EvaluationRequest(step, response, task, apiKey)) == Text(DecimalString(n))
    ensures Evaluate(service, step, response, task, apiKey) == Scored(n, DecimalString(n))
  {
    ShortSpelling(n);
    DecimalRoundTrip(n);
    EvaluateOfDigitString(service, step, response, task, apiKey, DecimalString(n));
  }
}
