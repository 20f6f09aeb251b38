/** The math tool (`src/tools/math_tool.py`): `evaluate_math` maps an
    expression and a mode to a reply string, and reports every failure as a
    string that starts with "Error: " instead of raising. */
module MathTool {
  import opened Outcomes

  /** The interpreter services `evaluate_math` relies on and this model does
      not look inside. Each either returns or raises. */
  datatype Runtime = Runtime(
    sqrtText: string -> Attempt<string>,  // str(math.sqrt(float(expr)))
    parseInt: string -> Attempt<int>,     // int(expr)
    evalText: string -> Attempt<string>)  // str(eval(expr, {"__builtins__": {}}, {}))

  const ErrorPrefix: string := "Error: "
  const UnknownMode: string := "Error: unknown mode"
  const OutOfRange: string := "Error: n out of range"
  const Disallowed: string := "Error: disallowed characters"

  /** The largest argument the factorial mode accepts. */
  const MaxFactorialArg: int := 10000

  /** The characters an `eval` expression may contain. */
  const EvalAlphabet: string := "0123456789+-*/(). "

  predicate IsError(s: string) {
    ErrorPrefix <= s
  }

  /** The reply for a caught exception: `f"Error: {e}"`. */
  function ErrorText(message: string): (r: string)
    ensures IsError(r) && r[|ErrorPrefix|..] == message
  {
    ErrorPrefix + message
  }

  /** The reply a runtime service's outcome becomes inside a `try` block. */
  function Reply(a: Attempt<string>): (r: string)
    ensures a.Returned? ==> r == a.value
    ensures a.Raised? ==> IsError(r) && r[|ErrorPrefix|..] == a.message
  {
    match a
    case Returned(s) => s
    case Raised(m) => ErrorText(m)
  }

  /** `set(expr) <= allowed`: no character of `expr` lies outside the alphabet. */
  predicate InAlphabet(expr: string)
    ensures InAlphabet(expr) <==> forall i :: 0 <= i < |expr| ==> expr[i] in EvalAlphabet
  {
    forall c :: c in expr ==> c in EvalAlphabet
  }

  // ---------------------------------------------------------------------
  // Exact factorial and its decimal text (`str(math.factorial(n))`)
  // ---------------------------------------------------------------------

  function Factorial(n: nat): (r: nat)
    ensures r >= 1
  {
    if n == 0 then 1 else
      var rest := Factorial(n - 1);
      assert n * rest >= rest;
      n * rest
  }

  function DigitChar(d: nat): (c: char)
    requires d < 10
    ensures '0' <= c <= '9'
  {
    "0123456789"[d]
  }

  predicate AllDigits(s: string) {
    forall i :: 0 <= i < |s| ==> '0' <= s[i] <= '9'
  }

  /** The canonical decimal text of n, as Python's `str` of an int gives it:
      at least one digit, and no leading zero except in "0". */
  function DecimalString(n: nat): (s: string)
    ensures |s| >= 1 && AllDigits(s)
    ensures s[0] == '0' ==> n == 0 && s == "0"
  {
    if n < 10 then [DigitChar(n)] else DecimalString(n / 10) + [DigitChar(n % 10)]
  }

  /** The number a string of decimal digits denotes. */
  function DecimalValue(s: string): nat
    requires AllDigits(s)
  {
    if s == [] then 0 else DecimalValue(s[..|s| - 1]) * 10 + (s[|s| - 1] as int - '0' as int)
  }

  /** Reading back the decimal text of n gives n. */
  lemma {:induction false} DecimalRoundTrip(n: nat)
    ensures DecimalValue(DecimalString(n)) == n
  {
    var s := DecimalString(n);
    if n < 10 {
      assert s[..0] == [];
    } else {
      DecimalRoundTrip(n / 10);
      assert s[..|s| - 1] == DecimalString(n / 10);
      assert s[|s| - 1] == DigitChar(n % 10);
    }
  }

  // ---------------------------------------------------------------------
  // evaluate_math
  // ---------------------------------------------------------------------

  /** The factorial branch once `int(expr)` has returned n. */
  function FactorialOf(n: int): (r: string)
    ensures (n < 0 || n > MaxFactorialArg) <==> r == OutOfRange
  {
    if n < 0 || n > MaxFactorialArg then OutOfRange else DecimalString(Factorial(n))
  }

  /** `evaluate_math({"expression": expression, "mode": mode})`. Total: no
      input makes it raise, and a reply that is not an error is the value
      the service selected by `mode` returned. */
  function EvaluateMath(expression: string, mode: string, rt: Runtime): (r: string)
    ensures mode !in {"sqrt", "factorial", "eval"} ==> r == UnknownMode
    ensures IsError(r)
         || (mode == "sqrt" && rt.sqrtText(expression) == Returned(r))
         || (mode == "factorial" && rt.parseInt(expression).Returned?
             && 0 <= rt.parseInt(expression).value <= MaxFactorialArg
             && r == DecimalString(Factorial(rt.parseInt(expression).value)))
         || (mode == "eval" && InAlphabet(expression) && rt.evalText(expression) == Returned(r))
  {
    if mode == "sqrt" then
      Reply(rt.sqrtText(expression))
    else if mode == "factorial" then
      match rt.parseInt(expression)
      case Raised(m) => ErrorText(m)
      case Returned(n) => FactorialOf(n)
    else if mode == "eval" then
      if !InAlphabet(expression) then Disallowed
      else Reply(rt.evalText(expression))
    else
      UnknownMode
  }

  /** An unknown mode gives exactly "Error: unknown mode", whatever the
      expression and whatever the runtime services would do. */
  lemma UnknownModeIgnoresInput(e1: string, e2: string, mode: string, rt1: Runtime, rt2: Runtime)
    requires mode != "sqrt" && mode != "factorial" && mode != "eval"
    ensures EvaluateMath(e1, mode, rt1) == UnknownMode == EvaluateMath(e2, mode, rt2)
  {
  }

  /** Factorial mode with a parsed n outside [0, 10000] is rejected. */
  lemma FactorialRangeGate(expression: string, rt: Runtime)
    requires rt.parseInt(expression).Returned?
    requires rt.parseInt(expression).value < 0 || rt.parseInt(expression).value > MaxFactorialArg
    ensures EvaluateMath(expression, "factorial", rt) == OutOfRange
  {
  }

  /** Factorial mode with a parsed n in [0, 10000] replies with decimal
      digits that denote exactly n!. */
  lemma FactorialInRange(expression: string, rt: Runtime, n: nat)
    requires rt.parseInt(expression) == Returned(n) && n <= MaxFactorialArg
    ensures var r := EvaluateMath(expression, "factorial", rt);
            AllDigits(r) && DecimalValue(r) == Factorial(n) && !IsError(r)
  {
    DecimalRoundTrip(Factorial(n));
  }

  /** Factorial mode on an expression `int()` rejects replies with an error
      carrying the exception's text. */
  lemma FactorialUnparsable(expression: string, rt: Runtime)
    requires rt.parseInt(expression).Raised?
    ensures var r := EvaluateMath(expression, "factorial", rt);
            IsError(r) && r[|ErrorPrefix|..] == rt.parseInt(expression).message
  {
  }

  /** Eval mode rejects any expression with a character outside the
      alphabet, before and regardless of the evaluator. */
  lemma EvalGateRejects(expression: string, rt: Runtime)
    requires exists i :: 0 <= i < |expression| && expression[i] !in EvalAlphabet
    ensures EvaluateMath(expression, "eval", rt) == Disallowed
  {
  }

  /** Eval mode lets every expression over the alphabet through, the empty
      one included, and replies with the evaluator's value or its error. */
  lemma EvalGatePasses(expression: string, rt: Runtime)
    requires forall i :: 0 <= i < |expression| ==> expression[i] in EvalAlphabet
    ensures var r := EvaluateMath(expression, "eval", rt);
            match rt.evalText(expression)
            case Returned(v) => r == v
            case Raised(m) => IsError(r) && r[|ErrorPrefix|..] == m
  {
  }

  /** The runtime's successful replies never look like errors. */
  ghost predicate HonestRuntime(rt: Runtime) {
    (forall e :: rt.sqrtText(e).Returned? ==> !IsError(rt.sqrtText(e).value))
    && (forall e :: rt.evalText(e).Returned? ==> !IsError(rt.evalText(e).value))
  }

  /** When evaluate_math gets to reply with a computed value. */
  predicate Succeeds(expression: string, mode: string, rt: Runtime) {
    (mode == "sqrt" && rt.sqrtText(expression).Returned?)
    || (mode == "factorial" && rt.parseInt(expression).Returned?
        && 0 <= rt.parseInt(expression).value <= MaxFactorialArg)
    || (mode == "eval" && InAlphabet(expression) && rt.evalText(expression).Returned?)
  }

  /** With an honest runtime, the reply starts with "Error: " exactly when
      no value could be computed: every failure, and only a failure, is
      reported as an error string. */
  lemma ErrorExactlyOnFailure(expression: string, mode: string, rt: Runtime)
    requires HonestRuntime(rt)
    ensures IsError(EvaluateMath(expression, mode, rt)) <==> !Succeeds(expression, mode, rt)
  {
  }

  // ---------------------------------------------------------------------
  // The factorial branch as written, under CPython's default limit on
  // converting an int to a string (3.11 and later, and the 3.10.7, 3.9.14,
  // 3.8.14 and 3.7.14 releases)
  // ---------------------------------------------------------------------

  /** CPython's default `sys.get_int_max_str_digits()`. */
  const IntMaxStrDigits: nat := 4300

  /** `str(n)` for an int under that limit. */
  function PythonIntStr(n: nat): (r: Attempt<string>)
    ensures r.Returned? <==> |DecimalString(n)| <= IntMaxStrDigits
    ensures r.Returned? ==> r.value == DecimalString(n)
  {
    var s := DecimalString(n);
    if |s| > IntMaxStrDigits then
      Raised("Exceeds the limit (4300 digits) for integer string conversion; use sys.set_int_max_str_digits() to increase the limit")
    else
      Returned(s)
  }

  /** The factorial branch exactly as the source writes it, with `str`
      subject to the digit limit. */
  function FactorialBranchAsWritten(expression: string, rt: Runtime): (r: string)
    ensures rt.parseInt(expression).Raised? ==> IsError(r)
  {
    match rt.parseInt(expression)
    case Raised(m) => ErrorText(m)
    case Returned(n) =>
      if n < 0 || n > MaxFactorialArg then OutOfRange
      else Reply(PythonIntStr(Factorial(n)))
  }

  function Pow10(k: nat): (p: nat)
    ensures p >= 1
  {
    if k == 0 then 1 else 10 * Pow10(k - 1)
  }

  /** n! >= 10^(n-9) for n >= 9, since every factor from 10 up is at least 10. */
  lemma {:induction false} FactorialAtLeastPow10(n: nat)
    requires n >= 9
    ensures Factorial(n) >= Pow10(n - 9)
  {
    if n > 9 {
      FactorialAtLeastPow10(n - 1);
      var f, p := Factorial(n - 1), Pow10(n - 10);
      assert Factorial(n) == n * f;
      MulMono(10, n, f);
      assert 10 * f >= 10 * p;
    }
  }

  lemma MulMono(a: nat, b: nat, c: nat)
    requires a <= b
    ensures a * c <= b * c
  {
  }

  /** A number at least 10^k has more than k decimal digits. */
  lemma {:induction false} DigitsAtLeast(m: nat, k: nat)
    requires m >= Pow10(k)
    ensures |DecimalString(m)| >= k + 1
  {
    if k > 0 {
      assert m >= 10;
      assert m / 10 >= Pow10(k - 1);
      DigitsAtLeast(m / 10, k - 1);
    }
  }

  /** As written, factorial mode fails for large in-range arguments: from
      n = 4310 up to 10000 (and, by Stirling's estimate, already from about
      n = 1559) n! has more than 4300 digits, so `str` raises and the reply
      is an error rather than the digits of n!. */
  lemma FactorialAsWrittenFailsInRange(expression: string, rt: Runtime, n: nat)
    requires rt.parseInt(expression) == Returned(n) && 4310 <= n <= MaxFactorialArg
    ensures IsError(FactorialBranchAsWritten(expression, rt))
    ensures FactorialBranchAsWritten(expression, rt) != EvaluateMath(expression, "factorial", rt)
  {
    FactorialAtLeastPow10(n);
    DigitsAtLeast(Factorial(n), n - 9);
    var digits := DecimalString(Factorial(n));
    assert !IsError(digits) by {
      assert digits[0] != 'E';
    }
  }
}
