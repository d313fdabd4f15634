/**
 * `factorial.c`: `factorial` multiplies a GMP integer by 1, 2, ..., n, and
 * `main` takes exactly one argument, which `strtol` must consume entirely.
 * The loop counter is an unbounded `int`: the width of C's `long` is not modelled.
 */
module FactorialC {
  import opened Wrappers
  import opened CString
  import opened FactorialMath

  /** `factorial(result, n)`: `result` starts at 1 and is multiplied by `i` for `i` from 1 to `n`. */
  method Factorial(n: int) returns (result: int)
    ensures result == Fact(n)
    ensures result >= 1
  {
    result := 1;
    var i := 1;
    while i <= n
      invariant 1 <= i <= if n < 1 then 1 else n + 1
      invariant result == Fact(i - 1)
    {
      result := result * i;
      i := i + 1;
    }
  }

  /**
   * The argument check of `main`: `argc` must be 2, and `strtol` must stop at
   * the end of `argv[1]`. When it converts nothing it stops at the start, so
   * an empty argument passes as 0.
   */
  function ParseArguments(argv: seq<string>): (n: Option<int>)
    ensures n.Some? ==> |argv| == 2
  {
    if |argv| != 2 then None
    else
      var conversion := Strtol(argv[1]);
      if At(argv[1], conversion.end) != '\0' then None else Some(conversion.value)
  }

  /** `main(argc, argv)`: the usage message and 1, or `factorial(n) = n!` and 0. */
  method FactorialMain(argv: seq<string>) returns (status: int, outcome: Outcome)
    ensures outcome == if ParseArguments(argv).None? then Usage else Printed(ParseArguments(argv).value, Fact(ParseArguments(argv).value))
    ensures status == Status(outcome)
  {
    if |argv| != 2 {
      return 1, Usage;
    }
    var conversion := Strtol(argv[1]);
    if At(argv[1], conversion.end) != '\0' {
      return 1, Usage;
    }
    var result := Factorial(conversion.value);
    status, outcome := 0, Printed(conversion.value, result);
  }

  /** Any argument count other than one gives the usage message. */
  lemma WrongArgumentCount(argv: seq<string>)
    requires |argv| != 2
    ensures ParseArguments(argv) == None
  {
  }

  /** An empty argument is no conversion, which `strtol` reports by stopping at the (terminating) start. */
  lemma EmptyArgumentIsZero(program: string)
    ensures ParseArguments([program, ""]) == Some(0)
  {
    assert SkipSpace("", 0) == 0;
  }

  /** A number written in decimal, after any white space, is accepted with its value. */
  lemma AcceptsPrintedNumber(program: string, w: string, n: int)
    requires AllSpace(w)
    ensures ParseArguments([program, w + Decimal(n)]) == Some(n)
  {
    StrtolDecimal(w, n, "");
    assert w + Decimal(n) + "" == w + Decimal(n);
  }

  /** Anything after the digits other than more digits ("5x", "5 ") gives the usage message. */
  lemma RejectsTrailingCharacters(program: string, w: string, n: int, t: string)
    requires AllSpace(w)
    requires t != [] && !IsDigit(t[0]) && t[0] != '\0'
    ensures ParseArguments([program, w + Decimal(n) + t]) == None
  {
    StrtolDecimal(w, n, t);
    var s := w + Decimal(n) + t;
    assert s[|w| + |Decimal(n)|] == t[0];
  }
}
