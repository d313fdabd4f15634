/**
 * `factorial.py`: `factorial` rebinds `result *= i` for `i` in
 * `range(1, n + 1)`, and the script needs at least one argument. Python's
 * `int()` parser is not part of this model: it is the parameter `intOf`,
 * `None` standing for its `ValueError`.
 */
module FactorialPy {
  import opened Wrappers
  import opened FactorialMath

  /** `factorial(n)`: the product over `range(1, n + 1)`, which is empty for `n <= 0`. */
  method Factorial(n: int) returns (result: int)
    ensures result == Fact(n)
    ensures result >= 1
  {
    result := 1;
    var stop := if n + 1 < 1 then 1 else n + 1;
    for i := 1 to stop
      invariant result == Fact(i - 1)
    {
      result := result * i;
    }
  }

  /** The argument check of the `__main__` block: at least one argument, which `int()` must parse. */
  function ParseArguments(argv: seq<string>, intOf: string -> Option<int>): (n: Option<int>)
    ensures n.Some? ==> |argv| >= 2 && n == intOf(argv[1])
  {
    if |argv| < 2 then None else intOf(argv[1])
  }

  /** The `__main__` block: exit status 1 after the usage message, or `factorial(n) = n!` and status 0. */
  method FactorialMain(argv: seq<string>, intOf: string -> Option<int>) returns (status: int, outcome: Outcome)
    ensures outcome == if ParseArguments(argv, intOf).None? then Usage
      else Printed(ParseArguments(argv, intOf).value, Fact(ParseArguments(argv, intOf).value))
    ensures status == Status(outcome)
  {
    if |argv| < 2 {
      return 1, Usage;
    }
    var parsed := intOf(argv[1]);
    if parsed.None? {
      return 1, Usage;
    }
    var result := Factorial(parsed.value);
    status, outcome := 0, Printed(parsed.value, result);
  }

  /** Fewer than two `argv` entries give exit status 1, whatever `int()` would say. */
  lemma MissingArgument(argv: seq<string>, intOf: string -> Option<int>)
    requires |argv| < 2
    ensures ParseArguments(argv, intOf) == None
  {
  }

  /** Arguments after the first are ignored. */
  lemma ExtraArgumentsIgnored(argv: seq<string>, extra: seq<string>, intOf: string -> Option<int>)
    requires |argv| >= 2
    ensures ParseArguments(argv + extra, intOf) == ParseArguments(argv, intOf)
  {
    assert (argv + extra)[1] == argv[1];
  }
}
