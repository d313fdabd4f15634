/** `factorial.py` and `factorial.c` compute the same function, but accept their arguments differently. */
module FactorialAgreement {
  import opened Wrappers
  import FactorialC
  import FactorialPy
  import FactorialMath

  /** Both `factorial` functions return the same value for every integer. */
  method SameResult(n: int) returns (fromC: int, fromPython: int)
    ensures fromC == fromPython == FactorialMath.Fact(n)
  {
    fromC := FactorialC.Factorial(n);
    fromPython := FactorialPy.Factorial(n);
  }

  /**
   * Given a second argument that parses, the C program refuses a third one
   * where the Python script ignores it.
   */
  lemma ExtraArgumentRules(program: string, arg: string, extra: string, intOf: string -> Option<int>)
    requires intOf(arg).Some?
    ensures FactorialC.ParseArguments([program, arg, extra]) == None
    ensures FactorialPy.ParseArguments([program, arg, extra], intOf) == intOf(arg)
  {
  }
}
