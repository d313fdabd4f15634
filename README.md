# Teaching programs: reading numbers, factorials and swapping, in Dafny

This project models four small C and Python teaching programs and proves
what each of them does.

- `memory.c` asks how many numbers to add up. It reads that many lines from
  standard input into a heap buffer, re-prompting after every line it
  rejects. Then it prints the sum and frees the buffer once.
- `factorial.c` and `factorial.py` compute n! with arbitrary-precision
  integers. Each takes n from its command line.
- `swap.c` exchanges two `int`s through pointers.

Modules:

- `Wrappers` (`wrappers.dfy`): `Option`.
- `CString` (`cstring.dfy`): covers C strings and the base-10 conversion of
  `strtol` (ISO C11, section 7.22.1.4) through its `end` pointer. It also
  covers what `printf("%ld")` prints (`Decimal`).
- `Memory` (`memory.dfy`):
  - `Console` is a class. Its `input` field holds the lines `getline` has
    yet to deliver. Its `output` field holds the events written to standard
    output and standard error, in order.
  - `read_number`, `read_numbers`, `sum` and `main` are methods. Their
    specifications are the functions `Accepts`/`LineValue` (one line's
    verdict and value), `Accepted` (the values of the accepted lines), `Fill`
    (what a fill session prints and leaves unread), `Total` and `MainSpec`.
  - The numbers buffer is an `array<int>`, filled in place.
  - Ghost counters follow the allocations and releases of `getline`'s line
    buffer (one of each per `read_number`) and of the `malloc`ed array.
- `MemoryProperties` (`memory_properties.dfy`): lemmas about the line
  verdict, the fill session and `main`. These include four example
  sessions:
  - three good numbers;
  - one malformed line;
  - a count of 0;
  - no input at all.
- `FactorialMath` (`factorial_math.dfy`): the recursive `Fact` that both
  `factorial` loops are proved against, and the product 1·2·…·n.
- `FactorialC`, `FactorialPy` (`factorial_c.dfy`, `factorial_py.dfy`):
  - the iterative `factorial` methods;
  - each `main`'s argument check, as a pure decision function;
  - each `main`, returning its exit status and outcome (`Usage`, or
    `Printed(n, n!)`).
- `FactorialAgreement` (`factorial_agreement.dfy`): the two `factorial`
  functions agree on every integer. Their argument rules differ on a third
  argument.
- `Swap` (`swap.dfy`): `IntCell` is an `int` object whose address is taken.
  `Swap` writes through two references that may be equal.

Behaviour of the code a reader may not expect:

- `main` in `memory.c` reads the count only once (memory.c:61-64).
  Its first line must be accepted, or the program ends with -1 and allocates
  nothing. It does not ask again.
- An accepted line is not always the printed form of its value. `"007\n"`,
  `"+5\n"`, `" 5\n"` and `"\n"` (which is 0) are all accepted. What holds is
  the other direction: a printed number followed by `'\n'` is accepted with
  its value (`MemoryProperties.AcceptsPrintedNumber`). The counterexamples are
  `MemoryProperties.AcceptedNotPrinted`.

## Model

| member | source | states |
|---|---|---|
| CString.SkipSpace | memory.c:19 | the white space `strtol` skips: every character before the result is `isspace`, the one at it is not |
| CString.DigitsEnd | memory.c:19 | the digit run `strtol` takes: maximal, all digits |
| CString.Strtol | memory.c:19-20 | `end` lies within the string; with no digit after the optional sign, `end` is the start and the value 0; otherwise everything from just after the sign up to `end` is digits, the character at `end` is not a digit, and the value is what those digits denote, negated after a `'-'` |
| CString.DigitsDenote | memory.c:73 | the digits `printf("%ld")` prints for a natural number are nonempty, all digits, and denote that number |
| CString.StrtolDecimal | memory.c:19 | `strtol` on white space, a printed number and a non-digit gives back the number, with `end` just past its digits |
| Memory.Console.constructor | memory.c:55-59 | a process starts with all its input unread and nothing written |
| Memory.Console.GetLine | memory.c:11-12 | `getline` gives `None` at end of input and otherwise removes and returns the first line; output unchanged |
| Memory.Console.Emit | memory.c:34 | one output call appends one event and reads no input |
| Memory.Accepts | memory.c:18-20 | the verdict of `read_number` on a line (`*end == '\n'`); an accepted line holds a `'\n'` |
| Memory.LineValue | memory.c:19 | the value stored through the pointer; 0 when `strtol` converts nothing |
| Memory.ReadNumber | memory.c:7-30 | at end of input: false, target untouched; otherwise one line consumed, the target set to `strtol`'s value, true exactly when the character at `end` is `'\n'`; the line buffer allocated once and released exactly once on every path; nothing printed |
| Memory.Accepted | memory.c:36-38 | there are no more accepted values than lines |
| Memory.Fill | memory.c:33-42 | the output and leftover input of a fill session from slot `i` to `n`: it reads no more lines than it has, prints at least one prompt per slot still to fill, and prints nothing exactly when no slot is left |
| Memory.FillSlot | memory.c:34-41 | one loop pass: prompt `i + 1`, read a line; if accepted, only `numbers[i]` is written and the index advances; if rejected, array and index unchanged and a complaint is printed |
| Memory.FillingStep | memory.c:33-41 | one loop pass keeps the fill invariant: the filled slots are the accepted values read so far, and finishing from here prints what the whole session prints |
| Memory.ReadNumbers | memory.c:32-43 | `numbers[k]` is the `(k+1)`-th accepted value for every `k < nb_numbers`; nothing at or beyond `nb_numbers` is written; the output is the session's prompts and complaints, and the unread input is what the session leaves |
| Memory.Total | memory.c:49-51 | the sum of a sequence, added from the last element; the same as adding the first element to the sum of the rest |
| Memory.Sum | memory.c:45-53 | the sum of `numbers[0..nb_numbers)`, 0 when `nb_numbers <= 0`; the result is the sum of exactly the first `nb_numbers` slots, and `main` allocates exactly that many, so the `<=` bound of memory.c:48 (one read past the end) is not what is computed |
| Memory.Completes | memory.c:61-71 | the input `main` can finish on; with an accepted count it holds more lines than slots |
| Memory.MainSpec | memory.c:55-78 | the status is 0 exactly when the first line is an accepted count, else -1 with only the question and the failure message printed; the question is printed first; with a count, at least one prompt per slot; at least one line is read |
| Memory.MemoryMain | memory.c:55-78 | status, output and remaining input are those of `MainSpec`: -1 after the count prompt and the failure message when the first line is not accepted, else prompts, complaints and the sum of the first `count` accepted values with status 0; the buffer is allocated only on success and then released exactly once, after the sum is the last event printed |
| MemoryProperties.AcceptsPrintedNumber | memory.c:19-23 | a printed number after any white space and before `'\n'` is accepted with its value |
| MemoryProperties.RejectsTrailingCharacters | memory.c:19-28 | a printed number followed by anything other than a digit or `'\n'` is rejected, though its value is still stored |
| MemoryProperties.RejectsUnterminatedLine | memory.c:20-27 | every line without `'\n'` (a last line at end of input) is rejected |
| MemoryProperties.AcceptedNotPrinted | memory.c:19-23 | `"007\n"` and `"+5\n"` are accepted with 7 and 5, though neither is how its value is printed |
| MemoryProperties.NoConversion | memory.c:19-20 | with no conversion, a line is accepted exactly when it starts with `'\n'`, and its value is 0 |
| MemoryProperties.EmptyLineIsZero | memory.c:19-23 | `"\n"` is accepted with value 0 |
| MemoryProperties.Accepts42 | memory.c:18-23 | `"42\n"` is accepted with value 42 |
| MemoryProperties.AcceptsIndented5 | memory.c:18-23 | `"  5\n"` is accepted with value 5 |
| MemoryProperties.RejectsLettersAfter42 | memory.c:24-28 | `"42abc\n"` is rejected |
| MemoryProperties.RejectsSpaceAfter42 | memory.c:24-28 | `"42 \n"` is rejected |
| MemoryProperties.Rejects42WithoutNewline | memory.c:24-28 | `"42"` as a last line is rejected |
| MemoryProperties.RejectsAbc | memory.c:24-28 | `"abc\n"` is rejected |
| MemoryProperties.Retries | memory.c:39-41 | proof helper of `RejectedLinesOnlyRetry`: `k` retry rounds for one slot are `2k` events |
| MemoryProperties.RejectedLinesOnlyRetry | memory.c:36-41 | rejected lines before the next accepted one fill no slot: each only adds a prompt for the same slot and a complaint, and the session then goes on as without them |
| MemoryProperties.FillTakesAcceptedPrefix | memory.c:33-42 | the session reads exactly the lines holding the first `n - i` accepted values: what it leaves is a suffix of its input, the last line it read was accepted, and the accepted values it leaves are the rest |
| MemoryProperties.FillPrintsPerLine | memory.c:33-42 | the session prints one prompt per line read, one complaint per rejected line (lines read less slots filled), and no other event |
| MemoryProperties.TotalAppend | memory.c:49-51 | the sum of a concatenation is the sum of the sums |
| MemoryProperties.MainPrintsSum | memory.c:71-73 | with an accepted count, the status is 0 and the last event is the sum of the first `count` accepted values after the count line |
| MemoryProperties.AcceptedOfRejected | memory.c:36-41 | rejected lines contribute no values |
| MemoryProperties.MainIgnoresRejectedLines | memory.c:71-73 | rejected lines between the count and the numbers change neither the status nor the sum printed |
| MemoryProperties.NumberLine | memory.c:19-23 | a printed number and its `'\n'` are accepted with that number |
| MemoryProperties.ThreeNumbers | memory.c:55-78 | input `3, 10, 20, 30`: three prompts, the sum 60, status 0 |
| MemoryProperties.MainOnThreeNumbers | memory.c:55-78 | a count of 3 and three accepted lines: three prompts and the sum of their values |
| MemoryProperties.ThreeSlots | memory.c:32-43 | three accepted lines fill three slots with one prompt each |
| MemoryProperties.ThreeNumbersLines | memory.c:18-23 | the lines `3`, `10`, `20`, `30` are accepted with their values |
| MemoryProperties.OneMalformedLineLines | memory.c:18-28 | the lines `2`, `abc`, `5`, `7`: `"abc\n"` rejected, the others accepted with their values |
| MemoryProperties.OneMalformedLine | memory.c:55-78 | input `2, abc, 5, 7`: prompt 1, complaint, prompt 1 again, prompt 2, the sum 12, status 0 |
| MemoryProperties.MainOnTwoNumbersAfterMistake | memory.c:55-78 | a count of 2, a rejected line and two accepted lines: one complaint and the sum of the two values |
| MemoryProperties.TwoSlotsAfterMistake | memory.c:32-43 | a rejected line then two accepted ones fill two slots with one complaint |
| MemoryProperties.TotalCons | memory.c:49-51 | the sum of `[x] + s` is `x` plus the sum of `s` |
| MemoryProperties.CountZero | memory.c:55-78 | input `0`: no prompt, the sum 0, status 0 |
| MemoryProperties.NoInput | memory.c:59-64 | no input: the count prompt, the failure message, status -1 |
| FactorialMath.FactOfNonPositive | factorial.py:6-9 | n! is 1 for every `n <= 0`, the empty `range` |
| FactorialMath.Fact | factorial.c:7-10 | n! is at least 1, and at least n, for every n |
| FactorialMath.FactStep | factorial.py:5-9 | `n! == n * (n - 1)!` for `n >= 1` |
| FactorialMath.ProductLast | factorial.c:8-10 | the last factor of a nonempty product splits off |
| FactorialMath.FactIsProduct | factorial.c:8-10 | n! is the product 1·2·…·n (the empty product for `n <= 0`) |
| FactorialC.Factorial | factorial.c:5-11 | the accumulator starts at 1; the result is n! and at least 1; loop invariant: after the pass for `i` it holds i! |
| FactorialC.ParseArguments | factorial.c:20-29 | an argument is taken only when `argc == 2` |
| FactorialC.FactorialMain | factorial.c:18-34 | usage and status 1 when the argument check fails, else `factorial(n) = n!` and status 0 |
| FactorialC.WrongArgumentCount | factorial.c:20-23 | any `argc != 2` gives usage |
| FactorialC.EmptyArgumentIsZero | factorial.c:24-29 | an empty argument is accepted as 0 |
| FactorialC.AcceptsPrintedNumber | factorial.c:24-29 | a printed number after any white space is accepted with its value |
| FactorialC.RejectsTrailingCharacters | factorial.c:26-29 | anything other than a digit after the number ("5x", "5 ") gives usage |
| FactorialPy.Factorial | factorial.py:5-9 | `result *= i` over `range(1, n + 1)` gives n!, at least 1 |
| FactorialPy.ParseArguments | factorial.py:15-22 | an argument is taken only when `argv` has at least 2 entries, and it is what `int()` makes of `argv[1]` |
| FactorialPy.FactorialMain | factorial.py:14-24 | usage and status 1 when the argument check fails, else `factorial(n) = n!` and status 0 |
| FactorialPy.MissingArgument | factorial.py:15-17 | fewer than two `argv` entries give usage, whatever the parser says |
| FactorialPy.ExtraArgumentsIgnored | factorial.py:15-18 | entries after `argv[1]` do not change the decision |
| FactorialAgreement.SameResult | factorial.py:5-9 | the Python and the C `factorial` return the same value, n!, for every integer |
| FactorialAgreement.ExtraArgumentRules | factorial.c:20-23 | with a third argument, C gives usage while Python takes `argv[1]` |
| Swap.IntCell.constructor | swap.c:12-13 | a fresh `int` object holds its initial value |
| Swap.Swap | swap.c:3-8 | `*left` ends with the old `*right` and `*right` with the old `*left`; nothing but the two objects is modified |
| Swap.SwapTwice | swap.c:3-8 | swapping twice restores both values |
| Swap.SwapWithItself | swap.c:5-7 | when both pointers designate the same `int`, its value is unchanged |
| Swap.SwapMain | swap.c:10-18 | `main` ends with `i == 5` and `j == 2` |

## Left out

- `asm.c`: it holds inline x86 assembly and a raw `exit` system call, with no logic beyond a constant.
- `getline`, `malloc` and `free` as library calls. Input is a sequence of lines. Buffer ownership is tracked with ghost counters, not a heap. `malloc` returning NULL is not modelled; a negative count gets an empty buffer.
- `strtol` overflow (saturation to `LONG_MIN`/`LONG_MAX` with `ERANGE`) and C `long` wrap-around in `sum` and in the factorial loop counter: all are unbounded `int`.
- `strtol` bases other than 10, and locales other than "C" for `isspace`.
- Memory.ReadNumbers: requires that the input hold at least `nb_numbers` accepted lines, because `read_numbers` prompts forever once input runs out.
- Memory.MemoryMain: requires `Completes`, the same condition for the count read from the first line.
- The exact text of messages, `setbuf`, and the formatting of prompts and results. Each output call is one `Event`.
- Standard output and standard error are one stream of events, not two.
- GMP internals, `mpz_clear` and `gmp_printf`. `mpz_t` is `int`. The line `factorial.c` prints passes a `long` for a `%d` conversion; printing is not modelled, so neither is that mismatch.
- Python's `int()` string parsing is a parameter. Also not modelled: `sys.set_int_max_str_digits`, the f-string output, and `sys.exit` beyond its status.
- The program name in `argv[0]` plays no part.
