/**
 * `memory.c`: ask for a count, read that many numbers from standard input
 * into a heap buffer, print their sum and free the buffer.
 *
 * Standard input is the sequence of lines `getline` would still deliver (each
 * with its '\n', except perhaps the last); standard output and standard error
 * are one sequence of events, one per `puts`/`printf`/`fprintf`. The line
 * buffers of `getline` and the `malloc`ed array are followed with ghost
 * counters of allocations and releases. C `long` is an unbounded `int`.
 */
module Memory {
  import opened Wrappers
  import opened CString

  /** What the program writes, one event per call to the C library's output functions. */
  datatype Event =
    | HowMany               // puts: the question for the count
    | FailedToRead          // fprintf to stderr: no count, the program gives up
    | Prompt(index: int)    // printf: the prompt for the 1-based slot `index`
    | PleaseEnterValid      // puts: the complaint about a rejected line
    | SumIs(total: int)     // printf: the sum

  /** The process's standard streams. */
  class Console {
    /** The lines standard input has yet to deliver. */
    var input: seq<string>
    /** What has been written to standard output and standard error, in order. */
    var output: seq<Event>

    constructor (lines: seq<string>)
      ensures input == lines && output == []
    {
      input := lines;
      output := [];
    }

    /** `getline(&line, &length, stdin)`: the next line, or `None` when it returns -1. */
    method GetLine() returns (line: Option<string>)
      modifies this
      ensures output == old(output)
      ensures old(input) == [] ==> line == None && input == []
      ensures old(input) != [] ==> line == Some(old(input)[0]) && input == old(input)[1..]
    {
      if input == [] {
        line := None;
      } else {
        line := Some(input[0]);
        input := input[1..];
      }
    }

    method Emit(e: Event)
      modifies this
      ensures input == old(input) && output == old(output) + [e]
    {
      output := output + [e];
    }
  }

  /** `read_number`'s verdict on a line: `strtol` must stop exactly at the line's '\n'. */
  predicate Accepts(line: string): (accepted: bool)
    ensures accepted ==> '\n' in line
  {
    At(line, Strtol(line).end) == '\n'
  }

  /** What `read_number` stores through its pointer once it has a line. */
  function LineValue(line: string): (value: int)
    ensures Strtol(line).end == 0 ==> value == 0
  {
    Strtol(line).value
  }

  /**
   * `read_number(&target)`. At end of input it returns false and leaves the
   * target alone; otherwise it consumes one line, stores `strtol`'s value
   * (even when it then rejects the line) and returns whether the line was
   * accepted. The line buffer is released exactly once on each path.
   */
  method ReadNumber(console: Console, target: int)
      returns (ok: bool, target': int, ghost allocations: nat, ghost releases: nat)
    modifies console
    ensures allocations == 1 && releases == allocations
    ensures console.output == old(console.output)
    ensures old(console.input) == [] ==> !ok && target' == target && console.input == []
    ensures old(console.input) != [] ==>
      && console.input == old(console.input)[1..]
      && ok == Accepts(old(console.input)[0])
      && target' == LineValue(old(console.input)[0])
  {
    allocations, releases := 0, 0;
    var line := console.GetLine();
    allocations := allocations + 1;   // getline allocates the line buffer, even at end of input
    if line == None {
      releases := releases + 1;
      ok, target' := false, target;
    } else {
      var conversion := Strtol(line.value);
      target' := conversion.value;
      if At(line.value, conversion.end) == '\n' {
        releases := releases + 1;
        ok := true;
      } else {
        releases := releases + 1;
        ok := false;
      }
    }
  }

  /** The values of the accepted lines, in input order. */
  function Accepted(lines: seq<string>): (values: seq<int>)
    ensures |values| <= |lines|
  {
    if lines == [] then []
    else (if Accepts(lines[0]) then [LineValue(lines[0])] else []) + Accepted(lines[1..])
  }

  /** The number of slots `read_numbers` fills for a requested count: none for a count below 1. */
  function Slots(count: int): nat
  {
    if count < 0 then 0 else count
  }

  /** What a fill session printed, and the input it left. */
  datatype Session = Session(output: seq<Event>, rest: seq<string>)

  /**
   * `read_numbers` from the moment `i` slots of `n` are filled: a prompt for
   * slot `i + 1` before every line it reads, a complaint after every rejected
   * line, until the `n`-th slot is filled.
   */
  function Fill(lines: seq<string>, i: nat, n: nat): (session: Session)
    requires i <= n <= i + |Accepted(lines)|
    ensures |session.rest| <= |lines| && |session.output| >= n - i
    ensures session.output == [] <==> i == n
    decreases |lines|
  {
    if i == n then Session([], lines)
    else if Accepts(lines[0]) then
      var next := Fill(lines[1..], i + 1, n);
      Session([Prompt(i + 1)] + next.output, next.rest)
    else
      var next := Fill(lines[1..], i, n);
      Session([Prompt(i + 1), PleaseEnterValid] + next.output, next.rest)
  }

  /**
   * `read_numbers(numbers, nbNumbers)`: slot `k` receives the value of the
   * `k + 1`-th accepted line; rejected lines neither advance the index nor
   * touch the array, and nothing at or beyond `nbNumbers` is written. The
   * source retries forever at end of input, so the input must hold enough
   * accepted lines.
   */
  method ReadNumbers(console: Console, numbers: array<int>, nbNumbers: int)
    requires nbNumbers <= numbers.Length
    requires Slots(nbNumbers) <= |Accepted(console.input)|
    modifies console, numbers
    ensures numbers[..Slots(nbNumbers)] == Accepted(old(console.input))[..Slots(nbNumbers)]
    ensures numbers[Slots(nbNumbers)..] == old(numbers[Slots(nbNumbers)..])
    ensures console.output == old(console.output) + Fill(old(console.input), 0, Slots(nbNumbers)).output
    ensures console.input == Fill(old(console.input), 0, Slots(nbNumbers)).rest
  {
    ghost var lines := console.input;
    ghost var n := Slots(nbNumbers);
    var i := 0;
    while i < nbNumbers
      invariant 0 <= i <= n
      invariant numbers[n..] == old(numbers[n..])
      invariant Filling(lines, old(console.output), n, numbers[..i], console.input, console.output)
      decreases |console.input|
    {
      ghost var filled := numbers[..i];
      FillingStep(lines, old(console.output), n, filled, console.input, console.output);
      i := FillSlot(console, numbers, i, nbNumbers);
      assert numbers[..i] == filled || numbers[..i] == filled + [numbers[i - 1]];
    }
  }

  /**
   * The state of a fill session that started on `lines` with `printed` already
   * written, once the slots hold `filled`: the lines read so far held exactly
   * the values `filled`, and finishing the session from here prints and leaves
   * what the whole session does.
   */
  ghost predicate Filling(lines: seq<string>, printed: seq<Event>, n: nat,
                          filled: seq<int>, input: seq<string>, output: seq<Event>)
  {
    && n <= |Accepted(lines)|
    && |filled| <= n
    && filled + Accepted(input) == Accepted(lines)
    && n - |filled| <= |Accepted(input)|
    && output + Fill(input, |filled|, n).output == printed + Fill(lines, 0, n).output
    && Fill(input, |filled|, n).rest == Fill(lines, 0, n).rest
  }

  /** One pass of the loop keeps `Filling`: an accepted line fills the next slot, a rejected one fills none. */
  lemma FillingStep(lines: seq<string>, printed: seq<Event>, n: nat,
                    filled: seq<int>, input: seq<string>, output: seq<Event>)
    requires Filling(lines, printed, n, filled, input, output) && |filled| < n
    ensures input != []
    ensures Accepts(input[0]) ==>
      Filling(lines, printed, n, filled + [LineValue(input[0])], input[1..], output + [Prompt(|filled| + 1)])
    ensures !Accepts(input[0]) ==>
      Filling(lines, printed, n, filled, input[1..], output + [Prompt(|filled| + 1), PleaseEnterValid])
  {
    FillStep(input, |filled|, n);
    var i := |filled|;
    if Accepts(input[0]) {
      AppendAssoc(output, [Prompt(i + 1)], Fill(input[1..], i + 1, n).output);
      AppendAssoc(filled, [LineValue(input[0])], Accepted(input[1..]));
    } else {
      AppendAssoc(output, [Prompt(i + 1), PleaseEnterValid], Fill(input[1..], i, n).output);
    }
  }

  lemma AppendAssoc<T>(a: seq<T>, b: seq<T>, c: seq<T>)
    ensures a + (b + c) == (a + b) + c
  {
  }

  /** One pass of `read_numbers`'s loop body: prompt for slot `i + 1`, read a line, store it or complain. */
  method FillSlot(console: Console, numbers: array<int>, i: nat, n: int) returns (next: nat)
    requires i < n <= numbers.Length && n - i <= |Accepted(console.input)|
    modifies console, numbers
    ensures old(console.input) != [] && console.input == old(console.input)[1..]
    ensures Accepts(old(console.input)[0]) ==>
      && next == i + 1
      && numbers[..] == old(numbers[..])[i := LineValue(old(console.input)[0])]
      && console.output == old(console.output) + [Prompt(i + 1)]
    ensures !Accepts(old(console.input)[0]) ==>
      && next == i
      && numbers[..] == old(numbers[..])
      && console.output == old(console.output) + [Prompt(i + 1), PleaseEnterValid]
  {
    FillStep(console.input, i, n);
    console.Emit(Prompt(i + 1));
    var ok, number, _, _ := ReadNumber(console, 0);
    if ok {
      numbers[i] := number;
      next := i + 1;
    } else {
      console.Emit(PleaseEnterValid);
      next := i;
    }
  }

  /** One step of a fill session: the line it reads, and what that line does to the slots and the output. */
  lemma FillStep(lines: seq<string>, i: nat, n: nat)
    requires i < n <= i + |Accepted(lines)|
    ensures lines != []
    ensures Accepts(lines[0]) ==>
      && Accepted(lines) == [LineValue(lines[0])] + Accepted(lines[1..])
      && Fill(lines, i, n).output == [Prompt(i + 1)] + Fill(lines[1..], i + 1, n).output
      && Fill(lines, i, n).rest == Fill(lines[1..], i + 1, n).rest
    ensures !Accepts(lines[0]) ==>
      && Accepted(lines) == Accepted(lines[1..])
      && Fill(lines, i, n).output == [Prompt(i + 1), PleaseEnterValid] + Fill(lines[1..], i, n).output
      && Fill(lines, i, n).rest == Fill(lines[1..], i, n).rest
  {
  }

  /** The arithmetic sum of a sequence. */
  function Total(s: seq<int>): (t: int)
    ensures s != [] ==> t == s[0] + Total(s[1..])
  {
    if s == [] then 0
    else
      var init := s[..|s| - 1];
      assert init != [] ==> init[1..] == s[1..][..|s| - 2];
      Total(init) + s[|s| - 1]
  }

  /**
   * `sum(numbers, nbNumbers)`: the sum of the first `nbNumbers` slots, and
   * 0 for a count below 1. The loop bound `i < nbNumbers` keeps every read
   * inside `[0, nbNumbers)`.
   */
  method Sum(numbers: array<int>, nbNumbers: int) returns (result: int)
    requires nbNumbers <= numbers.Length
    ensures result == Total(numbers[..Slots(nbNumbers)])
  {
    result := 0;
    var i := 0;
    while i < nbNumbers
      invariant 0 <= i <= Slots(nbNumbers)
      invariant result == Total(numbers[..i])
    {
      assert numbers[..i + 1][..i] == numbers[..i];
      result := result + numbers[i];
      i := i + 1;
    }
  }

  /** The input `main` can run to completion on: one that cannot leave `read_numbers` waiting forever. */
  predicate Completes(lines: seq<string>): (completes: bool)
    ensures completes && lines != [] && Accepts(lines[0]) ==> Slots(LineValue(lines[0])) < |lines|
  {
    lines == [] || !Accepts(lines[0]) || Slots(LineValue(lines[0])) <= |Accepted(lines[1..])|
  }

  /** What `main` does with an input: its exit status, what it printed and what input it left. */
  datatype Run = Run(status: int, output: seq<Event>, rest: seq<string>)

  /** The specification of `main`. */
  function MainSpec(lines: seq<string>): (run: Run)
    requires Completes(lines)
    ensures run.status == (if lines != [] && Accepts(lines[0]) then 0 else -1)
    ensures |run.output| >= 2 && run.output[0] == HowMany
    ensures run.status == -1 ==> run.output == [HowMany, FailedToRead]
    ensures run.status == 0 ==> |run.output| >= 2 + Slots(LineValue(lines[0]))
    ensures |run.rest| < |lines| || lines == []
  {
    if lines == [] then Run(-1, [HowMany, FailedToRead], [])
    else if !Accepts(lines[0]) then Run(-1, [HowMany, FailedToRead], lines[1..])
    else
      var n := Slots(LineValue(lines[0]));
      var session := Fill(lines[1..], 0, n);
      Run(0, [HowMany] + session.output + [SumIs(Total(Accepted(lines[1..])[..n]))], session.rest)
  }

  /**
   * `main`: read the count once (no retry), allocate the buffer, fill it,
   * print the sum and free the buffer once. Without a count it allocates
   * nothing and exits with -1.
   */
  method MemoryMain(console: Console)
      returns (status: int, ghost allocations: nat, ghost releases: nat, ghost releasedAfter: nat)
    requires Completes(console.input)
    modifies console
    ensures status == MainSpec(old(console.input)).status
    ensures console.output == old(console.output) + MainSpec(old(console.input)).output
    ensures console.input == MainSpec(old(console.input)).rest
    ensures releases == allocations
    ensures allocations == if status == 0 then 1 else 0
    ensures status == 0 ==> releasedAfter == |console.output| && console.output[releasedAfter - 1].SumIs?
  {
    allocations, releases, releasedAfter := 0, 0, 0;
    ghost var printed := console.output;
    ghost var lines := console.input;
    console.Emit(HowMany);
    var ok, nbNumbers, _, _ := ReadNumber(console, 0);
    if !ok {
      console.Emit(FailedToRead);
      status := -1;
      AppendAssoc(printed, [HowMany], [FailedToRead]);
      return;
    }
    var numbers := new int[Slots(nbNumbers)];
    allocations := allocations + 1;
    ReadNumbers(console, numbers, nbNumbers);
    var total := Sum(numbers, nbNumbers);
    ghost var session := Fill(lines[1..], 0, Slots(nbNumbers));
    assert total == Total(Accepted(lines[1..])[..Slots(nbNumbers)]);
    console.Emit(SumIs(total));
    AppendAssoc(printed, [HowMany], session.output);
    AppendAssoc(printed, [HowMany] + session.output, [SumIs(total)]);
    releases := releases + 1;   // free(numbers), once the sum is printed
    releasedAfter := |console.output|;
    status := 0;
  }
}
