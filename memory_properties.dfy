/**
 * What `memory.c` promises about its input: which lines `read_number`
 * accepts, how `read_numbers` advances only on accepted lines, and what
 * `main` prints in four example sessions.
 */
module MemoryProperties {
  import opened CString
  import opened Memory

  /** A number printed by `printf("%ld")` and ended by '\n' is accepted, after any white space, with its value. */
  lemma AcceptsPrintedNumber(w: string, n: int)
    requires AllSpace(w)
    ensures Accepts(w + Decimal(n) + "\n") && LineValue(w + Decimal(n) + "\n") == n
  {
    StrtolDecimal(w, n, "\n");
    var s := w + Decimal(n) + "\n";
    assert s[|w| + |Decimal(n)|] == '\n';
  }

  /**
   * Anything but a digit or '\n' right after the number ("42abc\n", "42 \n")
   * makes `read_number` reject the line, although it still stores the number.
   */
  lemma RejectsTrailingCharacters(w: string, n: int, t: string)
    requires AllSpace(w)
    requires t != [] && !IsDigit(t[0]) && t[0] != '\n'
    ensures !Accepts(w + Decimal(n) + t) && LineValue(w + Decimal(n) + t) == n
  {
    StrtolDecimal(w, n, t);
    var s := w + Decimal(n) + t;
    assert s[|w| + |Decimal(n)|] == t[0];
  }

  /** A last line without a '\n' is rejected, whatever it holds: `end` can only point at a character of it or at its NUL. */
  lemma RejectsUnterminatedLine(line: string)
    requires forall k :: 0 <= k < |line| ==> line[k] != '\n'
    ensures !Accepts(line)
  {
  }

  /**
   * An accepted line need not be how `printf("%ld")` prints its value: leading
   * zeros and a plus sign are accepted too.
   */
  lemma AcceptedNotPrinted()
    ensures Accepts("007\n") && LineValue("007\n") == 7 && Decimal(7) + "\n" != "007\n"
    ensures Accepts("+5\n") && LineValue("+5\n") == 5 && Decimal(5) + "\n" != "+5\n"
  {
    var zeros := "007\n";
    assert SkipSpace(zeros, 0) == 0 && SignEnd(zeros) == 0;
    assert DigitsEnd(zeros, 0) == 3;
    assert zeros[0..3] == "007";
    assert DigitsValue("007") == 7 by {
      assert "007"[..2] == "00" && "00"[..1] == "0" && "0"[..0] == "";
    }
    StrtolIs(zeros, 0, 0, 3);
    var plus := "+5\n";
    assert SkipSpace(plus, 0) == 0 && SignEnd(plus) == 1;
    assert DigitsEnd(plus, 1) == 2;
    assert plus[1..2] == "5";
    assert DigitsValue("5") == 5 by {
      assert "5"[..0] == "";
    }
    StrtolIs(plus, 0, 1, 2);
    Printed();
  }

  /**
   * When `strtol` finds no digits it leaves `end` at the start of the line, so
   * the line is accepted exactly when it is the empty line "\n", with value 0.
   */
  lemma NoConversion(line: string)
    requires Strtol(line).end == 0
    ensures Accepts(line) <==> line != [] && line[0] == '\n'
    ensures LineValue(line) == 0
  {
  }

  lemma EmptyLineIsZero()
    ensures Accepts("\n") && LineValue("\n") == 0
  {
    assert SkipSpace("\n", 0) == 1;
    assert SignEnd("\n") == 1;
    NoConversion("\n");
  }

  /** How `printf("%ld")` prints 42 and 5, inside the example lines. */
  lemma PrintedExamples()
    ensures "" + Decimal(42) + "\n" == "42\n" && "  " + Decimal(5) + "\n" == "  5\n"
    ensures "" + Decimal(42) + "abc\n" == "42abc\n" && "" + Decimal(42) + " \n" == "42 \n"
    ensures "" + Decimal(42) == "42"
  {
  }

  lemma Accepts42()
    ensures Accepts("42\n") && LineValue("42\n") == 42
  {
    PrintedExamples();
    AcceptsPrintedNumber("", 42);
  }

  lemma AcceptsIndented5()
    ensures Accepts("  5\n") && LineValue("  5\n") == 5
  {
    PrintedExamples();
    AcceptsPrintedNumber("  ", 5);
  }

  lemma RejectsLettersAfter42()
    ensures !Accepts("42abc\n")
  {
    PrintedExamples();
    RejectsTrailingCharacters("", 42, "abc\n");
  }

  lemma RejectsSpaceAfter42()
    ensures !Accepts("42 \n")
  {
    PrintedExamples();
    RejectsTrailingCharacters("", 42, " \n");
  }

  lemma Rejects42WithoutNewline()
    ensures !Accepts("42")
  {
    RejectsUnterminatedLine("42");
  }

  lemma RejectsAbc()
    ensures !Accepts("abc\n")
  {
    assert SkipSpace("abc\n", 0) == 0;
    NoConversion("abc\n");
  }

  /** `k` rounds of "prompt for slot `p`, complain". */
  function Retries(k: nat, p: int): (out: seq<Event>)
    ensures |out| == 2 * k
  {
    if k == 0 then [] else [Prompt(p), PleaseEnterValid] + Retries(k - 1, p)
  }

  predicate AllRejected(lines: seq<string>)
  {
    forall k :: 0 <= k < |lines| ==> !Accepts(lines[k])
  }

  /**
   * Any number of rejected lines before the next accepted one only add
   * retries: they fill no slot, and the session goes on exactly as it would
   * have without them.
   */
  lemma {:induction false} RejectedLinesOnlyRetry(bad: seq<string>, lines: seq<string>, i: nat, n: nat)
    requires AllRejected(bad)
    requires i < n <= i + |Accepted(lines)|
    ensures Accepted(bad + lines) == Accepted(lines)
    ensures Fill(bad + lines, i, n).output == Retries(|bad|, i + 1) + Fill(lines, i, n).output
    ensures Fill(bad + lines, i, n).rest == Fill(lines, i, n).rest
  {
    if bad != [] {
      var tail := bad[1..];
      assert (bad + lines)[1..] == tail + lines;
      assert (bad + lines)[0] == bad[0];
      RejectedLinesOnlyRetry(tail, lines, i, n);
    } else {
      assert bad + lines == lines;
    }
  }

  /**
   * A fill session reads exactly as many lines as it takes to see `n - i`
   * accepted ones: what it leaves is a suffix of its input, the last line it
   * read was accepted, and the accepted values of what it leaves are the ones
   * after the first `n - i`.
   */
  lemma {:induction false} FillTakesAcceptedPrefix(lines: seq<string>, i: nat, n: nat)
    requires i <= n <= i + |Accepted(lines)|
    ensures Fill(lines, i, n).rest == lines[|lines| - |Fill(lines, i, n).rest|..]
    ensures i < n ==> |Fill(lines, i, n).rest| < |lines| && Accepts(lines[|lines| - |Fill(lines, i, n).rest| - 1])
    ensures Accepted(lines) == Accepted(lines)[..n - i] + Accepted(Fill(lines, i, n).rest)
  {
    FillLeavesSuffix(lines, i, n);
    if i < n {
      var a := Accepts(lines[0]);
      var next := if a then i + 1 else i;
      FillTakesAcceptedPrefix(lines[1..], next, n);
      if a {
        assert Accepted(lines) == [LineValue(lines[0])] + Accepted(lines[1..]);
        assert Accepted(lines)[..n - i] == [LineValue(lines[0])] + Accepted(lines[1..])[..n - next];
      }
    }
  }

  /** What a fill session leaves is a suffix of its input, and the last line it read was accepted. */
  lemma {:induction false} FillLeavesSuffix(lines: seq<string>, i: nat, n: nat)
    requires i <= n <= i + |Accepted(lines)|
    ensures var r := |Fill(lines, i, n).rest|;
      && r <= |lines|
      && Fill(lines, i, n).rest == lines[|lines| - r..]
      && (i < n ==> r < |lines| && Accepts(lines[|lines| - r - 1]))
  {
    if i < n {
      var next := if Accepts(lines[0]) then i + 1 else i;
      FillStep(lines, i, n);
      var tail := lines[1..];
      FillLeavesSuffix(tail, next, n);
      var rest := Fill(tail, next, n).rest;
      assert Fill(lines, i, n).rest == rest;
      assert tail[|tail| - |rest|..] == lines[|lines| - |rest|..];
      if next < n {
        assert tail[|tail| - |rest| - 1] == lines[|lines| - |rest| - 1];
      }
    }
  }

  /** The number of prompts among some events. */
  function Prompts(out: seq<Event>): (count: nat)
    ensures count <= |out|
  {
    if out == [] then 0 else (if out[0].Prompt? then 1 else 0) + Prompts(out[1..])
  }

  /** The number of complaints about a rejected line among some events. */
  function Complaints(out: seq<Event>): (count: nat)
    ensures count <= |out|
  {
    if out == [] then 0 else (if out[0].PleaseEnterValid? then 1 else 0) + Complaints(out[1..])
  }

  /**
   * A fill session prints one prompt per line it reads and one complaint per
   * rejected line, and nothing else.
   */
  lemma {:induction false} FillPrintsPerLine(lines: seq<string>, i: nat, n: nat)
    requires i <= n <= i + |Accepted(lines)|
    ensures |Fill(lines, i, n).rest| <= |lines|
    ensures Prompts(Fill(lines, i, n).output) == |lines| - |Fill(lines, i, n).rest|
    ensures Complaints(Fill(lines, i, n).output) == |lines| - |Fill(lines, i, n).rest| - (n - i)
    ensures |Fill(lines, i, n).output| == 2 * (|lines| - |Fill(lines, i, n).rest|) - (n - i)
  {
    if i < n {
      var next := if Accepts(lines[0]) then i + 1 else i;
      FillStep(lines, i, n);
      FillPrintsPerLine(lines[1..], next, n);
      var tail := Fill(lines[1..], next, n).output;
      if Accepts(lines[0]) {
        assert ([Prompt(i + 1)] + tail)[1..] == tail;
      } else {
        var out := [Prompt(i + 1), PleaseEnterValid] + tail;
        assert out[1..][1..] == tail;
      }
    }
  }

  /** `Total` distributes over concatenation. */
  lemma {:induction false} TotalAppend(a: seq<int>, b: seq<int>)
    ensures Total(a + b) == Total(a) + Total(b)
  {
    if a != [] {
      assert (a + b)[1..] == a[1..] + b;
      TotalAppend(a[1..], b);
    } else {
      assert a + b == b;
    }
  }

  /** What `main` prints last, once it has a count: the sum of the first `n` accepted values after the count line. */
  lemma MainPrintsSum(lines: seq<string>)
    requires Completes(lines) && lines != [] && Accepts(lines[0])
    ensures MainSpec(lines).status == 0
    ensures var out := MainSpec(lines).output;
      |out| >= 2 && out[|out| - 1] == SumIs(Total(Accepted(lines[1..])[..Slots(LineValue(lines[0]))]))
  {
  }

  /** Rejected lines between the count and the numbers change neither the exit status nor the sum `main` prints. */
  lemma MainIgnoresRejectedLines(count: string, bad: seq<string>, lines: seq<string>)
    requires Accepts(count) && AllRejected(bad)
    requires Slots(LineValue(count)) <= |Accepted(lines)|
    ensures Completes([count] + bad + lines) && Completes([count] + lines)
    ensures MainSpec([count] + bad + lines).status == MainSpec([count] + lines).status == 0
    ensures var with := MainSpec([count] + bad + lines).output;
      var without := MainSpec([count] + lines).output;
      with[|with| - 1] == without[|without| - 1]
  {
    var withBad := [count] + bad + lines;
    var without := [count] + lines;
    AppendAssoc([count], bad, lines);
    assert withBad[1..] == bad + lines;
    assert without[1..] == lines;
    AcceptedOfRejected(bad, lines);
    MainPrintsSum(withBad);
    MainPrintsSum(without);
  }

  lemma {:induction false} AcceptedOfRejected(bad: seq<string>, lines: seq<string>)
    requires AllRejected(bad)
    ensures Accepted(bad + lines) == Accepted(lines)
  {
    if bad != [] {
      assert (bad + lines)[1..] == bad[1..] + lines;
      AcceptedOfRejected(bad[1..], lines);
    } else {
      assert bad + lines == lines;
    }
  }

  /** The line that `printf("%ld\n", n)` prints is accepted with value `n`. */
  lemma NumberLine(line: string, n: int)
    requires line == Decimal(n) + "\n"
    ensures Accepts(line) && LineValue(line) == n
  {
    AcceptsPrintedNumber("", n);
    assert "" + Decimal(n) + "\n" == line;
  }

  /** An example session: three numbers, no mistakes. */
  lemma ThreeNumbers()
    ensures Completes(["3\n", "10\n", "20\n", "30\n"])
    ensures MainSpec(["3\n", "10\n", "20\n", "30\n"])
      == Run(0, [HowMany, Prompt(1), Prompt(2), Prompt(3), SumIs(60)], [])
  {
    ThreeNumbersLines();
    MainOnThreeNumbers("3\n", "10\n", "20\n", "30\n");
  }

  /** `main` on a count of 3 followed by three accepted lines. */
  lemma MainOnThreeNumbers(count: string, x: string, y: string, z: string)
    requires Accepts(count) && LineValue(count) == 3
    requires Accepts(x) && Accepts(y) && Accepts(z)
    ensures Completes([count, x, y, z])
    ensures MainSpec([count, x, y, z])
      == Run(0, [HowMany, Prompt(1), Prompt(2), Prompt(3), SumIs(LineValue(x) + LineValue(y) + LineValue(z))], [])
  {
    var vx, vy, vz := LineValue(x), LineValue(y), LineValue(z);
    ThreeSlots(x, y, z);
    assert [count, x, y, z][1..] == [x, y, z];
    TotalCons(vz, []);
    TotalCons(vy, [vz]);
    TotalCons(vx, [vy, vz]);
    assert [vz] + [] == [vz] && [vy] + [vz] == [vy, vz] && [vx] + [vy, vz] == [vx, vy, vz];
    assert Total([vx, vy, vz]) == vx + vy + vz;
    assert [vx, vy, vz][..3] == [vx, vy, vz];
  }

  /** Three accepted lines fill three slots, one prompt each. */
  lemma ThreeSlots(x: string, y: string, z: string)
    requires Accepts(x) && Accepts(y) && Accepts(z)
    ensures Accepted([x, y, z]) == [LineValue(x), LineValue(y), LineValue(z)]
    ensures Fill([x, y, z], 0, 3) == Session([Prompt(1), Prompt(2), Prompt(3)], [])
  {
    var r2 := [z] + [];
    var r1 := [y] + r2;
    AcceptedCons(z, []);
    AcceptedCons(y, r2);
    AcceptedCons(x, r1);
    FillCons(z, [], 2, 3);
    FillCons(y, r2, 1, 3);
    FillCons(x, r1, 0, 3);
    assert [x, y, z] == [x] + r1;
  }

  /** The lines of the session with three numbers. */
  lemma ThreeNumbersLines()
    ensures Accepts("3\n") && LineValue("3\n") == 3
    ensures Accepts("10\n") && LineValue("10\n") == 10
    ensures Accepts("20\n") && LineValue("20\n") == 20
    ensures Accepts("30\n") && LineValue("30\n") == 30
  {
    Printed();
    NumberLine("3\n", 3);
    NumberLine("10\n", 10);
    NumberLine("20\n", 20);
    NumberLine("30\n", 30);
  }

  /** The lines of the example sessions, as `printf("%ld\n")` prints their numbers. */
  lemma Printed()
    ensures Decimal(0) + "\n" == "0\n" && Decimal(2) + "\n" == "2\n" && Decimal(3) + "\n" == "3\n"
    ensures Decimal(5) + "\n" == "5\n" && Decimal(7) + "\n" == "7\n"
    ensures Decimal(10) + "\n" == "10\n" && Decimal(20) + "\n" == "20\n" && Decimal(30) + "\n" == "30\n"
  {
  }

  /** The lines of the session with one malformed line. */
  lemma OneMalformedLineLines()
    ensures Accepts("2\n") && LineValue("2\n") == 2
    ensures !Accepts("abc\n")
    ensures Accepts("5\n") && LineValue("5\n") == 5
    ensures Accepts("7\n") && LineValue("7\n") == 7
  {
    Printed();
    NumberLine("2\n", 2);
    RejectsAbc();
    NumberLine("5\n", 5);
    NumberLine("7\n", 7);
  }

  /** An example session: one malformed line costs one complaint and one more prompt for the same slot. */
  lemma OneMalformedLine()
    ensures Completes(["2\n", "abc\n", "5\n", "7\n"])
    ensures MainSpec(["2\n", "abc\n", "5\n", "7\n"])
      == Run(0, [HowMany, Prompt(1), PleaseEnterValid, Prompt(1), Prompt(2), SumIs(12)], [])
  {
    OneMalformedLineLines();
    MainOnTwoNumbersAfterMistake("2\n", "abc\n", "5\n", "7\n");
  }

  /** `main` on a count of 2, a rejected line, then two accepted lines. */
  lemma MainOnTwoNumbersAfterMistake(count: string, bad: string, x: string, y: string)
    requires Accepts(count) && LineValue(count) == 2
    requires !Accepts(bad) && Accepts(x) && Accepts(y)
    ensures Completes([count, bad, x, y])
    ensures MainSpec([count, bad, x, y])
      == Run(0, [HowMany, Prompt(1), PleaseEnterValid, Prompt(1), Prompt(2), SumIs(LineValue(x) + LineValue(y))], [])
  {
    var vx, vy := LineValue(x), LineValue(y);
    TwoSlotsAfterMistake(bad, x, y);
    assert [count, bad, x, y][1..] == [bad, x, y];
    TotalCons(vy, []);
    TotalCons(vx, [vy]);
    assert [vy] + [] == [vy] && [vx] + [vy] == [vx, vy];
    assert Total([vx, vy]) == vx + vy;
    assert [vx, vy][..2] == [vx, vy];
  }

  /** A rejected line, then two accepted lines, fill two slots with one complaint. */
  lemma TwoSlotsAfterMistake(bad: string, x: string, y: string)
    requires !Accepts(bad) && Accepts(x) && Accepts(y)
    ensures Accepted([bad, x, y]) == [LineValue(x), LineValue(y)]
    ensures Fill([bad, x, y], 0, 2) == Session([Prompt(1), PleaseEnterValid, Prompt(1), Prompt(2)], [])
  {
    var r2 := [y] + [];
    var r1 := [x] + r2;
    AcceptedCons(y, []);
    AcceptedCons(x, r2);
    AcceptedCons(bad, r1);
    FillCons(y, [], 1, 2);
    FillCons(x, r2, 0, 2);
    FillCons(bad, r1, 0, 2);
    assert [bad, x, y] == [bad] + r1;
  }

  lemma TotalCons(x: int, s: seq<int>)
    ensures Total([x] + s) == x + Total(s)
  {
    TotalAppend([x], s);
    assert [x][..0] == [];
  }

  lemma AcceptedCons(line: string, rest: seq<string>)
    ensures Accepted([line] + rest) == (if Accepts(line) then [LineValue(line)] else []) + Accepted(rest)
  {
    assert ([line] + rest)[1..] == rest;
  }

  lemma FillCons(line: string, rest: seq<string>, i: nat, n: nat)
    requires i < n <= i + |Accepted([line] + rest)|
    ensures Accepts(line) ==>
      && n <= i + 1 + |Accepted(rest)|
      && Fill([line] + rest, i, n) == Session([Prompt(i + 1)] + Fill(rest, i + 1, n).output, Fill(rest, i + 1, n).rest)
    ensures !Accepts(line) ==>
      && n <= i + |Accepted(rest)|
      && Fill([line] + rest, i, n) == Session([Prompt(i + 1), PleaseEnterValid] + Fill(rest, i, n).output, Fill(rest, i, n).rest)
  {
    AcceptedCons(line, rest);
    assert ([line] + rest)[0] == line && ([line] + rest)[1..] == rest;
  }

  /** An example session: a count of 0 prints no prompt and the sum 0. */
  lemma CountZero(lines: seq<string>)
    requires lines == ["0\n"]
    ensures Completes(lines)
    ensures MainSpec(lines) == Run(0, [HowMany, SumIs(0)], [])
  {
    Printed();
    NumberLine("0\n", 0);
  }

  /** An example session: without any input, `main` gives up with -1 and prints no sum. */
  lemma NoInput()
    ensures Completes([])
    ensures MainSpec([]) == Run(-1, [HowMany, FailedToRead], [])
  {
  }
}
