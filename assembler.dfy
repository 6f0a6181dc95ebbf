/** `generateTestCases` (script.js): one test case per non-blank line of the
    input, numbered from 1, each holding `testCount` rounds of every enabled
    generator, positive first, then negative, then edge. */
module Assembler {
  import opened Text
  import opened Title
  import opened Records
  import opened Generators

  // ---------------------------------------------------------------------------
  // Lines

  /** `lines.filter(line => line.trim().length > 0)`. */
  function KeepNonBlank(lines: seq<string>): (kept: seq<string>)
    ensures |kept| <= |lines|
    ensures forall l <- kept :: l in lines && Trim(l) != []
    ensures forall l <- lines :: Trim(l) != [] ==> l in kept
  {
    if lines == [] then []
    else if Trim(lines[0]) != [] then [lines[0]] + KeepNonBlank(lines[1..])
    else KeepNonBlank(lines[1..])
  }

  /** `stories.split('\n').filter(line => line.trim().length > 0)`. */
  function NonBlankLines(stories: string): (lines: seq<string>)
    ensures forall l <- lines :: '\n' !in l && Trim(l) != []
  {
    var parts := Split(stories, "\n");
    forall l <- KeepNonBlank(parts) ensures '\n' !in l {
      assert l in parts;
      NewlineFree(l);
    }
    KeepNonBlank(parts)
  }

  /** A piece that does not contain the one-character string "\n" has no line feed. */
  lemma NewlineFree(l: string)
    ensures !Contains(l, "\n") ==> '\n' !in l
  {
    forall i | 0 <= i < |l| && l[i] == '\n' ensures OccursAt(l, "\n", i) {
      assert l[i..i + 1] == [l[i]];
    }
  }

  /** Lines in which all characters are whitespace are the lines `trim` empties. */
  lemma {:induction false} KeepNonBlankEmpty(lines: seq<string>)
    ensures KeepNonBlank(lines) == [] <==> forall l <- lines :: AllSpace(l)
    decreases |lines|
  {
    if lines != [] {
      TrimEmptyIff(lines[0]);
      KeepNonBlankEmpty(lines[1..]);
      assert forall l <- lines :: l == lines[0] || l in lines[1..];
    }
  }

  /** Joined with a whitespace separator, a list of pieces is all whitespace
      exactly when every piece is. */
  lemma {:induction false} JoinAllSpace(parts: seq<string>, sep: string)
    requires AllSpace(sep)
    ensures AllSpace(Join(parts, sep)) <==> forall p <- parts :: AllSpace(p)
    decreases |parts|
  {
    if |parts| > 1 {
      JoinAllSpace(parts[1..], sep);
      AllSpaceConcat(parts[0] + sep, Join(parts[1..], sep));
      AllSpaceConcat(parts[0], sep);
      assert forall p <- parts :: p == parts[0] || p in parts[1..];
    }
  }

  /** Whitespace-only exactly when both halves are. */
  lemma AllSpaceConcat(a: string, b: string)
    ensures AllSpace(a + b) <==> AllSpace(a) && AllSpace(b)
  {
    if AllSpace(a) && AllSpace(b) {
      forall i | 0 <= i < |a + b| ensures IsSpace((a + b)[i]) {
        if i < |a| {
          assert (a + b)[i] == a[i];
        } else {
          assert (a + b)[i] == b[i - |a|];
        }
      }
    }
    if AllSpace(a + b) {
      forall i | 0 <= i < |a| ensures IsSpace(a[i]) {
        assert (a + b)[i] == a[i];
      }
      forall i | 0 <= i < |b| ensures IsSpace(b[i]) {
        assert (a + b)[|a| + i] == b[i];
      }
    }
  }

  /** No test case comes out exactly when the input is empty or only
      whitespace; the caller rejects that input before calling. */
  lemma NoLinesIffBlank(stories: string)
    ensures NonBlankLines(stories) == [] <==> AllSpace(stories)
  {
    var parts := Split(stories, "\n");
    KeepNonBlankEmpty(parts);
    JoinAllSpace(parts, "\n");
  }

  /** The filter works line by line: filtering a concatenation filters each
      half and keeps their order. */
  lemma {:induction false} KeepNonBlankConcat(a: seq<string>, b: seq<string>)
    ensures KeepNonBlank(a + b) == KeepNonBlank(a) + KeepNonBlank(b)
    decreases |a|
  {
    if a == [] {
      assert a + b == b;
    } else {
      assert (a + b)[0] == a[0] && (a + b)[1..] == a[1..] + b;
      KeepNonBlankConcat(a[1..], b);
    }
  }

  /** Appending a line appends it to the filtered list exactly when it is not blank. */
  lemma KeepNonBlankAppend(lines: seq<string>, l: string)
    ensures KeepNonBlank(lines + [l]) == KeepNonBlank(lines) + (if Trim(l) == [] then [] else [l])
  {
    KeepNonBlankConcat(lines, [l]);
    assert KeepNonBlank([l]) == (if Trim(l) == [] then [] else [l]) by {
      assert [l][0] == l && [l][1..] == [];
      assert KeepNonBlank([]) == [];
    }
  }

  /** Lines without line feeds, joined with line feeds, come back as the same
      lines, in order and with repeats, less the blank ones. */
  lemma LinesOfJoin(lines: seq<string>)
    requires lines != []
    requires forall l <- lines :: '\n' !in l
    ensures NonBlankLines(Join(lines, "\n")) == KeepNonBlank(lines)
  {
    SplitJoin(lines, '\n');
  }

  /** With no blank line among them, every line comes back. */
  lemma NonBlankLinesOfJoin(lines: seq<string>)
    requires lines != []
    requires forall l <- lines :: '\n' !in l && Trim(l) != []
    ensures NonBlankLines(Join(lines, "\n")) == lines
  {
    LinesOfJoin(lines);
    KeepAll(lines);
  }

  lemma {:induction false} KeepAll(lines: seq<string>)
    requires forall l <- lines :: Trim(l) != []
    ensures KeepNonBlank(lines) == lines
    decreases |lines|
  {
    if lines != [] {
      KeepAll(lines[1..]);
    }
  }

  // ---------------------------------------------------------------------------
  // Records of one case

  /** The templates a generator of the given type picks for a story. */
  function Templates(kind: TestType, story: string, detailLevel: string): seq<Template> {
    match kind
    case Positive => PositiveTemplates(story, detailLevel)
    case Negative => NegativeTemplates(story)
    case Edge => EdgeTemplates(story)
  }

  /** The generator for one test type: it renders the templates its type picks
      for the story, so neither the format nor the index affects it. */
  function Generate(kind: TestType, story: string, testFormat: string, detailLevel: string,
                    index: int, includeSetup: string): (tests: seq<TestRecord>)
    ensures tests == RenderAll(Templates(kind, story, detailLevel), includeSetup)
    ensures forall r <- tests :: r.kind == kind
  {
    match kind
    case Positive => PositiveTests(story, testFormat, detailLevel, index, includeSetup)
    case Negative => NegativeTests(story, testFormat, detailLevel, index, includeSetup)
    case Edge => EdgeTests(story, testFormat, detailLevel, index, includeSetup)
  }

  /** The generator for one test type with everything but the index fixed. */
  function Round(kind: TestType, story: string, testFormat: string, detailLevel: string,
                 includeSetup: string): int -> seq<TestRecord>
  {
    i => Generate(kind, story, testFormat, detailLevel, i, includeSetup)
  }

  /** What `for (let i = 0; i < count; i++) tests.push(...gen(i))` appends: the
      outputs for indices 0 .. count-1, in order. */
  function Rounds<T>(gen: int -> seq<T>, count: int): (out: seq<T>)
    ensures count <= 0 ==> out == []
  {
    if count <= 0 then [] else Rounds(gen, count - 1) + gen(count - 1)
  }

  /** `n` copies of `xs` one after another (none when `n <= 0`). */
  function Repeat<T>(xs: seq<T>, n: int): (r: seq<T>)
    ensures |r| == (if n <= 0 then 0 else n * |xs|)
    ensures forall x <- r :: x in xs
  {
    if n <= 0 then [] else Repeat(xs, n - 1) + xs
  }

  /** Rounds of a generator that ignores its index are identical copies. */
  lemma {:induction false} RoundsOfConstant<T>(gen: int -> seq<T>, count: int)
    requires forall i :: gen(i) == gen(0)
    ensures Rounds(gen, count) == Repeat(gen(0), count)
    decreases if count <= 0 then 0 else count
  {
    if count > 0 {
      RoundsOfConstant(gen, count - 1);
    }
  }

  /** The index passed to a generator is never read. */
  lemma RoundIgnoresIndex(kind: TestType, story: string, testFormat: string, detailLevel: string,
                          includeSetup: string)
    ensures var gen := Round(kind, story, testFormat, detailLevel, includeSetup);
            forall i :: gen(i) == gen(0)
  {
    forall i ensures Generate(kind, story, testFormat, detailLevel, i, includeSetup)
                     == Generate(kind, story, testFormat, detailLevel, 0, includeSetup) {
    }
  }

  /** The records of one case given its three generators: `testCount` rounds
      of each enabled one, positive first, then negative, then edge. */
  function Assemble(positive: int -> seq<TestRecord>, negative: int -> seq<TestRecord>,
                    edge: int -> seq<TestRecord>,
                    includePositive: bool, includeNegative: bool, includeEdgeCases: bool,
                    testCount: int): (tests: seq<TestRecord>)
    ensures testCount <= 0 ==> tests == []
    ensures !includePositive && !includeNegative && !includeEdgeCases ==> tests == []
  {
    (if includePositive then Rounds(positive, testCount) else [])
    + (if includeNegative then Rounds(negative, testCount) else [])
    + (if includeEdgeCases then Rounds(edge, testCount) else [])
  }

  /** `testCase.tests` after the three loops. */
  function CaseTests(story: string, testFormat: string, detailLevel: string,
                     includePositive: bool, includeNegative: bool, includeEdgeCases: bool,
                     testCount: int, includeSetup: string): (tests: seq<TestRecord>)
    ensures testCount <= 0 ==> tests == []
    ensures !includePositive && !includeNegative && !includeEdgeCases ==> tests == []
  {
    Assemble(Round(Positive, story, testFormat, detailLevel, includeSetup),
             Round(Negative, story, testFormat, detailLevel, includeSetup),
             Round(Edge, story, testFormat, detailLevel, includeSetup),
             includePositive, includeNegative, includeEdgeCases, testCount)
  }

  /** With generators that ignore their index, the case holds identical copies. */
  lemma AssembleOfConstant(positive: int -> seq<TestRecord>, negative: int -> seq<TestRecord>,
                           edge: int -> seq<TestRecord>,
                           includePositive: bool, includeNegative: bool, includeEdgeCases: bool,
                           testCount: int)
    requires forall i :: positive(i) == positive(0)
    requires forall i :: negative(i) == negative(0)
    requires forall i :: edge(i) == edge(0)
    ensures Assemble(positive, negative, edge, includePositive, includeNegative, includeEdgeCases, testCount)
            == (if includePositive then Repeat(positive(0), testCount) else [])
             + (if includeNegative then Repeat(negative(0), testCount) else [])
             + (if includeEdgeCases then Repeat(edge(0), testCount) else [])
  {
    RoundsOfConstant(positive, testCount);
    RoundsOfConstant(negative, testCount);
    RoundsOfConstant(edge, testCount);
  }

  /** Rank of a test type in the order the three loops run. */
  function Rank(kind: TestType): nat {
    match kind
    case Positive => 0
    case Negative => 1
    case Edge => 2
  }

  /** Each enabled type contributes exactly `testCount` copies of its
      generator's output, in the order positive, negative, edge. */
  lemma CaseTestsAreCopies(story: string, testFormat: string, detailLevel: string,
                           includePositive: bool, includeNegative: bool, includeEdgeCases: bool,
                           testCount: int, includeSetup: string)
    ensures CaseTests(story, testFormat, detailLevel, includePositive, includeNegative,
                      includeEdgeCases, testCount, includeSetup)
            == (if includePositive then Repeat(Generate(Positive, story, testFormat, detailLevel, 0, includeSetup), testCount) else [])
             + (if includeNegative then Repeat(Generate(Negative, story, testFormat, detailLevel, 0, includeSetup), testCount) else [])
             + (if includeEdgeCases then Repeat(Generate(Edge, story, testFormat, detailLevel, 0, includeSetup), testCount) else [])
  {
    RoundIgnoresIndex(Positive, story, testFormat, detailLevel, includeSetup);
    RoundIgnoresIndex(Negative, story, testFormat, detailLevel, includeSetup);
    RoundIgnoresIndex(Edge, story, testFormat, detailLevel, includeSetup);
    var positive := Round(Positive, story, testFormat, detailLevel, includeSetup);
    var negative := Round(Negative, story, testFormat, detailLevel, includeSetup);
    var edge := Round(Edge, story, testFormat, detailLevel, includeSetup);
    AssembleOfConstant(positive, negative, edge, includePositive, includeNegative, includeEdgeCases, testCount);
  }

  /** All positive records come before all negative ones, which come before all
      edge ones. */
  lemma CaseTestsOrdered(story: string, testFormat: string, detailLevel: string,
                         includePositive: bool, includeNegative: bool, includeEdgeCases: bool,
                         testCount: int, includeSetup: string)
    ensures var tests := CaseTests(story, testFormat, detailLevel, includePositive,
                                   includeNegative, includeEdgeCases, testCount, includeSetup);
            forall i, j | 0 <= i < j < |tests| :: Rank(tests[i].kind) <= Rank(tests[j].kind)
  {
    CaseTestsAreCopies(story, testFormat, detailLevel, includePositive, includeNegative,
                       includeEdgeCases, testCount, includeSetup);
    var p := if includePositive then Repeat(Generate(Positive, story, testFormat, detailLevel, 0, includeSetup), testCount) else [];
    var n := if includeNegative then Repeat(Generate(Negative, story, testFormat, detailLevel, 0, includeSetup), testCount) else [];
    var e := if includeEdgeCases then Repeat(Generate(Edge, story, testFormat, detailLevel, 0, includeSetup), testCount) else [];
    OrderedBlocks(p, n, e);
  }

  /** Three blocks of one type each, in rank order, make a rank-ordered list. */
  lemma OrderedBlocks(p: seq<TestRecord>, n: seq<TestRecord>, e: seq<TestRecord>)
    requires forall r <- p :: r.kind == Positive
    requires forall r <- n :: r.kind == Negative
    requires forall r <- e :: r.kind == Edge
    ensures var tests := p + n + e;
            forall i, j | 0 <= i < j < |tests| :: Rank(tests[i].kind) <= Rank(tests[j].kind)
  {
    var tests := p + n + e;
    forall i | 0 <= i < |tests|
      ensures Rank(tests[i].kind) == (if i < |p| then 0 else if i < |p| + |n| then 1 else 2)
    {
      if i < |p| {
        assert tests[i] == p[i];
      } else if i < |p| + |n| {
        assert tests[i] == n[i - |p|];
      } else {
        assert tests[i] == e[i - |p| - |n|];
      }
    }
  }

  // ---------------------------------------------------------------------------
  // generateTestCases

  /** One of the three `for (let i = 0; i < testCount; i++)` loops: it pushes
      the output of `gen(i)`, the generator called with index `i`, onto `tests`. */
  method PushRounds(tests: seq<TestRecord>, gen: int -> seq<TestRecord>, testCount: int)
    returns (out: seq<TestRecord>)
    ensures out == tests + Rounds(gen, testCount)
  {
    out := tests;
    var i := 0;
    while i < testCount
      invariant 0 <= i && (i <= testCount || i == 0)
      invariant out == tests + Rounds(gen, i)
    {
      out := out + gen(i);
      i := i + 1;
    }
  }

  /** The tests of one case: the enabled loops, positive, negative, edge,
      each pushing onto the same list. */
  method CaseRecords(positive: int -> seq<TestRecord>, negative: int -> seq<TestRecord>,
                     edge: int -> seq<TestRecord>,
                     includePositive: bool, includeNegative: bool, includeEdgeCases: bool,
                     testCount: int)
    returns (tests: seq<TestRecord>)
    ensures tests == Assemble(positive, negative, edge, includePositive, includeNegative,
                              includeEdgeCases, testCount)
  {
    tests := [];
    if includePositive {
      tests := PushRounds(tests, positive, testCount);
    }
    assert tests == (if includePositive then Rounds(positive, testCount) else []);
    var afterPositive := tests;
    if includeNegative {
      tests := PushRounds(tests, negative, testCount);
    }
    assert tests == afterPositive + (if includeNegative then Rounds(negative, testCount) else []);
    var afterNegative := tests;
    if includeEdgeCases {
      tests := PushRounds(tests, edge, testCount);
    }
    assert tests == afterNegative + (if includeEdgeCases then Rounds(edge, testCount) else []);
  }

  /** The test case built for the line numbered `id`. */
  function MakeCase(id: nat, line: string, testFormat: string, detailLevel: string,
                    includePositive: bool, includeNegative: bool, includeEdgeCases: bool,
                    testCount: int, includeSetup: string): (c: TestCase)
  {
    TestCase(id, ExtractTitle(line), line,
             CaseTests(line, testFormat, detailLevel, includePositive, includeNegative,
                       includeEdgeCases, testCount, includeSetup))
  }

  /** `generateTestCases(stories, testFormat, detailLevel, includePositive,
      includeNegative, includeEdgeCases, testCount, includeSetup)`: the case for
      the `k`-th non-blank line has id `k + 1`, that line's title, the line itself
      as its description and the records of the enabled loops. */
  method GenerateTestCases(stories: string, testFormat: string, detailLevel: string,
                           includePositive: bool, includeNegative: bool, includeEdgeCases: bool,
                           testCount: int, includeSetup: string)
    returns (testCases: seq<TestCase>)
    ensures |testCases| == |NonBlankLines(stories)|
    ensures forall k | 0 <= k < |testCases| ::
              testCases[k] == MakeCase(k + 1, NonBlankLines(stories)[k], testFormat, detailLevel,
                                       includePositive, includeNegative, includeEdgeCases,
                                       testCount, includeSetup)
  {
    var lines := NonBlankLines(stories);
    testCases := [];
    var testId: nat := 1;
    for j := 0 to |lines|
      invariant |testCases| == j && testId == j + 1
      invariant forall k | 0 <= k < j ::
                  testCases[k] == MakeCase(k + 1, lines[k], testFormat, detailLevel, includePositive,
                                           includeNegative, includeEdgeCases, testCount, includeSetup)
    {
      var line := lines[j];
      var id := testId;
      testId := testId + 1;
      var tests := CaseRecords(Round(Positive, line, testFormat, detailLevel, includeSetup),
                               Round(Negative, line, testFormat, detailLevel, includeSetup),
                               Round(Edge, line, testFormat, detailLevel, includeSetup),
                               includePositive, includeNegative, includeEdgeCases, testCount);
      var testCase := TestCase(id, ExtractTitle(line), line, tests);
      assert testCase == MakeCase(j + 1, lines[j], testFormat, detailLevel, includePositive,
                                  includeNegative, includeEdgeCases, testCount, includeSetup);
      ghost var before := testCases;
      testCases := testCases + [testCase];
      forall k | 0 <= k < j + 1
        ensures testCases[k] == MakeCase(k + 1, lines[k], testFormat, detailLevel, includePositive,
                                         includeNegative, includeEdgeCases, testCount, includeSetup)
      {
        if k < j {
          assert testCases[k] == before[k];
        }
      }
    }
  }
}
