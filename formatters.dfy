/** The three HTML renderings of a test case (script.js,
    `generateStandardFormat`, `generateDetailedFormat`, `generateSimpleFormat`).
    Each line break of a template literal, with the indentation that follows
    it, is written as `Break`. */
module Formatters {
  import opened Text
  import opened Records

  const Break := "\n"

  // ---------------------------------------------------------------------------
  // Pieces and where they occur

  /** A piece of `a` or of `b` is a piece of `a + b`, at the matching offset. */
  lemma OccursInConcat(a: string, b: string, sub: string, k: int)
    ensures OccursAt(a, sub, k) ==> OccursAt(a + b, sub, k)
    ensures OccursAt(b, sub, k) ==> OccursAt(a + b, sub, |a| + k)
  {
    if OccursAt(a, sub, k) {
      assert (a + b)[k..k + |sub|] == a[k..k + |sub|];
    }
    if OccursAt(b, sub, k) {
      assert (a + b)[|a| + k..|a| + k + |sub|] == b[k..k + |sub|];
    }
  }

  /** A piece of the second or fourth part is a piece of the whole. */
  lemma ContainsInParts(a: string, b: string, c: string, d: string, e: string, sub: string)
    ensures Contains(b, sub) || Contains(d, sub) ==> Contains(a + b + c + d + e, sub)
  {
    ContainsInConcat(a, b, sub);
    ContainsInConcat(a + b, c, sub);
    ContainsInConcat(a + b + c, d, sub);
    ContainsInConcat(a + b + c + d, e, sub);
  }

  /** Equal strings with the same first and last parts have the same middle. */
  lemma CancelAround(a: string, b: string, b': string, c: string)
    requires a + b + c == a + b' + c
    ensures b == b'
  {
    var s := a + b + c;
    assert |b| == |b'|;
    assert b == s[|a|..|a| + |b|];
    assert b' == (a + b' + c)[|a|..|a| + |b'|];
  }

  /** The middle of three parts occurs right after the first. */
  lemma OccursBetween(a: string, b: string, c: string)
    ensures OccursAt(a + b + c, b, |a|)
  {
    OccursInConcat(a, b, b, 0);
    OccursInConcat(a + b, c, b, |a|);
  }

  lemma ContainsInConcat(a: string, b: string, sub: string)
    ensures Contains(a, sub) || Contains(b, sub) ==> Contains(a + b, sub)
  {
    if Contains(a, sub) {
      var k :| 0 <= k <= |a| - |sub| && OccursAt(a, sub, k);
      OccursInConcat(a, b, sub, k);
    } else if Contains(b, sub) {
      var k :| 0 <= k <= |b| - |sub| && OccursAt(b, sub, k);
      OccursInConcat(a, b, sub, k);
    }
  }

  // ---------------------------------------------------------------------------
  // forEach, and map followed by join('')

  /** The pieces `f(ctx, 0, xs[0])`, `f(ctx, 1, xs[1])`, ... one after another:
      what `xs.forEach((x, i) => html += ...)` appends, and what
      `xs.map((x, i) => ...).join('')` returns. `ctx` is the value the callback
      reads besides the element and its index (the test case in the detailed
      format, nothing elsewhere). */
  function ForEach<C, T>(ctx: C, xs: seq<T>, f: (C, nat, T) -> string): string
    decreases |xs|
  {
    if xs == [] then "" else ForEach(ctx, xs[..|xs| - 1], f) + f(ctx, |xs| - 1, xs[|xs| - 1])
  }

  /** The piece for element `i` sits right after the pieces for the elements before it. */
  lemma {:induction false} ForEachAt<C, T>(ctx: C, xs: seq<T>, f: (C, nat, T) -> string, i: nat)
    requires i < |xs|
    ensures OccursAt(ForEach(ctx, xs, f), f(ctx, i, xs[i]), |ForEach(ctx, xs[..i], f)|)
    decreases |xs|
  {
    var n := |xs| - 1;
    var init := xs[..n];
    if i == n {
      assert xs[..i] == init;
      OccursInConcat(ForEach(ctx, init, f), f(ctx, n, xs[n]), f(ctx, n, xs[n]), 0);
    } else {
      ForEachAt(ctx, init, f, i);
      assert init[..i] == xs[..i];
      OccursInConcat(ForEach(ctx, init, f), f(ctx, n, xs[n]), f(ctx, i, xs[i]),
                     |ForEach(ctx, xs[..i], f)|);
    }
  }

  /** The result is empty exactly when every piece is. */
  lemma {:induction false} ForEachEmpty<C, T>(ctx: C, xs: seq<T>, f: (C, nat, T) -> string)
    ensures ForEach(ctx, xs, f) == [] <==> forall i | 0 <= i < |xs| :: f(ctx, i, xs[i]) == []
    decreases |xs|
  {
    if xs != [] {
      var n := |xs| - 1;
      ForEachEmpty(ctx, xs[..n], f);
      assert forall i | 0 <= i < n :: xs[..n][i] == xs[i];
    }
  }

  /** Lists whose pieces agree position by position give the same result. */
  lemma {:induction false} ForEachCongruent<C, T, U>(ctx: C, xs: seq<T>, f: (C, nat, T) -> string,
                                                     ctx': C, ys: seq<U>, g: (C, nat, U) -> string)
    requires |xs| == |ys|
    requires forall i | 0 <= i < |xs| :: f(ctx, i, xs[i]) == g(ctx', i, ys[i])
    ensures ForEach(ctx, xs, f) == ForEach(ctx', ys, g)
    decreases |xs|
  {
    if xs != [] {
      var n := |xs| - 1;
      assert forall i | 0 <= i < n :: xs[..n][i] == xs[i] && ys[..n][i] == ys[i];
      ForEachCongruent(ctx, xs[..n], f, ctx', ys[..n], g);
    }
  }

  /** `xs.forEach((x, i) => { html += ...; })`. */
  method AppendEach<C, T>(html: string, ctx: C, xs: seq<T>, f: (C, nat, T) -> string)
    returns (out: string)
    ensures out == html + ForEach(ctx, xs, f)
  {
    out := html;
    for i := 0 to |xs|
      invariant out == html + ForEach(ctx, xs[..i], f)
    {
      assert xs[..i + 1][..i] == xs[..i];
      out := out + f(ctx, i, xs[i]);
    }
    assert xs[..|xs|] == xs;
  }

  /** A rendered test case: a header, one piece per test, and the copy button. */
  function Page<C, T>(header: string, ctx: C, xs: seq<T>, f: (C, nat, T) -> string,
                      footer: string): string {
    header + ForEach(ctx, xs, f) + footer
  }

  /** The piece of test `i` follows the header and the pieces of the tests before it. */
  lemma PageAt<C, T>(header: string, ctx: C, xs: seq<T>, f: (C, nat, T) -> string,
                     footer: string, i: nat)
    requires i < |xs|
    ensures OccursAt(Page(header, ctx, xs, f, footer), f(ctx, i, xs[i]),
                     |header| + |ForEach(ctx, xs[..i], f)|)
  {
    var off := |ForEach(ctx, xs[..i], f)|;
    ForEachAt(ctx, xs, f, i);
    OccursInConcat(header, ForEach(ctx, xs, f), f(ctx, i, xs[i]), off);
    OccursInConcat(header + ForEach(ctx, xs, f), footer, f(ctx, i, xs[i]), |header| + off);
  }

  // ---------------------------------------------------------------------------
  // Shared pieces

  /** `<span class="test-type ${test.type}">${test.type}</span>`. */
  function TypeBadge(kind: TestType): string {
    "<span class=\"test-type " + Tag(kind) + "\">" + Tag(kind) + "</span>"
  }

  /** `<div class="test-step">${text}</div>`. */
  function StepDiv(text: string): (r: string)
    ensures OccursAt(r, text, |"<div class=\"test-step\">"|)
  {
    "<div class=\"test-step\">" + text + "</div>"
  }

  function StepItem(u: (), i: nat, text: string): string {
    StepDiv(text)
  }

  /** `items.map(item => `<div class="test-step">${item}</div>`).join('')`. */
  function StepDivs(items: seq<string>): (r: string)
    ensures r == [] <==> items == []
  {
    ForEachEmpty((), items, StepItem);
    assert items != [] ==> StepItem((), 0, items[0]) != [];
    ForEach((), items, StepItem)
  }

  /** Each item gets its own step line, in order. */
  lemma StepDivsShowEach(items: seq<string>, k: nat)
    requires k < |items|
    ensures OccursAt(StepDivs(items), StepDiv(items[k]), |StepDivs(items[..k])|)
  {
    ForEachAt((), items, StepItem, k);
  }

  /** `<button class="copy-btn">${label}</button>`. */
  function CopyButton(caption: string): string {
    "<button class=\"copy-btn\">" + caption + "</button>"
  }

  // ---------------------------------------------------------------------------
  // generateStandardFormat

  /** `<strong>${heading}:</strong> ${items.join('; ')}`. */
  function MetaLine(heading: string, items: seq<string>): string {
    "<strong>" + heading + ":</strong> " + Join(items, "; ")
  }

  /** `${items.length > 0 ? `...${MetaLine}...` : ''}`: a setup or teardown
      block, left out when the list is empty. */
  function MetaBlock(heading: string, items: seq<string>): (r: string)
    ensures r == [] <==> items == []
    ensures items != [] ==> Contains(r, MetaLine(heading, items))
  {
    if items == [] then ""
    else
      var pre := Break + "<div class=\"test-meta\">" + Break + "<div class=\"meta-item\">";
      var post := "</div>" + Break + "</div>" + Break;
      var r := pre + MetaLine(heading, items) + post;
      ContainsInParts(pre, MetaLine(heading, items), post, "", "", MetaLine(heading, items));
      assert OccursAt(MetaLine(heading, items), MetaLine(heading, items), 0);
      assert r == pre + MetaLine(heading, items) + post + "" + "";
      r
  }

  /** A scenario of the standard format up to its setup block: name, type,
      description, steps and expected result. */
  function StandardTop(t: TestRecord): string {
    Break + "<div class=\"test-scenario\">" + Break
    + "<p><span class=\"test-id\">" + t.name + "</span> " + TypeBadge(t.kind) + "</p>" + Break
    + "<p><strong>Description:</strong> " + t.description + "</p>" + Break
    + Break
    + "<div class=\"test-details\">" + Break
    + "<p><strong>Test Steps:</strong></p>" + Break
    + StepDivs(t.steps) + Break
    + "</div>" + Break
    + Break
    + "<p><strong>Expected Result:</strong> " + t.expected + "</p>" + Break
    + Break
  }

  /** One scenario of the standard format. */
  function StandardScenario(t: TestRecord): string {
    StandardTop(t) + MetaBlock("Setup", t.setup) + (Break + Break)
    + MetaBlock("Teardown", t.teardown) + (Break + "</div>" + Break)
  }

  function StandardItem(u: (), i: nat, t: TestRecord): string {
    StandardScenario(t)
  }

  function StandardHeader(tc: TestCase): string {
    "<h3>Test Case " + NatToString(tc.id) + ": " + tc.title + "</h3>"
    + "<p><strong>User Story:</strong> " + tc.description + "</p>"
  }

  /** The page `generateStandardFormat` returns. */
  function StandardFormat(tc: TestCase): string {
    Page(StandardHeader(tc), (), tc.tests, StandardItem, CopyButton("Copy Test Case"))
  }

  /** `generateStandardFormat(testCase)`. */
  method GenerateStandardFormat(testCase: TestCase) returns (html: string)
    ensures html == StandardFormat(testCase)
  {
    html := "<h3>Test Case " + NatToString(testCase.id) + ": " + testCase.title + "</h3>";
    html := html + "<p><strong>User Story:</strong> " + testCase.description + "</p>";
    html := AppendEach(html, (), testCase.tests, StandardItem);
    html := html + CopyButton("Copy Test Case");
  }

  /** The page holds the scenario of every test, in order, after the header. */
  lemma StandardScenarioAt(tc: TestCase, i: nat)
    requires i < |tc.tests|
    ensures OccursAt(StandardFormat(tc), StandardScenario(tc.tests[i]),
                     |StandardHeader(tc)| + |ForEach((), tc.tests[..i], StandardItem)|)
  {
    PageAt(StandardHeader(tc), (), tc.tests, StandardItem, CopyButton("Copy Test Case"), i);
  }

  /** A test with setup steps shows them joined with "; " under "Setup:". */
  lemma StandardSetupShown(t: TestRecord)
    requires t.setup != []
    ensures Contains(StandardScenario(t), MetaLine("Setup", t.setup))
  {
    ContainsInParts(StandardTop(t), MetaBlock("Setup", t.setup), Break + Break,
                    MetaBlock("Teardown", t.teardown), Break + "</div>" + Break,
                    MetaLine("Setup", t.setup));
  }

  /** A test with teardown steps shows them joined with "; " under "Teardown:". */
  lemma StandardTeardownShown(t: TestRecord)
    requires t.teardown != []
    ensures Contains(StandardScenario(t), MetaLine("Teardown", t.teardown))
  {
    ContainsInParts(StandardTop(t), MetaBlock("Setup", t.setup), Break + Break,
                    MetaBlock("Teardown", t.teardown), Break + "</div>" + Break,
                    MetaLine("Teardown", t.teardown));
  }

  /** `${testCase.id}.${idx + 1}`: the label of the scenario at position `idx`. */
  function ScenarioLabel(id: nat, idx: nat): string {
    NatToString(id) + "." + NatToString(idx + 1)
  }

  /** Two digit strings each followed by a dot split a string at the same place. */
  lemma DotSplit(a: string, b: string, c: string, d: string)
    requires forall i | 0 <= i < |a| :: a[i] != '.'
    requires forall i | 0 <= i < |c| :: c[i] != '.'
    requires a + "." + b == c + "." + d
    ensures a == c && b == d
  {
    var s := a + "." + b;
    assert forall i | 0 <= i < |a| :: s[i] == a[i];
    assert s[|a|] == '.';
    assert forall i | 0 <= i < |c| :: s[i] == c[i];
    assert s[|c|] == '.';
    assert |a| == |c|;
    assert a == s[..|a|] && c == s[..|c|];
    assert b == s[|a| + 1..] && d == s[|c| + 1..];
  }

  /** Scenario labels tell apart both the case and the position in it. */
  lemma ScenarioLabelInjective(id: nat, idx: nat, id': nat, idx': nat)
    ensures ScenarioLabel(id, idx) == ScenarioLabel(id', idx') <==> id == id' && idx == idx'
  {
    if ScenarioLabel(id, idx) == ScenarioLabel(id', idx') {
      DotSplit(NatToString(id), NatToString(idx + 1), NatToString(id'), NatToString(idx' + 1));
      NatToStringInjective(id, id');
      NatToStringInjective(idx + 1, idx' + 1);
    }
  }

  /** `<div class="test-step"><strong>Step ${stepIdx + 1}:</strong> ${step}</div>`. */
  function NumberedStep(u: (), stepIdx: nat, step: string): (r: string)
    ensures OccursAt(r, StepLabel(stepIdx) + step, |"<div class=\"test-step\">"|)
  {
    var pre := "<div class=\"test-step\">";
    var r := pre + (StepLabel(stepIdx) + step) + "</div>";
    OccursInConcat(pre + (StepLabel(stepIdx) + step), "</div>", StepLabel(stepIdx) + step, |pre|);
    OccursInConcat(pre, StepLabel(stepIdx) + step, StepLabel(stepIdx) + step, 0);
    r
  }

  /** `<strong>Step ${stepIdx + 1}:</strong> `. */
  function StepLabel(stepIdx: nat): string {
    "<strong>Step " + NatToString(stepIdx + 1) + ":</strong> "
  }

  /** The first step is labelled "Step 1". */
  lemma FirstStepLabel()
    ensures StepLabel(0) == "<strong>Step 1:</strong> "
  {
    assert NatToString(1) == "1";
  }

  /** No two positions share a step label. */
  lemma StepLabelInjective(stepIdx: nat, stepIdx': nat)
    ensures StepLabel(stepIdx) == StepLabel(stepIdx') <==> stepIdx == stepIdx'
  {
    if StepLabel(stepIdx) == StepLabel(stepIdx') {
      CancelAround("<strong>Step ", NatToString(stepIdx + 1), NatToString(stepIdx' + 1), ":</strong> ");
      NatToStringInjective(stepIdx + 1, stepIdx' + 1);
    }
  }

  /** The test procedure: every step, numbered from 1. */
  lemma ProcedureShowsEach(steps: seq<string>, k: nat)
    requires k < |steps|
    ensures OccursAt(ForEach((), steps, NumberedStep), NumberedStep((), k, steps[k]),
                     |ForEach((), steps[..k], NumberedStep)|)
    ensures Contains(NumberedStep((), k, steps[k]), StepLabel(k) + steps[k])
  {
    ForEachAt((), steps, NumberedStep, k);
  }

  /** The precondition lines: the setup steps, or a single "None". */
  function Preconditions(setup: seq<string>): (r: string)
    ensures r != []
    ensures setup == [] ==> r == StepDiv("None")
    ensures setup != [] ==> r == StepDivs(setup)
  {
    if |setup| > 0 then StepDivs(setup) else StepDiv("None")
  }

  /** The postconditions block, left out when there are no teardown steps. */
  function Postconditions(teardown: seq<string>): (r: string)
    ensures r == [] <==> teardown == []
    ensures teardown != [] ==> Contains(r, StepDivs(teardown))
  {
    if |teardown| > 0 then
      var pre := Break + "<div class=\"test-details\">" + Break
                 + "<p><strong>Postconditions:</strong></p>" + Break;
      var r := pre + StepDivs(teardown) + (Break + "</div>" + Break);
      OccursInConcat(pre + StepDivs(teardown), Break + "</div>" + Break, StepDivs(teardown), |pre|);
      OccursInConcat(pre, StepDivs(teardown), StepDivs(teardown), 0);
      r
    else ""
  }

  /** The text of a detailed scenario before its label. */
  const ScenarioLead := Break + "<div class=\"test-scenario\">" + Break + "<p><span class=\"test-id\">Scenario "

  /** A detailed scenario after its label: name, type, objective,
      preconditions, numbered steps, expected outcome and postconditions. */
  function DetailedRest(t: TestRecord): string {
    DetailedTop(t) + Preconditions(t.setup) + ProcedureHead
    + ForEach((), t.steps, NumberedStep) + DetailedBottom(t)
  }

  /** Name, type badge and objective, up to the preconditions heading. */
  function DetailedTop(t: TestRecord): string {
    ": " + t.name + "</span> " + TypeBadge(t.kind) + "</p>" + Break
    + "<p><strong>Objective:</strong> " + t.description + "</p>" + Break
    + Break
    + "<div class=\"test-details\">" + Break
    + "<p><strong>Preconditions:</strong></p>" + Break
  }

  /** Between the preconditions and the numbered steps. */
  const ProcedureHead := Break + "</div>" + Break
    + Break
    + "<div class=\"test-details\">" + Break
    + "<p><strong>Test Procedure:</strong></p>" + Break

  /** The expected outcome, the postconditions and the closing tag. */
  function DetailedBottom(t: TestRecord): string {
    ExpectedPart(t) + Postconditions(t.teardown) + (Break + "</div>" + Break)
  }

  function ExpectedPart(t: TestRecord): string {
    Break + "</div>" + Break
    + Break
    + "<p><strong>Expected Outcome:</strong> " + t.expected + "</p>" + Break
    + Break
  }

  /** One scenario of the detailed format, for the test at position `idx` of case `id`. */
  function DetailedScenario(id: nat, idx: nat, t: TestRecord): string {
    ScenarioLead + ScenarioLabel(id, idx) + DetailedRest(t)
  }

  /** The scenario of the test at position `idx` of `tc`. */
  function DetailedItem(tc: TestCase, idx: nat, t: TestRecord): string {
    DetailedScenario(tc.id, idx, t)
  }

  function DetailedHeader(tc: TestCase): string {
    "<h3>Test Scenario " + NatToString(tc.id) + ": " + tc.title + "</h3>"
    + "<p><strong>Related User Story:</strong> " + tc.description + "</p>"
  }

  /** The page `generateDetailedFormat` returns. */
  function DetailedFormat(tc: TestCase): string {
    Page(DetailedHeader(tc), tc, tc.tests, DetailedItem, CopyButton("Copy Test Scenario"))
  }

  /** `generateDetailedFormat(testCase)`. */
  method GenerateDetailedFormat(testCase: TestCase) returns (html: string)
    ensures html == DetailedFormat(testCase)
  {
    html := "<h3>Test Scenario " + NatToString(testCase.id) + ": " + testCase.title + "</h3>";
    html := html + "<p><strong>Related User Story:</strong> " + testCase.description + "</p>";
    html := AppendEach(html, testCase, testCase.tests, DetailedItem);
    html := html + CopyButton("Copy Test Scenario");
  }

  /** The page holds the scenario of every test, in order, after the header. */
  lemma DetailedScenarioAt(tc: TestCase, i: nat)
    requires i < |tc.tests|
    ensures OccursAt(DetailedFormat(tc), DetailedScenario(tc.id, i, tc.tests[i]),
                     |DetailedHeader(tc)| + |ForEach(tc, tc.tests[..i], DetailedItem)|)
  {
    PageAt(DetailedHeader(tc), tc, tc.tests, DetailedItem, CopyButton("Copy Test Scenario"), i);
  }

  /** Each scenario is labelled with the case's id and its own position counted from 1. */
  lemma DetailedLabelShown(id: nat, idx: nat, t: TestRecord)
    ensures OccursAt(DetailedScenario(id, idx, t), ScenarioLabel(id, idx), |ScenarioLead|)
  {
    OccursBetween(ScenarioLead, ScenarioLabel(id, idx), DetailedRest(t));
  }

  /** What the rest of a scenario shows, the scenario shows. */
  lemma RestInScenario(id: nat, idx: nat, t: TestRecord, sub: string)
    requires Contains(DetailedRest(t), sub)
    ensures Contains(DetailedScenario(id, idx, t), sub)
  {
    ContainsInConcat(ScenarioLead + ScenarioLabel(id, idx), DetailedRest(t), sub);
  }

  /** Each scenario shows its preconditions: the setup steps, or "None". */
  lemma DetailedPreconditionsShown(id: nat, idx: nat, t: TestRecord)
    ensures Contains(DetailedScenario(id, idx, t), Preconditions(t.setup))
  {
    var pre := Preconditions(t.setup);
    assert OccursAt(pre, pre, 0);
    ContainsInParts(DetailedTop(t), pre, ProcedureHead, ForEach((), t.steps, NumberedStep),
                    DetailedBottom(t), pre);
    RestInScenario(id, idx, t, pre);
  }

  /** Each scenario shows its numbered procedure, which holds every step. */
  lemma DetailedProcedureShown(id: nat, idx: nat, t: TestRecord)
    ensures Contains(DetailedScenario(id, idx, t), ForEach((), t.steps, NumberedStep))
  {
    var proc := ForEach((), t.steps, NumberedStep);
    var front := DetailedTop(t) + Preconditions(t.setup) + ProcedureHead;
    OccursBetween(front, proc, DetailedBottom(t));
    assert Contains(DetailedRest(t), proc);
    RestInScenario(id, idx, t, proc);
  }

  /** A scenario whose test has teardown steps shows them as postconditions. */
  lemma DetailedPostconditionsShown(id: nat, idx: nat, t: TestRecord)
    requires t.teardown != []
    ensures Contains(DetailedScenario(id, idx, t), StepDivs(t.teardown))
  {
    var post := Postconditions(t.teardown);
    var bottom := DetailedBottom(t);
    OccursBetween(ExpectedPart(t), post, Break + "</div>" + Break);
    assert Contains(bottom, post);
    ContainsTransitive(bottom, post, StepDivs(t.teardown));
    var front := DetailedTop(t) + Preconditions(t.setup) + ProcedureHead + ForEach((), t.steps, NumberedStep);
    ContainsInConcat(front, bottom, StepDivs(t.teardown));
    RestInScenario(id, idx, t, StepDivs(t.teardown));
  }

  // ---------------------------------------------------------------------------
  // generateSimpleFormat

  /** One checklist entry: the test's name, type and description only. */
  function SimpleScenario(t: TestRecord): string {
    Break + "<div class=\"test-scenario\">" + Break
    + "<p><input type=\"checkbox\"> <span class=\"test-id\">" + t.name + "</span> "
    + TypeBadge(t.kind) + "</p>" + Break
    + "<p>" + t.description + "</p>" + Break
    + "</div>" + Break
  }

  function SimpleItem(u: (), i: nat, t: TestRecord): string {
    SimpleScenario(t)
  }

  function SimpleHeader(tc: TestCase): string {
    "<h3>" + tc.title + " - Test Checklist</h3>"
    + "<p><strong>Based on:</strong> " + tc.description + "</p>"
  }

  /** The page `generateSimpleFormat` returns. */
  function SimpleFormat(tc: TestCase): string {
    Page(SimpleHeader(tc), (), tc.tests, SimpleItem, CopyButton("Copy Checklist"))
  }

  /** `generateSimpleFormat(testCase)`. */
  method GenerateSimpleFormat(testCase: TestCase) returns (html: string)
    ensures html == SimpleFormat(testCase)
  {
    html := "<h3>" + testCase.title + " - Test Checklist</h3>";
    html := html + "<p><strong>Based on:</strong> " + testCase.description + "</p>";
    html := AppendEach(html, (), testCase.tests, SimpleItem);
    html := html + CopyButton("Copy Checklist");
  }

  /** The checklist shows only the title, the story and each test's name, type
      and description: cases that agree on those render alike, whatever their
      ids, steps, expected results, setup and teardown. */
  lemma SimpleIgnoresDetails(tc: TestCase, tc': TestCase)
    requires tc.title == tc'.title && tc.description == tc'.description
    requires |tc.tests| == |tc'.tests|
    requires forall i | 0 <= i < |tc.tests| ::
               tc.tests[i].name == tc'.tests[i].name && tc.tests[i].kind == tc'.tests[i].kind
               && tc.tests[i].description == tc'.tests[i].description
    ensures SimpleFormat(tc) == SimpleFormat(tc')
  {
    ForEachCongruent((), tc.tests, SimpleItem, (), tc'.tests, SimpleItem);
  }

  /** The checklist holds the entry of every test, in order, after the header. */
  lemma SimpleScenarioAt(tc: TestCase, i: nat)
    requires i < |tc.tests|
    ensures OccursAt(SimpleFormat(tc), SimpleScenario(tc.tests[i]),
                     |SimpleHeader(tc)| + |ForEach((), tc.tests[..i], SimpleItem)|)
  {
    PageAt(SimpleHeader(tc), (), tc.tests, SimpleItem, CopyButton("Copy Checklist"), i);
  }
}
