# User-story test-case generator, modelled in Dafny

The generator takes free text, one user story per line, and a small
configuration. From these it builds test cases and renders them as HTML.

- **Test cases.** Each non-blank line becomes one test case with:
  - an id numbered from 1;
  - a short title taken from the story;
  - the story itself as description;
  - a list of test records.
- **Records.** Three generators pick records from fixed templates by looking
  for keywords in the lower-cased story:
  - positive: login, add + cart, profile, or a generic record;
  - negative: login (plus a lockout record when an "attempt" is mentioned),
    add + cart, or a generic record;
  - edge: login, add + cart, profile, and nothing when no keyword matches.
- **Setup and teardown.** These lists are filled only when the setup option
  is exactly `yes`.
- **Repetition.** Each enabled generator runs `testCount` times, positive
  first, then negative, then edge cases.
- **Rendering.** A case is rendered in a standard, a detailed or a simple
  checklist format.

The model is split into modules that follow the program:

- `text.dfy` (`Text`): the JavaScript string operations the program relies
  on.
  - `trim`, with the exact ECMAScript whitespace set.
  - `toLowerCase` on ASCII.
  - `includes` and `indexOf`.
  - `split` and `join`.
  - The decimal rendering of a number.
- `title.dfy` (`Title`): `extractTestCaseTitle`, including the regular
  expression `^As a [^,]+?, I want to `.
- `records.dfy` (`Records`): the record, case and type definitions, and the
  twelve record templates with their exact texts.
- `generators.dfy` (`Generators`): the three record generators.
- `assembler.dfy` (`Assembler`): `generateTestCases`. It is a method with the
  source's loops, proved equal to a specification function. Lemmas describe
  that function.
- `formatters.dfy` (`Formatters`): the three HTML formats. Each is a method
  whose `forEach` loop appends to `html`, proved equal to a specification
  function. Lemmas describe those functions.

Two details of the code shape the model:

- The standard format does not number its steps (`script.js:430`). The
  detailed format numbers them (`script.js:475`).
- The role in `As a <role>, I want to` must be non-empty and free of commas,
  as the pattern `[^,]+?` demands (`script.js:89`).

## Model

| member | source | states |
|---|---|---|
| Text.Trim | script.js:44 | the result is the input with a whitespace prefix and a whitespace suffix cut off, it neither starts nor ends with whitespace, and it is never longer |
| Text.TrimEmptyIff | script.js:44 | a line trims to the empty string exactly when all of its characters are whitespace |
| Text.Lower | script.js:105 | `toLowerCase` keeps the length and lower-cases each character on its own |
| Text.IndexOf | script.js:88 | the index found is an occurrence and no earlier index is one; none is found only when there is no occurrence |
| Text.ContainsIndexOf | script.js:88 | `includes` holds exactly when `indexOf` finds an occurrence |
| Text.Split | script.js:89 | joining the parts with the separator gives back the input; no part contains the separator; the first part is a prefix of the input |
| Text.SplitHead | script.js:88-94 | there is a second part exactly when the separator occurs, and without one the only part is the input; the first part ends exactly at the first occurrence (`indexOf`) |
| Text.SplitSecond | script.js:93 | the second part runs from the end of the first occurrence to the next occurrence, or to the end of the input when there is none |
| Text.NextOrEnd | script.js:93 | the end of a piece starting at `from` is an occurrence of the separator, or the end of the input, and no occurrence starts between `from` and it |
| Text.SplitJoin | script.js:44 | splitting on a character that no part contains undoes joining with it |
| Text.NatToString | script.js:419 | the decimal rendering of an id is non-empty, all digits, and has no leading zero |
| Text.NatToStringRoundTrip | script.js:462 | reading the digits back gives the number |
| Text.NatToStringInjective | script.js:462 | different numbers are rendered differently |
| Title.RolePrefixEnd | script.js:89 | the pattern `^As a [^,]+?, I want to ` matches exactly when a position is returned, and that position is the comma that ends the role |
| Title.RoleEndIsFirstComma | script.js:89 | the lazy role can only end at the first comma after `As a ` |
| Title.StripRolePrefix | script.js:89 | `replace` of the pattern leaves a suffix of the input |
| Title.StripRolePrefixMatch | script.js:89 | when the pattern matches, what is removed is exactly `As a <role>, I want to `; otherwise nothing is removed |
| Title.PurposeTitle | script.js:88-90 | the " so that " branch yields a trimmed piece of the story, shorter than it, without " so that "; the part it starts from is the story up to the first " so that " |
| Title.WantTitle | script.js:92-94 | the " I want to " branch yields a trimmed piece of the story, shorter than it, without " I want to "; the part it trims runs from the end of the first " I want to " to the next one or to the end |
| Title.ExtractTitle | script.js:86-97 | the title is the story itself exactly when neither phrase occurs; it is always a piece of the story; with " so that " it is the story up to the first " so that ", role prefix removed, trimmed; otherwise with " I want to " it is the trimmed text between the first and the second " I want to " (or the end); in both branches it is trimmed and free of the phrase it was cut at |
| Title.StripCanonical | script.js:89 | `As a <role>, I want to <goal>` with a comma-free role loses exactly the prefix |
| Title.CanonicalStoryTitle | script.js:88-90 | the title of `As a <role>, I want to <goal> so that <benefit>` is the goal |
| Title.WantOnlyStoryTitle | script.js:92-94 | without " so that ", the title is the trimmed text after the only " I want to " |
| Records.Tag | script.js:102 | the type tag is one of "positive", "negative", "edge" |
| Records.TagInjective | script.js:232 | different record types get different tags |
| Records.IfYes | script.js:119-126 | `includeSetup === 'yes' ? list : []` is empty whenever the option is not `yes` |
| Records.Render | script.js:106-127 | a template's record has the template's type; its setup and teardown are the template's lists when the option is `yes`, and empty otherwise |
| Records.SetupEmptyIff | script.js:335 | every template has setup steps except the empty-credentials edge case |
| Records.TeardownEmptyIff | script.js:290-353 | every template has teardown steps except the invalid-item, empty-credentials and out-of-stock ones |
| Records.RenderAll | script.js:100-227 | rendering a template list keeps the length, renders position by position, keeps each template's type, and empties setup and teardown unless the option is `yes` |
| Generators.When | script.js:105-127 | a guarded push adds its template exactly when the guard holds |
| Generators.PositiveTemplates | script.js:100-227 | one to four templates, in source order without repeats, all positive; login-valid iff login; remember-me iff login above the basic detail level; valid-cart iff "add" and "cart"; profile iff "profile"; generic iff none of these |
| Generators.NegativeTemplates | script.js:230-317 | one to three templates, in source order, all negative; incorrect-credentials iff login; lockout iff login and "attempt"; invalid-cart iff "add" and "cart"; generic iff neither login nor cart |
| Generators.EdgeTemplates | script.js:320-379 | at most three templates, in source order, all edge; one per matched keyword group; none when nothing matches |
| Generators.PositiveTests | script.js:100-227 | the records are the rendered positive templates: one to four, all of type positive, with empty setup and teardown unless the option is `yes` |
| Generators.NegativeTests | script.js:230-317 | the records are the rendered negative templates: one to three, all of type negative, with empty setup and teardown unless the option is `yes` |
| Generators.EdgeTests | script.js:320-379 | the records are the rendered edge templates: at most three, all of type edge, empty exactly when no keyword matches, with empty setup and teardown unless the option is `yes` |
| Generators.ProfileOnlyNegative | script.js:294-314 | a story about a profile only gets the generic negative record |
| Generators.LoginRecordCount | script.js:105-152 | a login story starts with the valid-login record, followed by the remember-me record exactly above the basic detail level |
| Generators.GeneratorsIgnoreFormatAndIndex | script.js:100 | the generators' output does not depend on the format or the index argument |
| Assembler.KeepNonBlank | script.js:44 | the kept lines are lines of the input that do not trim to empty, and every such line is kept |
| Assembler.KeepNonBlankConcat | script.js:44 | filtering a concatenation filters each half and keeps their order |
| Assembler.KeepNonBlankAppend | script.js:44 | a line appended to the input is appended to the result exactly when it does not trim to empty, so order and repeats are kept |
| Assembler.NonBlankLines | script.js:44 | every story line is free of line feeds and not blank |
| Assembler.KeepNonBlankEmpty | script.js:44 | nothing is kept exactly when every line is whitespace only |
| Assembler.JoinAllSpace | script.js:44 | text joined with a whitespace separator is whitespace only exactly when every piece is |
| Assembler.NoLinesIffBlank | script.js:44 | no case comes out exactly when the input is empty or whitespace only |
| Assembler.LinesOfJoin | script.js:44 | lines without line feeds, joined with line feeds, come back as the filter of the same lines: in order, with repeats, blank ones dropped |
| Assembler.NonBlankLinesOfJoin | script.js:44 | non-blank lines joined with line feeds come back as the same lines, in order |
| Assembler.KeepAll | script.js:44 | a list without blank lines is kept as it is |
| Assembler.Generate | script.js:61-75 | a generator returns the rendered templates its type picks for the story, whatever the format and the index; every record has that generator's type |
| Assembler.Rounds | script.js:60-62 | a loop with a count of zero or less appends nothing |
| Assembler.RoundsOfConstant | script.js:60-62 | rounds of a generator that ignores its index are identical copies of one output |
| Assembler.RoundIgnoresIndex | script.js:61 | a generator returns the same records for every index |
| Assembler.Assemble | script.js:58-77 | a count of zero or less, or no enabled type, gives no records |
| Assembler.CaseTests | script.js:58-77 | a count of zero or less, or no enabled type, gives a case without tests |
| Assembler.AssembleOfConstant | script.js:58-77 | with index-independent generators the records are `testCount` copies of each enabled generator's output, positive, negative, edge |
| Assembler.CaseTestsAreCopies | script.js:58-77 | a case's records are `testCount` identical copies of the positive output, then of the negative, then of the edge output, each only when enabled |
| Assembler.CaseTestsOrdered | script.js:58-77 | every positive record comes before every negative one, which comes before every edge one |
| Assembler.OrderedBlocks | script.js:58-77 | three single-type blocks in positive, negative, edge order make a list ordered by type |
| Assembler.PushRounds | script.js:60-62 | the loop appends the generator's output for indices 0 to `testCount - 1`, in order |
| Assembler.CaseRecords | script.js:58-77 | the three guarded loops build exactly the specified record list |
| Assembler.GenerateTestCases | script.js:41-83 | one case per non-blank line, in order; case `k` has id `k + 1`, the line's title, the line as description and the specified records |
| Formatters.ForEachAt | script.js:422-447 | the piece for element `i` follows the pieces for the elements before it |
| Formatters.ForEachEmpty | script.js:430 | a mapped-and-joined list is empty exactly when every piece is |
| Formatters.ForEachCongruent | script.js:499-506 | lists whose pieces agree position by position render alike |
| Formatters.AppendEach | script.js:422-448 | the `forEach` loop appends every element's piece to `html`, in order |
| Formatters.PageAt | script.js:418-452 | a rendered case holds each test's piece after the header and the earlier tests' pieces |
| Formatters.StepDiv | script.js:430 | a step line holds its text |
| Formatters.StepDivs | script.js:430 | the step list is empty exactly when there are no steps |
| Formatters.StepDivsShowEach | script.js:430 | each step gets its own line, in order |
| Formatters.MetaBlock | script.js:435-445 | a setup or teardown block is empty exactly when its list is, and otherwise holds the heading and the items joined with "; " |
| Formatters.GenerateStandardFormat | script.js:418-452 | the method returns the standard page |
| Formatters.StandardScenarioAt | script.js:422-447 | the standard page holds each test's scenario in order after the header |
| Formatters.StandardSetupShown | script.js:435-439 | a test with setup steps shows them joined with "; " under "Setup:" |
| Formatters.StandardTeardownShown | script.js:441-445 | a test with teardown steps shows them joined with "; " under "Teardown:" |
| Formatters.DotSplit | script.js:462 | a label `<digits>.<rest>` can be split back at its dot in only one way |
| Formatters.ScenarioLabelInjective | script.js:462 | scenario labels `<id>.<position + 1>` are equal exactly when both the case and the position are |
| Formatters.NumberedStep | script.js:475 | a numbered step line holds `Step <n>:` followed by the step |
| Formatters.FirstStepLabel | script.js:475 | step numbering starts at "Step 1" |
| Formatters.StepLabelInjective | script.js:475 | different positions get different step labels |
| Formatters.CancelAround | script.js:475 | equal labels with the same fixed text around them have the same number text |
| Formatters.ProcedureShowsEach | script.js:473-476 | the procedure holds every step's numbered line in order |
| Formatters.Preconditions | script.js:467-470 | the preconditions are never empty: the setup steps, or a single "None" step when there are none |
| Formatters.Postconditions | script.js:480-485 | the postconditions block is empty exactly when there are no teardown steps, and otherwise holds them |
| Formatters.GenerateDetailedFormat | script.js:455-492 | the method returns the detailed page |
| Formatters.DetailedScenarioAt | script.js:459-488 | the detailed page holds each test's scenario in order after the header |
| Formatters.DetailedLabelShown | script.js:462 | each detailed scenario opens with its label `<id>.<position + 1>` |
| Formatters.DetailedPreconditionsShown | script.js:466-471 | each detailed scenario shows its preconditions: the setup steps, or "None" |
| Formatters.DetailedProcedureShown | script.js:472-477 | each detailed scenario shows the numbered procedure of its steps |
| Formatters.DetailedPostconditionsShown | script.js:480-485 | a detailed scenario whose test has teardown steps shows them |
| Formatters.GenerateSimpleFormat | script.js:495-510 | the method returns the checklist page |
| Formatters.SimpleIgnoresDetails | script.js:495-510 | the checklist depends only on the title, the story and each test's name, type and description |
| Formatters.SimpleScenarioAt | script.js:499-506 | the checklist holds each test's entry in order after the header |

## Left out

- DOM wiring is not modelled: the event handlers, reading the form
  (`script.js:10-38`) and the example presets (`script.js:2-7`). The model's
  inputs are the values those handlers pass on.
- The empty-input alert at `script.js:28` is not modelled, because it lives in
  the caller. `Assembler.NoLinesIffBlank` states that such input yields no
  test case.
- `displayTestCases`, `copyToClipboard` and `showNotification`
  (`script.js:382-531`) are not modelled. They only write to the page and the
  clipboard.
- The `testCount` parse is not modelled. `parseInt` of the form field is
  taken as given, as an `int`. A value that is not a number behaves like 0
  here, as `i < NaN` never holds.
- Text.Lower: lower-cases ASCII letters only. The Unicode case mapping of
  `toLowerCase` is not modelled.
- Indentation is not modelled: each line break of an HTML template literal
  and the indentation after it is written as a single line feed.
- The check `if (line.trim().length === 0) continue;` at `script.js:49` is
  not modelled. The filter at `script.js:44` has already removed such lines,
  so it never fires.
- Assembler.Rounds: states only the empty case. What the loop appends is
  stated by `Assembler.PushRounds` and `Assembler.RoundsOfConstant`.
