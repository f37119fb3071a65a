# R&W style-analysis accumulator

This is a verified Dafny model of the style audit that the end-to-end test suite
`tests/randw-style-analysis.spec.ts` performs on the R&W website. The suite shares one
record, `analysisResults`, across all of its tests:

- `beforeAll` initialises it with every list empty and every breakpoint entry "".
- Each page test calls `analyzePageStyles`.
  - It reads the document root's CSS custom properties.
  - It walks a fixed catalogue of 25 selectors. For a selector with `n` matches it probes
    `selector:nth-of-type(k)` for `k = 1 .. min(n, 3)`.
  - It folds every non-null computed-style sample into nine insertion-ordered,
    duplicate-free lists. Empty values are refused, and some lists also refuse a sentinel:
    "rgba(0, 0, 0, 0)" for text and background colours, "0px" for margins and paddings,
    and "none" for animations.
- The responsive test overwrites one breakpoint entry per device profile (mobile 375×667,
  tablet 768×1024, desktop 1440×900). Each entry is `"<width>px - Container width: " +
  (maxWidth || width)`.
- `afterAll` renders the record as a Markdown report.

Modules:

| Module | File | What it models |
|---|---|---|
| `Options` | options.dfy | An `Option` type |
| `StyleSample` | sample.dfy | The 22-field sample that `extractComputedStyles` returns, and a probe's three outcomes: a sample, no element (`null`), or an exception |
| `Decimal` | decimal.dfy | The decimal rendering of a number inside a template string, and its parse |
| `OrderedSet` | ordered_set.dfy | The guarded `push`: `if (v && v !== sentinel && !xs.includes(v)) xs.push(v)`, and its folds |
| `Aggregator` | aggregator.dfy | The record as a value: its initial state, what absorbing one sample does, and the fold over many samples |
| `Orchestrator` | orchestrator.dfy | The selector catalogue, the probe queries, the walk over the catalogue, the samples that reach the record, and the sequence of page tests |
| `CssVariables` | css_variables.dfy | The custom-property loop |
| `Viewport` | viewport.dfy | The profiles and the breakpoint entries |
| `Report` | report.dfy | The Markdown template |
| `Accumulator` | accumulator.dfy | The shared record as a class `StyleAnalysis` whose methods update its fields in place (`Absorb`, the probing loops, the responsive loop), plus a whole run `RunAnalysis` |

Each imperative method of `StyleAnalysis` states its new state as a function of the old one
(`Snapshot() == Absorbed(old(Snapshot()), s)` and the like). The lemmas in `Aggregator`,
`OrderedSet`, `Orchestrator`, `Viewport` and `Report` prove what those functions promise.

The browser is an oracle. A `Page` value gives:

- the element count of each selector, or the fact that `page.locator(selector).all()` threw;
- the outcome of each probe query;
- the root's computed property names and their values.

What each iteration of the responsive pass yields is another function parameter: the body sample, `null`, or an exception.

A locator that throws is outside the `try` block of the source, so it ends that page's
analysis. Whatever was absorbed before it stays in the record. The model keeps this
behaviour: `Plan` reports whether the walk completed. Nothing in the responsive test is inside a `try` either, so an iteration that throws ends that pass. `RecordedAll` reports whether it completed.

## Model

| member | source | states |
|---|---|---|
| OrderedSet.Insert | tests/randw-style-analysis.spec.ts:134-166 | One guarded push either leaves the list alone or appends the value. It appends exactly when the value is non-empty, is not the list's sentinel, and is not already present. |
| OrderedSet.InsertKeeps | tests/randw-style-analysis.spec.ts:134-166 | After a push, the members are the old members plus the value if it passes the filter. The list no longer lacks the value. A value already settled changes nothing. The list stays duplicate-free and free of refused values. |
| OrderedSet.InsertIdempotent | tests/randw-style-analysis.spec.ts:134-166 | Offering the same value twice in a row gives the same list as offering it once. |
| OrderedSet.InsertAll | tests/randw-style-analysis.spec.ts:134-166 | Definition: the guarded push applied to each offered value in turn, first to last. Its properties are `InsertAllGrows`, `InsertAllMembers`, `InsertAllKeepsInvariant`, `InsertAllSplit`, `InsertAllRepeat` and `InsertAllFirstSeen`. |
| OrderedSet.InsertAllGrows | tests/randw-style-analysis.spec.ts:134-166 | Over any sequence of offers, the old list is a prefix of the new one, and the list grows by at most one element per offer. |
| OrderedSet.InsertAllMembers | tests/randw-style-analysis.spec.ts:134-166 | A value is in the list after a sequence of offers iff it was there before, or it passes the filter and was offered. |
| OrderedSet.InsertAllKeepsInvariant | tests/randw-style-analysis.spec.ts:134-166 | Any sequence of offers keeps a list duplicate-free and free of refused values. |
| OrderedSet.InsertAllSplit | tests/randw-style-analysis.spec.ts:134-166 | Offering `us` and then `vs` is offering `us + vs`. |
| OrderedSet.InsertAllRepeat | tests/randw-style-analysis.spec.ts:134-166 | Re-offering a value that was already offered or present changes nothing, wherever it is interleaved. |
| OrderedSet.InsertAllFirstSeen | tests/randw-style-analysis.spec.ts:134-166 | From an empty list, the result is exactly the accepted values in first-seen order. |
| Aggregator.Empty | tests/randw-style-analysis.spec.ts:50-58 | The initial record satisfies the invariant, every tracked list is empty, and every breakpoint entry is "". |
| Aggregator.Absorbed | tests/randw-style-analysis.spec.ts:134-166 | Absorbing a sample makes one guarded push into each of the nine tracked lists, fed by the matching sample field with that list's sentinel. Border and accent colours, gaps, layout, components and breakpoints stay as they were. |
| Aggregator.AbsorbedValid | tests/randw-style-analysis.spec.ts:134-166 | Absorption keeps every tracked list duplicate-free and free of empty and sentinel values. |
| Aggregator.AbsorbIdempotent | tests/randw-style-analysis.spec.ts:134-166 | Absorbing the same sample twice leaves the state of absorbing it once. |
| Aggregator.AbsorbAll | tests/randw-style-analysis.spec.ts:127-173 | Definition: the non-null samples of a page absorbed one after another, in the order the probes answered. Its properties are `AbsorbAllSnoc`, `AbsorbAllSplit`, `AbsorbAllColumns`, `AbsorbAllGrows`, `AbsorbAllValid`, `AbsorbAllMembers`, `AbsorbAllFirstSeen` and `AbsorbAllRepeat`. |
| Aggregator.AbsorbAllSnoc | tests/randw-style-analysis.spec.ts:132-167 | Absorbing one more sample after a sequence is absorbing it into the record that the sequence produced. |
| Aggregator.AbsorbAllSplit | tests/randw-style-analysis.spec.ts:132-167 | Absorbing `ss + us` is absorbing `ss` and then `us`. |
| Aggregator.AbsorbAllColumns | tests/randw-style-analysis.spec.ts:134-166 | After a sequence of samples, each tracked list is its old contents with that field's readings offered in order. The untouched part is unchanged. |
| Aggregator.AbsorbAllGrows | tests/randw-style-analysis.spec.ts:134-166 | Absorption only appends: each old list is a prefix of the new one, and it grows by at most one entry per sample. |
| Aggregator.AbsorbAllValid | tests/randw-style-analysis.spec.ts:134-166 | Absorbing any sequence of samples keeps the record invariant. |
| Aggregator.AbsorbAllMembers | tests/randw-style-analysis.spec.ts:134-166 | A value is in a tracked list after absorption iff it was there already, or some absorbed sample carried it and it passes that list's filter. |
| Aggregator.AbsorbAllFirstSeen | tests/randw-style-analysis.spec.ts:50-166 | From the initial record, each tracked list is the first-seen order of the accepted readings. |
| Aggregator.ReadingsConcat | tests/randw-style-analysis.spec.ts:134-166 | The readings of a concatenation of samples are the concatenated readings. |
| Aggregator.AbsorbAllRepeat | tests/randw-style-analysis.spec.ts:134-166 | A sample absorbed again after an earlier copy changes nothing, wherever the repeat is interleaved. |
| Aggregator.RepeatedReading | tests/randw-style-analysis.spec.ts:134-166 | The same fact for one list: re-offering the readings of an already absorbed sample leaves that list unchanged. |
| Aggregator.SentinelsExcluded | tests/randw-style-analysis.spec.ts:148-166 | In a valid record, text and background colours never hold "rgba(0, 0, 0, 0)", margins and paddings never hold "0px", animations never hold "none", and the typography lists never hold "". |
| Aggregator.RepeatedHeadingSize | tests/randw-style-analysis.spec.ts:137-139 | Samples with font sizes 32px, 32px and 24px, absorbed into the initial record, give `["32px", "24px"]`. |
| Aggregator.SameAnalysis | tests/randw-style-analysis.spec.ts:5-39 | A record is determined by its nine tracked lists together with the part that absorption does not write. |
| Decimal.NatToString | tests/randw-style-analysis.spec.ts:131 | The decimal rendering of a number is a non-empty digit string with no leading zero. |
| Decimal.ParseNatToString | tests/randw-style-analysis.spec.ts:131 | Parsing the decimal rendering of `n` gives back `n`. |
| Decimal.TrailingDigitsOfNumeral | tests/randw-style-analysis.spec.ts:131 | A numeral appended to text that does not end in a digit is recovered exactly as the trailing digits. |
| Decimal.LeadingDigitsOfNumeral | tests/randw-style-analysis.spec.ts:282 | A numeral followed by text that does not start with a digit is recovered exactly as the leading digits. |
| Orchestrator.ProbeCount | tests/randw-style-analysis.spec.ts:129 | The number of probes is `min(n, 3)`: at most `n`, at most 3, and equal to one of them. |
| Orchestrator.ProbeQuery | tests/randw-style-analysis.spec.ts:131 | Definition: the query `` `${selector}:nth-of-type(${i + 1})` `` for ordinal `i + 1`. Its inverse is `ParseProbe`, proved by `ParseProbeQuery`. |
| Orchestrator.ParseProbeQuery | tests/randw-style-analysis.spec.ts:131 | A query `selector + ":nth-of-type(" + k + ")"` determines its selector and ordinal, whatever characters the selector contains. |
| Orchestrator.Probes | tests/randw-style-analysis.spec.ts:129-131 | Definition: the queries for ordinals 1 to `min(n, 3)`, in order. Its properties are `ProbesSnoc`, `ProbesCapped` and `ProbesNumbered`. |
| Orchestrator.ProbesSnoc | tests/randw-style-analysis.spec.ts:129-131 | Below the cap, one more match adds one probe, with the next ordinal, at the end. |
| Orchestrator.ProbesCapped | tests/randw-style-analysis.spec.ts:129 | The probes for `n` matches are those for `min(n, 3)` matches. |
| Orchestrator.ProbesNumbered | tests/randw-style-analysis.spec.ts:129-131 | A selector with `n` matches gets exactly `min(n, 3)` probes (3 when `n >= 3`). The i-th probe asks for that selector with ordinal `i + 1`, so ordinals increase from 1. |
| Orchestrator.Plan | tests/randw-style-analysis.spec.ts:117-131 | Definition: the catalogue walked in order, each counted selector contributing its probes, and a throwing `page.locator(selector).all()` ending the walk. Its properties are `PlanStopped` and `PlanBounded`; `SampleCatalogue` is proved to compute it. |
| Orchestrator.PlanStopped | tests/randw-style-analysis.spec.ts:127-128 | Once a locator has thrown, the selectors after it add no probes. |
| Orchestrator.PlanBounded | tests/randw-style-analysis.spec.ts:117-131 | A walk over `k` selectors issues at most `3k` probes. Each probe names a selector of the walk with an ordinal from 1 to 3. |
| Orchestrator.Observations | tests/randw-style-analysis.spec.ts:131-171 | There are never more samples than probes. |
| Orchestrator.ObservationsSnoc | tests/randw-style-analysis.spec.ts:131-171 | One more probe adds its sample when it answered one, and nothing when it answered `null` or threw. |
| Orchestrator.ObservationsConcat | tests/randw-style-analysis.spec.ts:127-173 | The samples from two runs of probes in sequence are the samples of each run, concatenated. |
| Orchestrator.Answered | tests/randw-style-analysis.spec.ts:130-171 | Definition: a sample answer is absorbed; a `null` answer, or an exception caught by the `catch`, leaves the record as it was. Its properties are `AbsorbObservationsSnoc` and `Observe`. |
| Orchestrator.AbsorbObservationsSnoc | tests/randw-style-analysis.spec.ts:131-171 | One more probe changes the record exactly as its answer does. A `null` sample or an exception leaves the whole record unchanged. |
| Orchestrator.AbsorbObservationsConcat | tests/randw-style-analysis.spec.ts:127-173 | Absorbing the answers to `qs + ps` is absorbing those to `qs`, then those to `ps`. |
| Orchestrator.ObservationsAreAnswers | tests/randw-style-analysis.spec.ts:131-171 | A sample reaches the record iff some issued probe answered it. |
| Orchestrator.PageResult | tests/randw-style-analysis.spec.ts:117-173 | Definition: the record after one page analysis absorbs the answers to the probes of `Plan` over the catalogue. Its properties are `VisitAllFrame` and `UnwrittenStayInitial`; `AnalyzePageStyles` is proved to compute it. |
| Orchestrator.VisitAll | tests/randw-style-analysis.spec.ts:178-256 | Definition: the page tests run in order; a reached page contributes `PageResult`, an unreached one nothing. Its properties are `VisitAllFrame`, `UnwrittenStayInitial`, `VisitAllSplit` and `UnreachedPageInert`. |
| Orchestrator.VisitAllFrame | tests/randw-style-analysis.spec.ts:178-256 | Any sequence of page tests leaves border and accent colours, gaps, layout, components and breakpoints untouched. It only appends to the tracked lists and keeps the invariant. |
| Orchestrator.UnwrittenStayInitial | tests/randw-style-analysis.spec.ts:50-58 | After the page tests, border and accent colours, gaps, layout, components and breakpoints are still as `beforeAll` set them. |
| Orchestrator.VisitAllSplit | tests/randw-style-analysis.spec.ts:178-256 | Running page tests `us` and then `vs` is running `us + vs`. |
| Orchestrator.UnreachedPageInert | tests/randw-style-analysis.spec.ts:178-256 | A page test whose analysis absorbed nothing contributes nothing and does not block later pages. That covers no matching link, a navigation that threw, and a throw from the full-page screenshot or the custom-property `evaluate`, which come before any sampling (:98-114). |
| CssVariables.IsCustomProperty | tests/randw-style-analysis.spec.ts:109 | Definition: `property.startsWith('--')`. `ExtractCssVariables` states the map it selects. |
| CssVariables.ExtractCssVariables | tests/randw-style-analysis.spec.ts:104-114 | The map holds a property iff the root has it and its name starts with "--". Each entry maps to that property's value. |
| Viewport.WithBreakpoint | tests/randw-style-analysis.spec.ts:280-283 | Assigning a profile's field sets that entry. The other two entries and every tracked list are unchanged, and the invariant is kept. |
| Viewport.ContainerWidth | tests/randw-style-analysis.spec.ts:282 | `maxWidth || width`: the max-width when it is non-empty, otherwise the width. |
| Viewport.Label | tests/randw-style-analysis.spec.ts:282 | Definition: `` `${viewport.width}px - Container width: ${maxWidth || width}` ``. Its inverse is `ParseLabel`, proved by `ParseLabelRoundTrip`; `LabelsStartWithWidth` gives the three widths. |
| Viewport.ParseLabelRoundTrip | tests/randw-style-analysis.spec.ts:282 | An entry determines the profile's width and the container width it reports. |
| Viewport.Recorded | tests/randw-style-analysis.spec.ts:279-283 | Definition: a non-null body sample overwrites the profile's entry with its label, and `null` leaves the record. Its properties are `WithBreakpoint` and `ResponsiveEntries`. |
| Viewport.RecordedAll | tests/randw-style-analysis.spec.ts:259-284 | Definition: the three profiles processed in order. No statement of the test is in a `try`, so an iteration that throws ends the pass and the later profiles are not visited. Its properties are `RecordedAllStopped` and `ResponsiveEntries`. |
| Viewport.RecordedAllStopped | tests/randw-style-analysis.spec.ts:259-284 | Once an iteration has thrown, the profiles after it leave the record and the completion flag as they were. |
| Viewport.ResponsiveEntries | tests/randw-style-analysis.spec.ts:259-284 | After the pass over mobile, tablet and desktop, each entry is its label when a body sample was seen. It is unchanged when the sample was `null`, when its own iteration threw, or when an earlier one threw. The pass completes iff no iteration threw. No tracked list changes, and the invariant is kept. |
| Viewport.LabelsStartWithWidth | tests/randw-style-analysis.spec.ts:263-282 | The entries start with "375px", "768px" and "1440px", the widths of the three profiles. |
| Report.BulletLines | tests/randw-style-analysis.spec.ts:304 | One bullet line per list element. |
| Report.Bullets | tests/randw-style-analysis.spec.ts:304-322 | Definition: each element prefixed with "- ", the lines joined with "\n". Its properties are `BulletLines`, `BulletsRoundTrip` and `SectionsGrow`. |
| Report.ConcatContains | tests/randw-style-analysis.spec.ts:294-330 | Each piece of the template occurs in the concatenated text. |
| Report.FlattenMember | tests/randw-style-analysis.spec.ts:294-330 | Every piece of every section is a piece of the report. |
| Report.RenderShowsPiece | tests/randw-style-analysis.spec.ts:294-330 | Each piece of each section occurs in the report text. |
| Report.ShownInBlock | tests/randw-style-analysis.spec.ts:296-322 | Each tracked list's heading and rendering belong to the section that the template puts it in. |
| Report.Sections | tests/randw-style-analysis.spec.ts:294-330 | Definition: the template's sections in order, from the title to the screenshots note. Its properties are `ShownInBlock`, `BlockInSections` and `RenderShowsPiece`. |
| Report.BlockInSections | tests/randw-style-analysis.spec.ts:294-330 | Those sections are sections of the report. |
| Report.Render | tests/randw-style-analysis.spec.ts:294-330 | Definition: the report text, the sections' pieces written one after another. Its properties are `RenderShowsPiece`, `RenderShowsSections` and `RenderShowsBreakpoints`. |
| Report.RenderShowsSections | tests/randw-style-analysis.spec.ts:296-322 | For each of the nine tracked lists, the report contains its label or heading followed by its rendering. Typography lists are joined with ", " on the label's line. The other lists are "- x" lines joined with "\n" under their heading, in list order. |
| Report.RenderShowsBreakpoints | tests/randw-style-analysis.spec.ts:316-319 | The report contains the Mobile, Tablet and Desktop lines with the recorded entries. |
| Report.SplitOn | tests/randw-style-analysis.spec.ts:304 | Splitting a string always gives at least one part. |
| Report.SplitOnAfter | tests/randw-style-analysis.spec.ts:304 | Splitting at the first separator gives the part before it, followed by the split of the rest. |
| Report.SplitOnWhole | tests/randw-style-analysis.spec.ts:304 | A string without the separator splits into itself. |
| Report.SplitJoin | tests/randw-style-analysis.spec.ts:304 | Joining a non-empty list of parts that do not contain the separator character, then splitting the result, gives the parts back. |
| Report.Join | tests/randw-style-analysis.spec.ts:297-300 | Definition: `Array.prototype.join`: "" for no elements, else the elements with the separator between them. Its properties are `SplitJoin`, `JoinSnoc` and `JoinPrefix`. |
| Report.BulletsRoundTrip | tests/randw-style-analysis.spec.ts:304-322 | An empty list renders as "". A non-empty list of values without line breaks renders as lines that split back into exactly its bullet lines, in list order, with no deduplication. |
| Report.JoinSnoc | tests/randw-style-analysis.spec.ts:297-300 | Joining one more element appends the separator and that element. |
| Report.JoinPrefix | tests/randw-style-analysis.spec.ts:297-300 | A list that extends another renders to a text that extends the other's. |
| Report.SectionsGrow | tests/randw-style-analysis.spec.ts:296-322 | Absorbing more samples only extends each tracked list's rendering: the old rendering is a prefix of the new one. |
| Accumulator.StyleAnalysis.constructor | tests/randw-style-analysis.spec.ts:50-58 | The shared record starts as the initial record and satisfies the invariant. |
| Accumulator.StyleAnalysis.Absorb | tests/randw-style-analysis.spec.ts:132-167 | The in-place pushes for one sample leave the record as `Absorbed` of the old one, and keep the invariant. |
| Accumulator.StyleAnalysis.Observe | tests/randw-style-analysis.spec.ts:131-171 | A sample is absorbed. A `null` answer or an exception leaves the record as it was. |
| Accumulator.StyleAnalysis.ProbeSelector | tests/randw-style-analysis.spec.ts:129-172 | The inner loop issues exactly the probes `Probes(selector, n)` in order. The record becomes the old one with the answers to those probes absorbed. |
| Accumulator.StyleAnalysis.SampleCatalogue | tests/randw-style-analysis.spec.ts:117-173 | The outer loop visits the catalogue in order and issues exactly the probes of `Plan`, stopping at a throwing locator. The record absorbs the answers to those probes. |
| Accumulator.StyleAnalysis.AnalyzePageStyles | tests/randw-style-analysis.spec.ts:94-176 | It returns exactly the custom properties with their values, and the probes of `Plan`. The record absorbs the answers to those probes and keeps the invariant. |
| Accumulator.StyleAnalysis.RecordBreakpoint | tests/randw-style-analysis.spec.ts:279-283 | A non-null body sample overwrites the profile's entry with its label. A `null` sample leaves the record as it was. |
| Accumulator.StyleAnalysis.AnalyzeResponsive | tests/randw-style-analysis.spec.ts:259-284 | The loop over the three profiles leaves the record and the completion flag as `RecordedAll` of the old record, stopping at the first iteration that throws. `Viewport.ResponsiveEntries` characterises the result. |
| Accumulator.RunAnalysis | tests/randw-style-analysis.spec.ts:45-330 | A run is the initial record, then the page tests in order, then the responsive pass. The report is the template rendered from the final record, and the record satisfies the invariant. |

## Left out

- Playwright navigation, `waitForLoadState`, `waitForTimeout`, link clicks, the page and section screenshots and their loops (tests/randw-style-analysis.spec.ts:98-101, 178-256, 270-276). These are browser I/O. A page test is modelled only as a `Visit`: the page it reached, or `NotReached`.
- A throw from browser I/O is modelled only by its effect on the record. In a page test, a throw from navigation, from the full-page screenshot (tests/randw-style-analysis.spec.ts:98) or from the custom-property `evaluate` (:104) happens before any sampling, so that page is encoded as `NotReached`. In the responsive test, a throw from `goto` or `waitForLoadState` (:259-260) is encoded as `Threw` at the mobile profile, and a throw from `setViewportSize`, `waitForTimeout`, the screenshot or the body sample of a profile (:270-279) as `Threw` at that profile.
- `fs.mkdirSync`, `fs.writeFileSync`, the JSON dump of the record, and console logging (tests/randw-style-analysis.spec.ts:48, 289-291, 332-337). These are file I/O. The model returns the record and the report text instead, and the screenshots directory is a parameter.
- The browser itself: `document.querySelector`, `getComputedStyle`, the element count of `page.locator(...).all()` and the root's computed properties are parameters (`Page`, `bodyAt`). The model fixes which queries are issued. It does not claim which element `X:nth-of-type(k)` selects, because that is not "the k-th match of X".
- The Playwright runner's concurrency and its restart of a worker after a failing test. The tests are modelled as a strictly sequential fold over one shared record.
- The component lists are `any[]` in the source and never written. Their entries are modelled as strings.
- The returned `pageName` of `analyzePageStyles` is not modelled. It is the caller's own argument.
- Report.BulletsRoundTrip: the typography lines joined with ", " have no split-back lemma, because computed font families themselves contain ", ". The model proves only `JoinPrefix` and `JoinSnoc` about them.
- Viewport.ContainerWidth: the computed max-width of a body is normally the non-empty string "none", so the width fallback applies only when the browser reports an empty max-width. The model follows the code's `||` as written.
- Other files of the repository: the domain-review test, the analysis runner script, the React components and pages, the mock data, the type declarations and the configuration. None is part of this model.
