/**
  The shared `analysisResults` object of the test suite
  (tests/randw-style-analysis.spec.ts:42, 50-58) as a class whose list fields the
  analysis pushes into and whose breakpoint fields it overwrites, together with the loops
  that drive it: the per-page sampling walk (:94-176), the responsive pass (:258-285) and
  a whole run ending in the report (:287-332).
 */
module Accumulator {
  import opened Options
  import opened StyleSample
  import opened OrderedSet
  import opened Aggregator
  import opened Viewport
  import opened Orchestrator
  import opened CssVariables
  import opened Report

  class StyleAnalysis {
    var typography: Typography
    var colors: Colors
    var spacing: Spacing
    var layout: Layout
    var components: Components
    var breakpoints: Breakpoints
    var animations: seq<string>

    /** The current contents as a record value. */
    function Snapshot(): Analysis
      reads this
    {
      Analysis(typography, colors, spacing, layout, components, breakpoints, animations)
    }

    ghost predicate Valid()
      reads this
    {
      Aggregator.Valid(Snapshot())
    }

    /** `beforeAll`: every list empty, every breakpoint entry "". */
    constructor ()
      ensures Snapshot() == Empty()
      ensures Valid()
    {
      typography := Typography([], [], [], []);
      colors := Colors([], [], [], []);
      spacing := Spacing([], [], []);
      layout := Layout([], [], []);
      components := Components([], [], []);
      breakpoints := Breakpoints("", "", "");
      animations := [];
    }

    /**
      The pushes made for one non-null sample (:134-166); each guarded `push` of the source
      is one `Insert` into the list it guards.
     */
    method Absorb(s: Sample)
      requires Valid()
      modifies this
      ensures Valid()
      ensures Snapshot() == Absorbed(old(Snapshot()), s)
    {
      AbsorbedValid(Snapshot(), s);
      typography := typography.(fonts := Insert(typography.fonts, s.fontFamily, None));
      typography := typography.(fontSizes := Insert(typography.fontSizes, s.fontSize, None));
      typography := typography.(fontWeights := Insert(typography.fontWeights, s.fontWeight, None));
      typography := typography.(lineHeights := Insert(typography.lineHeights, s.lineHeight, None));
      colors := colors.(textColors := Insert(colors.textColors, s.color, Some(Transparent)));
      colors := colors.(backgrounds := Insert(colors.backgrounds, s.backgroundColor, Some(Transparent)));
      spacing := spacing.(margins := Insert(spacing.margins, s.margin, Some(ZeroPx)));
      spacing := spacing.(paddings := Insert(spacing.paddings, s.padding, Some(ZeroPx)));
      animations := Insert(animations, s.animation, Some(NoAnimation));
    }

    /**
      The probes for one selector with `n` matches (:129-172): ordinals 1 to min(n, 3) in
      order; a `null` answer or an exception adds nothing.
     */
    method ProbeSelector(selector: string, n: nat, probe: string -> ProbeOutcome) returns (issued: seq<string>)
      requires Valid()
      modifies this
      ensures Valid()
      ensures issued == Probes(selector, n)
      ensures Snapshot() == AbsorbAll(old(Snapshot()), Observations(issued, probe))
    {
      ghost var start := Snapshot();
      issued := [];
      var i := 0;
      while i < ProbeCount(n)
        invariant 0 <= i <= ProbeCount(n)
        invariant issued == Probes(selector, i)
        invariant Snapshot() == AbsorbAll(start, Observations(issued, probe))
      {
        var q := ProbeQuery(selector, i + 1);
        AbsorbAllValid(start, Observations(issued, probe));
        AbsorbObservationsSnoc(start, issued, q, probe);
        Observe(probe(q));
        ProbesSnoc(selector, i);
        issued := issued + [q];
        i := i + 1;
      }
      ProbesCapped(selector, n);
      AbsorbAllValid(start, Observations(issued, probe));
    }

    /** One probe's answer: a sample is absorbed; `null` or an exception leaves the record as it was. */
    method Observe(outcome: ProbeOutcome)
      requires Valid()
      modifies this
      ensures Valid()
      ensures Snapshot() == Answered(old(Snapshot()), outcome)
    {
      if outcome.Observed? {
        Absorb(outcome.sample);
      }
    }

    /**
      The walk over the selector catalogue (:117-173): each selector in order is counted
      and probed; a selector whose count throws ends the walk.
     */
    method SampleCatalogue(page: Page) returns (queries: seq<string>, completed: bool)
      requires Valid()
      modifies this
      ensures Valid()
      ensures (queries, completed) == Plan(Catalogue, page.count)
      ensures Snapshot() == AbsorbAll(old(Snapshot()), Observations(queries, page.probe))
    {
      ghost var start := Snapshot();
      queries, completed := [], true;
      var j := 0;
      while j < |Catalogue|
        invariant 0 <= j <= |Catalogue|
        invariant Plan(Catalogue[..j], page.count) == (queries, true)
        invariant Valid()
        invariant Snapshot() == AbsorbAll(start, Observations(queries, page.probe))
      {
        var selector := Catalogue[j];
        assert Catalogue[..j + 1][..j] == Catalogue[..j];
        match page.count(selector) {
          case LocatorFailed =>
            completed := false;
            PlanStopped(Catalogue, j + 1, page.count);
            return;
          case Counted(n) =>
            var issued := ProbeSelector(selector, n, page.probe);
            AbsorbObservationsConcat(start, queries, issued, page.probe);
            queries := queries + issued;
        }
        j := j + 1;
      }
      assert Catalogue[..j] == Catalogue;
    }

    /**
      `analyzePageStyles`: extract the root's custom properties, then walk the catalogue.
      Returns the custom properties, the probe queries in the order issued, and whether the
      walk got through the whole catalogue.
     */
    method AnalyzePageStyles(page: Page) returns (cssVariables: map<string, string>, queries: seq<string>, completed: bool)
      requires Valid()
      modifies this
      ensures Valid()
      ensures forall p :: p in cssVariables <==> p in page.rootProperties && IsCustomProperty(p)
      ensures forall p :: p in cssVariables ==> cssVariables[p] == page.rootValue(p)
      ensures (queries, completed) == Plan(Catalogue, page.count)
      ensures Snapshot() == AbsorbAll(old(Snapshot()), Observations(queries, page.probe))
    {
      cssVariables := ExtractCssVariables(page.rootProperties, page.rootValue);
      queries, completed := SampleCatalogue(page);
    }

    /** One profile of the responsive pass: overwrite its entry when the body sample is non-null (:279-283). */
    method RecordBreakpoint(viewport: Profile, bodyStyles: ProbeOutcome)
      requires Valid()
      modifies this
      ensures Valid()
      ensures Snapshot() == Recorded(old(Snapshot()), viewport, bodyStyles)
    {
      if bodyStyles.Observed? {
        ghost var before := Snapshot();
        var entry := Label(viewport, bodyStyles.sample);
        match viewport.name {
          case Mobile => breakpoints := breakpoints.(mobile := entry);
          case Tablet => breakpoints := breakpoints.(tablet := entry);
          case Desktop => breakpoints := breakpoints.(desktop := entry);
        }
        assert Snapshot() == WithBreakpoint(before, viewport.name, entry);
      }
    }

    /**
      The responsive pass over the three profiles in order (:263-284); `bodyAt` gives what
      each iteration yields. An iteration that throws ends the pass.
     */
    method AnalyzeResponsive(bodyAt: Profile -> ProbeOutcome) returns (completed: bool)
      requires Valid()
      modifies this
      ensures Valid()
      ensures (Snapshot(), completed) == RecordedAll(old(Snapshot()), Profiles, bodyAt)
    {
      ghost var start := Snapshot();
      completed := true;
      var k := 0;
      while k < |Profiles|
        invariant 0 <= k <= |Profiles|
        invariant Valid()
        invariant RecordedAll(start, Profiles[..k], bodyAt) == (Snapshot(), true)
      {
        var viewport := Profiles[k];
        assert Profiles[..k + 1][..k] == Profiles[..k];
        var bodyStyles := bodyAt(viewport);
        if bodyStyles.Threw? {
          completed := false;
          RecordedAllStopped(start, Profiles, k + 1, bodyAt);
          return;
        }
        RecordBreakpoint(viewport, bodyStyles);
        k := k + 1;
      }
      assert Profiles[..k] == Profiles;
    }
  }

  /**
    One run: a fresh record, the page tests in order, the responsive pass, then the report.
    Returns the final record (the structured document) and the report text.
   */
  method RunAnalysis(visits: seq<Visit>, bodyAt: Profile -> ProbeOutcome, screenshotsDir: string)
    returns (analysis: Analysis, report: string)
    ensures Aggregator.Valid(analysis)
    ensures analysis == RecordedAll(VisitAll(Empty(), visits), Profiles, bodyAt).0
    ensures report == Render(analysis, screenshotsDir)
  {
    var results := new StyleAnalysis();
    var k := 0;
    while k < |visits|
      invariant 0 <= k <= |visits|
      invariant results.Valid()
      invariant results.Snapshot() == VisitAll(Empty(), visits[..k])
    {
      match visits[k] {
        case NotReached =>
        case Reached(page) =>
          var _, _, _ := results.AnalyzePageStyles(page);
      }
      assert visits[..k + 1][..k] == visits[..k];
      k := k + 1;
    }
    assert visits[..k] == visits;
    var _ := results.AnalyzeResponsive(bodyAt);
    analysis := results.Snapshot();
    report := Render(analysis, screenshotsDir);
  }
}
