/**
  Which probes a page analysis issues and what reaches the record
  (tests/randw-style-analysis.spec.ts:61-64, 117-173). The browser is an oracle: for a
  selector it answers how many elements `page.locator(selector).all()` found (or that the
  call threw), and for a query string what `extractComputedStyles` returned.
 */
module Orchestrator {
  import opened Options
  import opened StyleSample
  import opened Decimal
  import opened Aggregator

  /** The fixed selector catalogue, visited in this order (:117-125). */
  const Catalogue: seq<string> := [
    "body", "h1", "h2", "h3", "h4", "h5", "h6", "p", "a",
    "button", ".btn", "[class*=\"button\"]",
    "nav", "header", "footer", "main",
    "[class*=\"container\"]", "[class*=\"wrapper\"]",
    "[class*=\"card\"]", "[class*=\"property\"]",
    "[class*=\"grid\"]", "[class*=\"flex\"]",
    "input", "form", "select"
  ]

  /** At most this many probes per selector (:129). */
  const MaxProbes: nat := 3

  const NthOfType := ":nth-of-type("

  /** `Math.min(elements.length, 3)` */
  function ProbeCount(n: nat): (k: nat)
    ensures k <= n && k <= MaxProbes
    ensures k == n || k == MaxProbes
  {
    if n < MaxProbes then n else MaxProbes
  }

  /** The query string of the probe with 1-based ordinal `ordinal` (:131). */
  function ProbeQuery(selector: string, ordinal: nat): string {
    selector + NthOfType + NatToString(ordinal) + ")"
  }

  /** Splits a probe query back into its selector and ordinal. */
  function ParseProbe(q: string): Option<(string, nat)> {
    if |q| == 0 || q[|q| - 1] != ')' then None
    else
      var body := q[..|q| - 1];
      var k := TrailingDigits(body);
      var head := body[..|body| - k];
      if k == 0 || |head| < |NthOfType| || head[|head| - |NthOfType|..] != NthOfType then None
      else Some((head[..|head| - |NthOfType|], ParseDecimal(body[|body| - k..])))
  }

  /** A probe query determines its selector and ordinal, whatever the selector contains. */
  lemma ParseProbeQuery(selector: string, ordinal: nat)
    ensures ParseProbe(ProbeQuery(selector, ordinal)) == Some((selector, ordinal))
  {
    var digits := NatToString(ordinal);
    var head := selector + NthOfType;
    var q := ProbeQuery(selector, ordinal);
    assert q == head + digits + ")";
    assert q[..|q| - 1] == head + digits;
    TrailingDigitsOfNumeral(head, digits);
    assert (head + digits)[..|head|] == head;
    assert (head + digits)[|head|..] == digits;
    assert head[|head| - |NthOfType|..] == NthOfType;
    assert head[..|head| - |NthOfType|] == selector;
    ParseNatToString(ordinal);
  }

  /** The probes issued for a selector with `n` matches, in increasing ordinal. */
  function Probes(selector: string, n: nat): seq<string> {
    seq(ProbeCount(n), i requires 0 <= i < ProbeCount(n) => ProbeQuery(selector, i + 1))
  }

  /** One more match below the cap adds one probe, with the next ordinal. */
  lemma ProbesSnoc(selector: string, i: nat)
    requires i < MaxProbes
    ensures Probes(selector, i + 1) == Probes(selector, i) + [ProbeQuery(selector, i + 1)]
  {
  }

  /** The probes for `n` matches are those for min(n, 3) matches. */
  lemma ProbesCapped(selector: string, n: nat)
    ensures Probes(selector, ProbeCount(n)) == Probes(selector, n)
  {
  }

  /** Exactly min(n, 3) probes, the i-th of which asks for `selector` with ordinal i + 1. */
  lemma ProbesNumbered(selector: string, n: nat)
    ensures |Probes(selector, n)| == ProbeCount(n) <= MaxProbes
    ensures n >= MaxProbes ==> |Probes(selector, n)| == MaxProbes
    ensures forall i :: 0 <= i < |Probes(selector, n)| ==> ParseProbe(Probes(selector, n)[i]) == Some((selector, i + 1))
  {
    forall i | 0 <= i < |Probes(selector, n)|
      ensures ParseProbe(Probes(selector, n)[i]) == Some((selector, i + 1))
    {
      ParseProbeQuery(selector, i + 1);
    }
  }

  /** What `page.locator(selector).all()` gives: a number of elements, or an exception. */
  datatype Count = Counted(n: nat) | LocatorFailed

  /**
    The page as the analysis sees it: element counts, probe answers, and the names and
    values of the computed properties of the document root.
   */
  datatype Page = Page(
    count: string -> Count,
    probe: string -> ProbeOutcome,
    rootProperties: seq<string>,
    rootValue: string -> string)

  /**
    The probes issued over selectors `sels` in order, and whether the walk got through all
    of them: a locator that throws is outside the try block and ends the analysis.
   */
  function Plan(sels: seq<string>, count: string -> Count): (seq<string>, bool)
    decreases |sels|
  {
    if sels == [] then ([], true)
    else
      var (qs, ok) := Plan(sels[..|sels| - 1], count);
      var sel := sels[|sels| - 1];
      if !ok then (qs, false)
      else match count(sel)
        case LocatorFailed => (qs, false)
        case Counted(n) => (qs + Probes(sel, n), true)
  }

  /** Once the walk has stopped, later selectors add nothing. */
  lemma {:induction false} PlanStopped(sels: seq<string>, j: nat, count: string -> Count)
    requires j <= |sels|
    requires !Plan(sels[..j], count).1
    ensures Plan(sels, count) == Plan(sels[..j], count)
    decreases |sels|
  {
    if j < |sels| {
      var init := sels[..|sels| - 1];
      assert init[..j] == sels[..j];
      PlanStopped(init, j, count);
    } else {
      assert sels[..j] == sels;
    }
  }

  /**
    Every probe of the walk names a selector of the walk with an ordinal from 1 to 3, and
    there are at most three probes per selector.
   */
  lemma {:induction false} PlanBounded(sels: seq<string>, count: string -> Count)
    ensures |Plan(sels, count).0| <= MaxProbes * |sels|
    ensures forall q :: q in Plan(sels, count).0 ==>
      exists sel, k :: sel in sels && 1 <= k <= MaxProbes && ParseProbe(q) == Some((sel, k))
    decreases |sels|
  {
    if sels != [] {
      var init, sel := sels[..|sels| - 1], sels[|sels| - 1];
      PlanBounded(init, count);
      var (qs, ok) := Plan(init, count);
      if ok && count(sel).Counted? {
        ProbesNumbered(sel, count(sel).n);
        forall q | q in Plan(sels, count).0
          ensures exists s, k :: s in sels && 1 <= k <= MaxProbes && ParseProbe(q) == Some((s, k))
        {
          if q in qs {
            var s, k :| s in init && 1 <= k <= MaxProbes && ParseProbe(q) == Some((s, k));
            assert s in sels;
          } else {
            var i :| 0 <= i < |Probes(sel, count(sel).n)| && Probes(sel, count(sel).n)[i] == q;
            assert ParseProbe(q) == Some((sel, i + 1));
          }
        }
      } else {
        forall q | q in Plan(sels, count).0
          ensures exists s, k :: s in sels && 1 <= k <= MaxProbes && ParseProbe(q) == Some((s, k))
        {
          var s, k :| s in init && 1 <= k <= MaxProbes && ParseProbe(q) == Some((s, k));
          assert s in sels;
        }
      }
    }
  }

  /** The samples a sequence of probes yields: `null` answers and exceptions yield none. */
  function Observations(qs: seq<string>, probe: string -> ProbeOutcome): (ss: seq<Sample>)
    ensures |ss| <= |qs|
    decreases |qs|
  {
    if qs == [] then []
    else
      var q := qs[|qs| - 1];
      var init := Observations(qs[..|qs| - 1], probe);
      if probe(q).Observed? then init + [probe(q).sample] else init
  }

  lemma ObservationsSnoc(qs: seq<string>, q: string, probe: string -> ProbeOutcome)
    ensures Observations(qs + [q], probe)
         == Observations(qs, probe) + (if probe(q).Observed? then [probe(q).sample] else [])
  {
    assert (qs + [q])[..|qs|] == qs;
  }

  lemma {:induction false} ObservationsConcat(qs: seq<string>, ps: seq<string>, probe: string -> ProbeOutcome)
    ensures Observations(qs + ps, probe) == Observations(qs, probe) + Observations(ps, probe)
    decreases |ps|
  {
    if ps == [] {
      assert qs + ps == qs;
    } else {
      assert (qs + ps)[..|qs + ps| - 1] == qs + ps[..|ps| - 1];
      ObservationsConcat(qs, ps[..|ps| - 1], probe);
    }
  }

  /** The record after one probe answered `outcome`: a sample is absorbed, anything else adds nothing. */
  function Answered(a: Analysis, outcome: ProbeOutcome): Analysis {
    if outcome.Observed? then Absorbed(a, outcome.sample) else a
  }

  /** Issuing one more probe `q` adds exactly its answer to the record. */
  lemma AbsorbObservationsSnoc(a: Analysis, qs: seq<string>, q: string, probe: string -> ProbeOutcome)
    ensures AbsorbAll(a, Observations(qs + [q], probe)) == Answered(AbsorbAll(a, Observations(qs, probe)), probe(q))
  {
    ObservationsSnoc(qs, q, probe);
    if probe(q).Observed? {
      AbsorbAllSnoc(a, Observations(qs, probe), probe(q).sample);
    } else {
      assert Observations(qs, probe) + [] == Observations(qs, probe);
    }
  }

  /** Absorbing the answers to `qs + ps` is absorbing those to `qs`, then those to `ps`. */
  lemma AbsorbObservationsConcat(a: Analysis, qs: seq<string>, ps: seq<string>, probe: string -> ProbeOutcome)
    ensures AbsorbAll(a, Observations(qs + ps, probe))
         == AbsorbAll(AbsorbAll(a, Observations(qs, probe)), Observations(ps, probe))
  {
    ObservationsConcat(qs, ps, probe);
    AbsorbAllSplit(a, Observations(qs, probe), Observations(ps, probe));
  }

  /** Every absorbed sample is the answer to one of the probes, and every answered probe is absorbed. */
  lemma {:induction false} ObservationsAreAnswers(qs: seq<string>, probe: string -> ProbeOutcome, s: Sample)
    ensures s in Observations(qs, probe) <==> exists q :: q in qs && probe(q) == Observed(s)
    decreases |qs|
  {
    if qs != [] {
      var init, q := qs[..|qs| - 1], qs[|qs| - 1];
      ObservationsAreAnswers(init, probe, s);
      assert qs == init + [q];
      if exists r :: r in qs && probe(r) == Observed(s) {
        var r :| r in qs && probe(r) == Observed(s);
        if r != q { assert r in init; }
      }
    }
  }

  /** The record after one page analysis (:127-173). */
  function PageResult(a: Analysis, page: Page): Analysis {
    AbsorbAll(a, Observations(Plan(Catalogue, page.count).0, page.probe))
  }

  /**
    A page test either reached its page and sampled it, or absorbed nothing: no matching
    link, a navigation that threw, or a throw from the full-page screenshot or the
    custom-property `evaluate` (:98-114), which come before any sampling.
   */
  datatype Visit = Reached(page: Page) | NotReached

  /** The record after the page tests `vs` ran one after another. */
  function VisitAll(a: Analysis, vs: seq<Visit>): Analysis
    decreases |vs|
  {
    if vs == [] then a
    else
      var init := VisitAll(a, vs[..|vs| - 1]);
      match vs[|vs| - 1]
      case NotReached => init
      case Reached(page) => PageResult(init, page)
  }

  /** Page analyses only append to tracked lists, never touch the rest, and keep the invariant. */
  lemma {:induction false} VisitAllFrame(a: Analysis, vs: seq<Visit>)
    ensures Untouched(VisitAll(a, vs)) == Untouched(a)
    ensures forall t :: Column(a, t) <= Column(VisitAll(a, vs), t)
    ensures Valid(a) ==> Valid(VisitAll(a, vs))
    decreases |vs|
  {
    if vs != [] {
      var init := VisitAll(a, vs[..|vs| - 1]);
      VisitAllFrame(a, vs[..|vs| - 1]);
      if vs[|vs| - 1].Reached? {
        var ss := Observations(Plan(Catalogue, vs[|vs| - 1].page.count).0, vs[|vs| - 1].page.probe);
        AbsorbAllColumns(init, ss);
        forall t ensures Column(init, t) <= Column(VisitAll(a, vs), t) {
          AbsorbAllGrows(init, ss, t);
        }
        if Valid(a) {
          AbsorbAllValid(init, ss);
        }
      }
    }
  }

  /**
    After any sequence of page tests from the initial record, the lists no absorption writes
    and the breakpoint entries are still as `beforeAll` set them.
   */
  lemma UnwrittenStayInitial(vs: seq<Visit>)
    ensures var r := VisitAll(Empty(), vs);
      && r.colors.borderColors == [] && r.colors.accentColors == [] && r.spacing.gaps == []
      && r.layout == Layout([], [], []) && r.components == Components([], [], [])
      && r.breakpoints == Breakpoints("", "", "")
  {
    VisitAllFrame(Empty(), vs);
    var r := VisitAll(Empty(), vs);
    assert Untouched(r).colors == Untouched(Empty()).colors;
    assert Untouched(r).spacing == Untouched(Empty()).spacing;
  }

  lemma {:induction false} VisitAllSplit(a: Analysis, us: seq<Visit>, vs: seq<Visit>)
    ensures VisitAll(a, us + vs) == VisitAll(VisitAll(a, us), vs)
    decreases |vs|
  {
    if vs == [] {
      assert us + vs == us;
    } else {
      assert (us + vs)[..|us + vs| - 1] == us + vs[..|vs| - 1];
      VisitAllSplit(a, us, vs[..|vs| - 1]);
    }
  }

  /** A page that was not reached contributes nothing and does not stop the pages after it. */
  lemma UnreachedPageInert(a: Analysis, us: seq<Visit>, vs: seq<Visit>)
    ensures VisitAll(a, us + [NotReached] + vs) == VisitAll(a, us + vs)
  {
    VisitAllSplit(a, us + [NotReached], vs);
    VisitAllSplit(a, us, vs);
    assert (us + [NotReached])[..|us|] == us;
  }
}
