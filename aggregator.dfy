/**
  The run-wide style record `StyleAnalysis` (tests/randw-style-analysis.spec.ts:5-39) as a
  value, nested by group as in the source, and what absorbing one sample does to it
  (:132-167).
 */
module Aggregator {
  import opened Options
  import opened StyleSample
  import opened OrderedSet

  datatype Typography = Typography(
    fonts: seq<string>, fontSizes: seq<string>, fontWeights: seq<string>, lineHeights: seq<string>)

  datatype Colors = Colors(
    backgrounds: seq<string>, textColors: seq<string>, borderColors: seq<string>, accentColors: seq<string>)

  datatype Spacing = Spacing(margins: seq<string>, paddings: seq<string>, gaps: seq<string>)

  datatype Layout = Layout(containers: seq<string>, gridSystems: seq<string>, flexboxPatterns: seq<string>)

  /** The component lists are `any[]` in the source and never written; their entries are kept opaque as strings. */
  datatype Components = Components(buttons: seq<string>, cards: seq<string>, navigation: seq<string>)

  datatype Breakpoints = Breakpoints(mobile: string, tablet: string, desktop: string)

  datatype Analysis = Analysis(
    typography: Typography,
    colors: Colors,
    spacing: Spacing,
    layout: Layout,
    components: Components,
    breakpoints: Breakpoints,
    animations: seq<string>)

  /** The nine lists that sample absorption writes to. */
  datatype Tracked =
    | Fonts | FontSizes | FontWeights | LineHeights
    | TextColors | Backgrounds
    | Margins | Paddings
    | Animations

  function Column(a: Analysis, t: Tracked): seq<string> {
    match t
    case Fonts => a.typography.fonts
    case FontSizes => a.typography.fontSizes
    case FontWeights => a.typography.fontWeights
    case LineHeights => a.typography.lineHeights
    case TextColors => a.colors.textColors
    case Backgrounds => a.colors.backgrounds
    case Margins => a.spacing.margins
    case Paddings => a.spacing.paddings
    case Animations => a.animations
  }

  /** The sample field that feeds each tracked list. */
  function Reading(s: Sample, t: Tracked): string {
    match t
    case Fonts => s.fontFamily
    case FontSizes => s.fontSize
    case FontWeights => s.fontWeight
    case LineHeights => s.lineHeight
    case TextColors => s.color
    case Backgrounds => s.backgroundColor
    case Margins => s.margin
    case Paddings => s.padding
    case Animations => s.animation
  }

  const Transparent := "rgba(0, 0, 0, 0)"
  const ZeroPx := "0px"
  const NoAnimation := "none"

  /** The exact string each list refuses besides the empty one; typography lists have none. */
  function Sentinel(t: Tracked): Option<string> {
    match t
    case TextColors | Backgrounds => Some(Transparent)
    case Margins | Paddings => Some(ZeroPx)
    case Animations => Some(NoAnimation)
    case _ => None
  }

  /** The part of the record that absorption never writes: the tracked lists blanked out. */
  function Untouched(a: Analysis): Analysis {
    a.(typography := Typography([], [], [], []),
       colors := a.colors.(textColors := [], backgrounds := []),
       spacing := a.spacing.(margins := [], paddings := []),
       animations := [])
  }

  /** The record invariant: every tracked list is duplicate-free and holds no refused value. */
  ghost predicate Valid(a: Analysis) {
    forall t :: NoDup(Column(a, t)) && Clean(Column(a, t), Sentinel(t))
  }

  /** Two records that agree on the untouched part and on every tracked list are equal. */
  lemma SameAnalysis(a: Analysis, b: Analysis)
    requires Untouched(a) == Untouched(b)
    requires forall t :: Column(a, t) == Column(b, t)
    ensures a == b
  {
    assert Column(a, Fonts) == Column(b, Fonts);
    assert Column(a, FontSizes) == Column(b, FontSizes);
    assert Column(a, FontWeights) == Column(b, FontWeights);
    assert Column(a, LineHeights) == Column(b, LineHeights);
    assert Column(a, TextColors) == Column(b, TextColors);
    assert Column(a, Backgrounds) == Column(b, Backgrounds);
    assert Column(a, Margins) == Column(b, Margins);
    assert Column(a, Paddings) == Column(b, Paddings);
    assert Column(a, Animations) == Column(b, Animations);
  }

  /** The record as `beforeAll` initialises it (:50-58). */
  function Empty(): (a: Analysis)
    ensures Valid(a)
    ensures forall t :: Column(a, t) == []
    ensures a.breakpoints == Breakpoints("", "", "")
  {
    Analysis(Typography([], [], [], []), Colors([], [], [], []), Spacing([], [], []),
             Layout([], [], []), Components([], [], []), Breakpoints("", "", ""), [])
  }

  /** The record after one non-null sample has been absorbed (:134-166). */
  function Absorbed(a: Analysis, s: Sample): (r: Analysis)
    ensures forall t :: Column(r, t) == Insert(Column(a, t), Reading(s, t), Sentinel(t))
    ensures Untouched(r) == Untouched(a)
  {
    a.(typography := a.typography.(
         fonts := Insert(a.typography.fonts, s.fontFamily, None),
         fontSizes := Insert(a.typography.fontSizes, s.fontSize, None),
         fontWeights := Insert(a.typography.fontWeights, s.fontWeight, None),
         lineHeights := Insert(a.typography.lineHeights, s.lineHeight, None)),
       colors := a.colors.(
         textColors := Insert(a.colors.textColors, s.color, Some(Transparent)),
         backgrounds := Insert(a.colors.backgrounds, s.backgroundColor, Some(Transparent))),
       spacing := a.spacing.(
         margins := Insert(a.spacing.margins, s.margin, Some(ZeroPx)),
         paddings := Insert(a.spacing.paddings, s.padding, Some(ZeroPx))),
       animations := Insert(a.animations, s.animation, Some(NoAnimation)))
  }

  lemma AbsorbedValid(a: Analysis, s: Sample)
    requires Valid(a)
    ensures Valid(Absorbed(a, s))
  {
    forall t ensures NoDup(Column(Absorbed(a, s), t)) && Clean(Column(Absorbed(a, s), t), Sentinel(t)) {
      InsertKeeps(Column(a, t), Reading(s, t), Sentinel(t));
    }
  }

  /** Absorbing the same sample twice leaves the state of absorbing it once. */
  lemma AbsorbIdempotent(a: Analysis, s: Sample)
    ensures Absorbed(Absorbed(a, s), s) == Absorbed(a, s)
  {
    var once := Absorbed(a, s);
    forall t ensures Column(Absorbed(once, s), t) == Column(once, t) {
      InsertIdempotent(Column(a, t), Reading(s, t), Sentinel(t));
    }
    SameAnalysis(Absorbed(once, s), once);
  }

  /** The values sample sequence `ss` offers to tracked list `t`, in order. */
  function Readings(ss: seq<Sample>, t: Tracked): (vs: seq<string>)
    ensures |vs| == |ss|
  {
    seq(|ss|, k requires 0 <= k < |ss| => Reading(ss[k], t))
  }

  /** The record after the samples `ss` were absorbed one after another. */
  function AbsorbAll(a: Analysis, ss: seq<Sample>): Analysis
    decreases |ss|
  {
    if ss == [] then a else Absorbed(AbsorbAll(a, ss[..|ss| - 1]), ss[|ss| - 1])
  }

  lemma AbsorbAllSnoc(a: Analysis, ss: seq<Sample>, s: Sample)
    ensures AbsorbAll(a, ss + [s]) == Absorbed(AbsorbAll(a, ss), s)
  {
    assert (ss + [s])[..|ss|] == ss;
  }

  lemma {:induction false} AbsorbAllSplit(a: Analysis, ss: seq<Sample>, us: seq<Sample>)
    ensures AbsorbAll(a, ss + us) == AbsorbAll(AbsorbAll(a, ss), us)
    decreases |us|
  {
    if us == [] {
      assert ss + us == ss;
    } else {
      assert (ss + us)[..|ss + us| - 1] == ss + us[..|us| - 1];
      AbsorbAllSplit(a, ss, us[..|us| - 1]);
    }
  }

  /** A fold of samples is, list by list, the fold of their readings; the rest stays as it was. */
  lemma {:induction false} AbsorbAllColumns(a: Analysis, ss: seq<Sample>)
    ensures forall t :: Column(AbsorbAll(a, ss), t) == InsertAll(Column(a, t), Readings(ss, t), Sentinel(t))
    ensures Untouched(AbsorbAll(a, ss)) == Untouched(a)
    decreases |ss|
  {
    if ss != [] {
      var init := ss[..|ss| - 1];
      AbsorbAllColumns(a, init);
      forall t ensures Readings(ss, t)[..|ss| - 1] == Readings(init, t) {
      }
    }
  }

  /** Absorption only appends: each old list is a prefix of its new value, longer by at most one per sample. */
  lemma AbsorbAllGrows(a: Analysis, ss: seq<Sample>, t: Tracked)
    ensures Column(a, t) <= Column(AbsorbAll(a, ss), t)
    ensures |Column(AbsorbAll(a, ss), t)| <= |Column(a, t)| + |ss|
  {
    AbsorbAllColumns(a, ss);
    InsertAllGrows(Column(a, t), Readings(ss, t), Sentinel(t));
  }

  lemma AbsorbAllValid(a: Analysis, ss: seq<Sample>)
    requires Valid(a)
    ensures Valid(AbsorbAll(a, ss))
  {
    AbsorbAllColumns(a, ss);
    forall t ensures NoDup(Column(AbsorbAll(a, ss), t)) && Clean(Column(AbsorbAll(a, ss), t), Sentinel(t)) {
      InsertAllKeepsInvariant(Column(a, t), Readings(ss, t), Sentinel(t));
    }
  }

  /**
    A value is in a tracked list after the fold exactly when it was there before, or it
    passes that list's filter and some absorbed sample carried it in the feeding field.
   */
  lemma AbsorbAllMembers(a: Analysis, ss: seq<Sample>, t: Tracked, v: string)
    ensures v in Column(AbsorbAll(a, ss), t) <==>
            v in Column(a, t) || (Passes(v, Sentinel(t)) && exists k :: 0 <= k < |ss| && Reading(ss[k], t) == v)
  {
    AbsorbAllColumns(a, ss);
    InsertAllMembers(Column(a, t), Readings(ss, t), Sentinel(t), v);
    if v in Readings(ss, t) {
      var k :| 0 <= k < |ss| && Readings(ss, t)[k] == v;
      assert Reading(ss[k], t) == v;
    }
  }

  /** Starting from the empty record, every tracked list is the first-seen order of the accepted readings. */
  lemma AbsorbAllFirstSeen(ss: seq<Sample>, t: Tracked)
    ensures Column(AbsorbAll(Empty(), ss), t) == FirstSeen(Readings(ss, t), Sentinel(t))
  {
    AbsorbAllColumns(Empty(), ss);
    InsertAllFirstSeen(Readings(ss, t), Sentinel(t));
  }

  lemma ReadingsConcat(us: seq<Sample>, vs: seq<Sample>, t: Tracked)
    ensures Readings(us + vs, t) == Readings(us, t) + Readings(vs, t)
  {
  }

  /** Re-absorbing a sample that was already absorbed, anywhere later in the sequence, changes nothing. */
  lemma AbsorbAllRepeat(a: Analysis, us: seq<Sample>, s: Sample, vs: seq<Sample>)
    requires s in us
    ensures AbsorbAll(a, us + [s] + vs) == AbsorbAll(a, us + vs)
  {
    var with, without := AbsorbAll(a, us + [s] + vs), AbsorbAll(a, us + vs);
    AbsorbAllColumns(a, us + [s] + vs);
    AbsorbAllColumns(a, us + vs);
    forall t ensures Column(with, t) == Column(without, t) {
      RepeatedReading(a, us, s, vs, t);
    }
    SameAnalysis(with, without);
  }

  lemma RepeatedReading(a: Analysis, us: seq<Sample>, s: Sample, vs: seq<Sample>, t: Tracked)
    requires s in us
    ensures InsertAll(Column(a, t), Readings(us + [s] + vs, t), Sentinel(t))
         == InsertAll(Column(a, t), Readings(us + vs, t), Sentinel(t))
  {
    var j :| 0 <= j < |us| && us[j] == s;
    ReadingsConcat(us + [s], vs, t);
    ReadingsConcat(us, [s], t);
    ReadingsConcat(us, vs, t);
    assert Readings([s], t) == [Reading(s, t)];
    assert Readings(us, t)[j] == Reading(s, t);
    InsertAllRepeat(Column(a, t), Readings(us, t), Reading(s, t), Readings(vs, t), Sentinel(t));
  }

  /** No valid record holds an empty string or a sentinel in the list that refuses it. */
  lemma SentinelsExcluded(a: Analysis)
    requires Valid(a)
    ensures Transparent !in a.colors.textColors && Transparent !in a.colors.backgrounds
    ensures ZeroPx !in a.spacing.margins && ZeroPx !in a.spacing.paddings
    ensures NoAnimation !in a.animations
    ensures "" !in a.typography.fonts && "" !in a.typography.fontSizes
    ensures "" !in a.typography.fontWeights && "" !in a.typography.lineHeights
  {
    assert Clean(Column(a, TextColors), Sentinel(TextColors));
    assert Clean(Column(a, Backgrounds), Sentinel(Backgrounds));
    assert Clean(Column(a, Margins), Sentinel(Margins));
    assert Clean(Column(a, Paddings), Sentinel(Paddings));
    assert Clean(Column(a, Animations), Sentinel(Animations));
    assert Clean(Column(a, Fonts), Sentinel(Fonts));
    assert Clean(Column(a, FontSizes), Sentinel(FontSizes));
    assert Clean(Column(a, FontWeights), Sentinel(FontWeights));
    assert Clean(Column(a, LineHeights), Sentinel(LineHeights));
  }

  /** Two `h1` samples of size 32px and one `h2` of 24px give font sizes ["32px", "24px"]. */
  lemma RepeatedHeadingSize(first: Sample, second: Sample, third: Sample)
    requires first.fontSize == "32px" && second.fontSize == "32px" && third.fontSize == "24px"
    ensures AbsorbAll(Empty(), [first, second, third]).typography.fontSizes == ["32px", "24px"]
  {
    var ss := [first, second, third];
    assert ss[..2][..1] == [first];
    assert ss[..2] == [first, second];
    assert AbsorbAll(Empty(), [first]).typography.fontSizes == ["32px"];
  }
}
