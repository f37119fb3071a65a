/**
  The Markdown summary written after all tests (tests/randw-style-analysis.spec.ts:294-330):
  a pure projection of the record, lists in their stored order, with no further deduplication.
 */
module Report {
  import opened StyleSample
  import opened Aggregator

  /** `xs.join(sep)` */
  function Join(xs: seq<string>, sep: string): string
    decreases |xs|
  {
    if |xs| == 0 then ""
    else if |xs| == 1 then xs[0]
    else xs[0] + sep + Join(xs[1..], sep)
  }

  /** `xs.map(x => `- ${x}`)` */
  function BulletLines(xs: seq<string>): (lines: seq<string>)
    ensures |lines| == |xs|
  {
    seq(|xs|, i requires 0 <= i < |xs| => "- " + xs[i])
  }

  /** `xs.map(x => `- ${x}`).join('\n')` */
  function Bullets(xs: seq<string>): string {
    Join(BulletLines(xs), "\n")
  }

  /** The lists rendered on one line after their label; the others get a heading line and bullet lines. */
  predicate OnOneLine(t: Tracked) {
    t.Fonts? || t.FontSizes? || t.FontWeights? || t.LineHeights?
  }

  /** How a tracked list is rendered: typography as one comma-separated line, the rest as bullet lines. */
  function Section(a: Analysis, t: Tracked): string {
    if OnOneLine(t) then Join(Column(a, t), ", ") else Bullets(Column(a, t))
  }

  /** The label or heading line that introduces a tracked list in the report. */
  function Heading(t: Tracked): string {
    match t
    case Fonts => "- **Fonts**: "
    case FontSizes => "- **Font Sizes**: "
    case FontWeights => "- **Font Weights**: "
    case LineHeights => "- **Line Heights**: "
    case TextColors => "### Text Colors"
    case Backgrounds => "### Background Colors"
    case Margins => "### Margins"
    case Paddings => "### Padding"
    case Animations => "## Animations"
  }

  /** A tracked list as the report shows it, up to and including its final line break. */
  function Shown(a: Analysis, t: Tracked): string {
    if OnOneLine(t) then Heading(t) + Section(a, t) + "\n"
    else Heading(t) + "\n" + Section(a, t) + "\n"
  }

  function BreakpointLine(profile: string, entry: string): string {
    "- **" + profile + "**: " + entry + "\n"
  }

  /** The pieces `parts` written one after another. */
  function Concat(parts: seq<string>): string
    decreases |parts|
  {
    if parts == [] then "" else parts[0] + Concat(parts[1..])
  }

  /** The pieces of each `##` section of the template, in order. */
  function TypographyBlock(a: Analysis): seq<string> {
    ["## Typography\n", Shown(a, Fonts), Shown(a, FontSizes), Shown(a, FontWeights), Shown(a, LineHeights), "\n"]
  }

  function ColorsBlock(a: Analysis): seq<string> {
    ["## Colors\n", Shown(a, TextColors), "\n", Shown(a, Backgrounds), "\n"]
  }

  function SpacingBlock(a: Analysis): seq<string> {
    ["## Spacing\n", Shown(a, Margins), "\n", Shown(a, Paddings), "\n"]
  }

  function BreakpointsBlock(a: Analysis): seq<string> {
    [ "## Responsive Breakpoints\n",
      BreakpointLine("Mobile", a.breakpoints.mobile),
      BreakpointLine("Tablet", a.breakpoints.tablet),
      BreakpointLine("Desktop", a.breakpoints.desktop),
      "\n" ]
  }

  function AnimationsBlock(a: Analysis): seq<string> {
    [Shown(a, Animations), "\n"]
  }

  function ScreenshotsBlock(screenshotsDir: string): seq<string> {
    [ "## Screenshots\n",
      "Screenshots have been saved to: " + screenshotsDir + "\n",
      "- Homepage sections\n",
      "- Property listings/cards\n",
      "- Property detail pages\n",
      "- Responsive views (mobile, tablet, desktop)\n" ]
  }

  /** The report's sections in template order, the title first. */
  function Sections(a: Analysis, screenshotsDir: string): seq<seq<string>> {
    [ ["# R&W Website Style Analysis Report\n", "\n"],
      TypographyBlock(a),
      ColorsBlock(a),
      SpacingBlock(a),
      BreakpointsBlock(a),
      AnimationsBlock(a),
      ScreenshotsBlock(screenshotsDir) ]
  }

  /** The pieces of all `blocks`, block after block. */
  function Flatten(blocks: seq<seq<string>>): seq<string>
    decreases |blocks|
  {
    if blocks == [] then [] else blocks[0] + Flatten(blocks[1..])
  }

  /** The report text; `screenshotsDir` is the directory path the run computed. */
  function Render(a: Analysis, screenshotsDir: string): string {
    Concat(Flatten(Sections(a, screenshotsDir)))
  }

  /** `u` occurs in `s`. */
  ghost predicate Contains(s: string, u: string) {
    exists i :: 0 <= i <= |s| && u <= s[i..]
  }

  /** Every piece of every block is a piece of the flattening. */
  lemma {:induction false} FlattenMember(blocks: seq<seq<string>>, block: seq<string>, u: string)
    requires block in blocks && u in block
    ensures u in Flatten(blocks)
    decreases |blocks|
  {
    if blocks[0] != block {
      FlattenMember(blocks[1..], block, u);
    }
  }

  /** Every piece occurs in the concatenation. */
  lemma {:induction false} ConcatContains(parts: seq<string>, k: nat)
    requires k < |parts|
    ensures Contains(Concat(parts), parts[k])
    decreases k
  {
    var rest := Concat(parts[1..]);
    if k == 0 {
      assert Concat(parts)[0..] == parts[0] + rest;
    } else {
      ConcatContains(parts[1..], k - 1);
      var i :| 0 <= i <= |rest| && parts[k] <= rest[i..];
      assert Concat(parts)[|parts[0]| + i..] == rest[i..];
    }
  }

  /** A piece of any section occurs in the report. */
  lemma RenderShowsPiece(a: Analysis, screenshotsDir: string, block: seq<string>, u: string)
    requires block in Sections(a, screenshotsDir) && u in block
    ensures Contains(Render(a, screenshotsDir), u)
  {
    var pieces := Flatten(Sections(a, screenshotsDir));
    FlattenMember(Sections(a, screenshotsDir), block, u);
    var j :| 0 <= j < |pieces| && pieces[j] == u;
    ConcatContains(pieces, j);
  }

  /** The section that holds a tracked list. */
  function BlockOf(a: Analysis, t: Tracked): seq<string> {
    if OnOneLine(t) then TypographyBlock(a)
    else if t.TextColors? || t.Backgrounds? then ColorsBlock(a)
    else if t.Margins? || t.Paddings? then SpacingBlock(a)
    else AnimationsBlock(a)
  }

  lemma ShownInBlock(a: Analysis, t: Tracked)
    ensures Shown(a, t) in BlockOf(a, t)
  {
    match t {
      case Fonts => assert TypographyBlock(a)[1] == Shown(a, t);
      case FontSizes => assert TypographyBlock(a)[2] == Shown(a, t);
      case FontWeights => assert TypographyBlock(a)[3] == Shown(a, t);
      case LineHeights => assert TypographyBlock(a)[4] == Shown(a, t);
      case TextColors => assert ColorsBlock(a)[1] == Shown(a, t);
      case Backgrounds => assert ColorsBlock(a)[3] == Shown(a, t);
      case Margins => assert SpacingBlock(a)[1] == Shown(a, t);
      case Paddings => assert SpacingBlock(a)[3] == Shown(a, t);
      case Animations => assert AnimationsBlock(a)[0] == Shown(a, t);
    }
  }

  lemma BlockInSections(a: Analysis, screenshotsDir: string, t: Tracked)
    ensures BlockOf(a, t) in Sections(a, screenshotsDir)
  {
  }

  /**
    The report shows every tracked list as `Shown` renders it: a typography list on its
    labelled line, any other list as its heading line followed by its bullet lines.
   */
  lemma RenderShowsSections(a: Analysis, screenshotsDir: string, t: Tracked)
    ensures Contains(Render(a, screenshotsDir), Shown(a, t))
  {
    ShownInBlock(a, t);
    BlockInSections(a, screenshotsDir, t);
    RenderShowsPiece(a, screenshotsDir, BlockOf(a, t), Shown(a, t));
  }

  /** The report shows each breakpoint entry on its own labelled line. */
  lemma RenderShowsBreakpoints(a: Analysis, screenshotsDir: string)
    ensures Contains(Render(a, screenshotsDir), BreakpointLine("Mobile", a.breakpoints.mobile))
    ensures Contains(Render(a, screenshotsDir), BreakpointLine("Tablet", a.breakpoints.tablet))
    ensures Contains(Render(a, screenshotsDir), BreakpointLine("Desktop", a.breakpoints.desktop))
  {
    var block := BreakpointsBlock(a);
    assert block in Sections(a, screenshotsDir);
    RenderShowsPiece(a, screenshotsDir, block, block[1]);
    RenderShowsPiece(a, screenshotsDir, block, block[2]);
    RenderShowsPiece(a, screenshotsDir, block, block[3]);
  }

  /** The pieces of `s` between occurrences of `c`, as `s.split(c)` gives them. */
  function SplitOn(s: string, c: char): (parts: seq<string>)
    ensures |parts| >= 1
    decreases |s|
  {
    if s == [] then [""]
    else
      var rest := SplitOn(s[1..], c);
      if s[0] == c then [""] + rest else [[s[0]] + rest[0]] + rest[1..]
  }

  lemma {:induction false} SplitOnAfter(a: string, b: string, c: char)
    requires c !in a
    ensures SplitOn(a + [c] + b, c) == [a] + SplitOn(b, c)
    decreases |a|
  {
    if a == [] {
      assert a + [c] + b == [c] + b;
      assert ([c] + b)[1..] == b;
    } else {
      assert (a + [c] + b)[1..] == a[1..] + [c] + b;
      SplitOnAfter(a[1..], b, c);
      assert [a[0]] + a[1..] == a;
    }
  }

  lemma {:induction false} SplitOnWhole(a: string, c: char)
    requires c !in a
    ensures SplitOn(a, c) == [a]
    decreases |a|
  {
    if a != [] {
      SplitOnWhole(a[1..], c);
      assert [a[0]] + a[1..] == a;
    }
  }

  /** Splitting a join on a one-character separator that no item contains gives the items back. */
  lemma {:induction false} SplitJoin(xs: seq<string>, c: char)
    requires |xs| > 0
    requires forall i :: 0 <= i < |xs| ==> c !in xs[i]
    ensures SplitOn(Join(xs, [c]), c) == xs
    decreases |xs|
  {
    if |xs| == 1 {
      SplitOnWhole(xs[0], c);
    } else {
      SplitJoin(xs[1..], c);
      SplitOnAfter(xs[0], Join(xs[1..], [c]), c);
      assert [xs[0]] + xs[1..] == xs;
    }
  }

  /**
    Each stored value becomes one bullet line, in stored order and with repeats kept, as
    long as no value contains a newline; an empty list renders as the empty string.
   */
  lemma BulletsRoundTrip(xs: seq<string>)
    requires forall i :: 0 <= i < |xs| ==> '\n' !in xs[i]
    ensures xs == [] ==> Bullets(xs) == ""
    ensures xs != [] ==> SplitOn(Bullets(xs), '\n') == BulletLines(xs)
  {
    if xs != [] {
      forall i | 0 <= i < |xs| ensures '\n' !in BulletLines(xs)[i] {
        assert BulletLines(xs)[i] == "- " + xs[i];
      }
      SplitJoin(BulletLines(xs), '\n');
    }
  }

  /** Appending an item to a non-empty list appends the separator and the item to the join. */
  lemma {:induction false} JoinSnoc(xs: seq<string>, x: string, sep: string)
    requires |xs| > 0
    ensures Join(xs + [x], sep) == Join(xs, sep) + sep + x
    decreases |xs|
  {
    if |xs| > 1 {
      assert (xs + [x])[1..] == xs[1..] + [x];
      JoinSnoc(xs[1..], x, sep);
    }
  }

  /** The join of a prefix of a list is a prefix of the join of the list. */
  lemma {:induction false} JoinPrefix(xs: seq<string>, ys: seq<string>, sep: string)
    requires xs <= ys
    ensures Join(xs, sep) <= Join(ys, sep)
    decreases |ys|
  {
    if |xs| < |ys| {
      var init := ys[..|ys| - 1];
      assert xs <= init;
      JoinPrefix(xs, init, sep);
      if |init| > 0 {
        assert init + [ys[|ys| - 1]] == ys;
        JoinSnoc(init, ys[|ys| - 1], sep);
      }
    } else {
      assert xs == ys;
    }
  }

  /**
    Since absorption only appends, the rendered text of every tracked section after more
    samples extends the text before them.
   */
  lemma SectionsGrow(a: Analysis, ss: seq<Sample>, t: Tracked)
    ensures Section(a, t) <= Section(AbsorbAll(a, ss), t)
  {
    var before, after := Column(a, t), Column(AbsorbAll(a, ss), t);
    AbsorbAllGrows(a, ss, t);
    if OnOneLine(t) {
      JoinPrefix(before, after, ", ");
    } else {
      assert BulletLines(before) <= BulletLines(after);
      JoinPrefix(BulletLines(before), BulletLines(after), "\n");
    }
  }
}
