/**
  The three device profiles and the breakpoint entries recorded for them
  (tests/randw-style-analysis.spec.ts:263-283).
 */
module Viewport {
  import opened Options
  import opened StyleSample
  import opened Decimal
  import opened Aggregator

  datatype ProfileName = Mobile | Tablet | Desktop

  datatype Profile = Profile(name: ProfileName, width: nat, height: nat)

  const Profiles: seq<Profile> := [
    Profile(Mobile, 375, 667),
    Profile(Tablet, 768, 1024),
    Profile(Desktop, 1440, 900)
  ]

  const WidthSeparator := "px - Container width: "

  /** The breakpoint field named after a profile. */
  function Breakpoint(a: Analysis, n: ProfileName): string {
    match n
    case Mobile => a.breakpoints.mobile
    case Tablet => a.breakpoints.tablet
    case Desktop => a.breakpoints.desktop
  }

  /** The record with one breakpoint field overwritten. */
  function WithBreakpoint(a: Analysis, n: ProfileName, entry: string): (r: Analysis)
    ensures Breakpoint(r, n) == entry
    ensures forall m :: m != n ==> Breakpoint(r, m) == Breakpoint(a, m)
    ensures forall t :: Column(r, t) == Column(a, t)
    ensures Valid(a) ==> Valid(r)
  {
    match n
    case Mobile => a.(breakpoints := a.breakpoints.(mobile := entry))
    case Tablet => a.(breakpoints := a.breakpoints.(tablet := entry))
    case Desktop => a.(breakpoints := a.breakpoints.(desktop := entry))
  }

  /** `bodyStyles.maxWidth || bodyStyles.width` */
  function ContainerWidth(body: Sample): (w: string)
    ensures body.maxWidth != "" ==> w == body.maxWidth
    ensures body.maxWidth == "" ==> w == body.width
  {
    if body.maxWidth != "" then body.maxWidth else body.width
  }

  /** The entry text: the profile width in pixels, then the body's container width. */
  function Label(p: Profile, body: Sample): string {
    NatToString(p.width) + WidthSeparator + ContainerWidth(body)
  }

  /** Reads an entry back into its pixel width and container width. */
  function ParseLabel(entry: string): Option<(nat, string)> {
    var k := LeadingDigits(entry);
    var rest := entry[k..];
    if k == 0 || |rest| < |WidthSeparator| || rest[..|WidthSeparator|] != WidthSeparator then None
    else Some((ParseDecimal(entry[..k]), rest[|WidthSeparator|..]))
  }

  /** An entry determines the width and the container width it was made from. */
  lemma ParseLabelRoundTrip(p: Profile, body: Sample)
    ensures ParseLabel(Label(p, body)) == Some((p.width, ContainerWidth(body)))
  {
    var digits, tail := NatToString(p.width), WidthSeparator + ContainerWidth(body);
    assert Label(p, body) == digits + tail;
    LeadingDigitsOfNumeral(digits, tail);
    assert (digits + tail)[..|digits|] == digits;
    assert (digits + tail)[|digits|..] == tail;
    assert tail[..|WidthSeparator|] == WidthSeparator;
    assert tail[|WidthSeparator|..] == ContainerWidth(body);
    ParseNatToString(p.width);
  }

  /**
    Processing one profile: a body sample overwrites the profile's entry with its label;
    a `null` answer leaves the record as it was.
   */
  function Recorded(a: Analysis, p: Profile, body: ProbeOutcome): Analysis {
    if body.Observed? then WithBreakpoint(a, p.name, Label(p, body.sample)) else a
  }

  /**
    The record after the profiles `ps` were processed in order, `bodyAt` giving what each
    iteration yields, and whether the pass got through all of them. No statement of the
    responsive test is inside a try block, so an iteration that throws (resizing, waiting,
    the screenshot or the body sample) ends the pass and the later profiles are not visited.
   */
  function RecordedAll(a: Analysis, ps: seq<Profile>, bodyAt: Profile -> ProbeOutcome): (Analysis, bool)
    decreases |ps|
  {
    if ps == [] then (a, true)
    else
      var (r, ok) := RecordedAll(a, ps[..|ps| - 1], bodyAt);
      var p := ps[|ps| - 1];
      if !ok || bodyAt(p).Threw? then (r, false)
      else (Recorded(r, p, bodyAt(p)), true)
  }

  /** Once an iteration has thrown, the profiles after it change nothing. */
  lemma {:induction false} RecordedAllStopped(a: Analysis, ps: seq<Profile>, j: nat, bodyAt: Profile -> ProbeOutcome)
    requires j <= |ps|
    requires !RecordedAll(a, ps[..j], bodyAt).1
    ensures RecordedAll(a, ps, bodyAt) == RecordedAll(a, ps[..j], bodyAt)
    decreases |ps|
  {
    if j < |ps| {
      var init := ps[..|ps| - 1];
      assert init[..j] == ps[..j];
      RecordedAllStopped(a, init, j, bodyAt);
    } else {
      assert ps[..j] == ps;
    }
  }

  /** The entry a profile ends up with when its iteration is reached. */
  function FinalEntry(oldEntry: string, p: Profile, body: ProbeOutcome): string {
    if body.Observed? then Label(p, body.sample) else oldEntry
  }

  /**
    After the responsive pass, each profile's entry is its label when its body sample was
    seen, and is unchanged when the sample was `null`, when its own iteration threw, or when
    an earlier iteration threw. The pass completes iff no iteration threw. No tracked list
    changes, and the invariant is kept.
   */
  lemma ResponsiveEntries(a: Analysis, bodyAt: Profile -> ProbeOutcome)
    ensures var r := RecordedAll(a, Profiles, bodyAt);
      var m, t, d := bodyAt(Profiles[0]), bodyAt(Profiles[1]), bodyAt(Profiles[2]);
      && Breakpoint(r.0, Mobile) == FinalEntry(a.breakpoints.mobile, Profiles[0], m)
      && Breakpoint(r.0, Tablet)
         == (if m.Threw? then a.breakpoints.tablet else FinalEntry(a.breakpoints.tablet, Profiles[1], t))
      && Breakpoint(r.0, Desktop)
         == (if m.Threw? || t.Threw? then a.breakpoints.desktop else FinalEntry(a.breakpoints.desktop, Profiles[2], d))
      && (r.1 <==> !m.Threw? && !t.Threw? && !d.Threw?)
      && (forall c :: Column(r.0, c) == Column(a, c))
      && (Valid(a) ==> Valid(r.0))
  {
    var m, t, d := Profiles[0], Profiles[1], Profiles[2];
    assert [m][..0] == [];
    assert RecordedAll(a, [], bodyAt) == (a, true);
    var r1 := RecordedAll(a, [m], bodyAt);
    assert [m, t][..1] == [m];
    var r2 := RecordedAll(a, [m, t], bodyAt);
    assert Profiles[..2] == [m, t];
    assert RecordedAll(a, Profiles, bodyAt) == (if !r2.1 || bodyAt(d).Threw? then (r2.0, false) else (Recorded(r2.0, d, bodyAt(d)), true));
  }

  /** Every entry begins with the profile width followed by "px": 375px, 768px and 1440px. */
  lemma LabelsStartWithWidth(body: Sample)
    ensures "375px" <= Label(Profiles[0], body)
    ensures "768px" <= Label(Profiles[1], body)
    ensures "1440px" <= Label(Profiles[2], body)
  {
    assert NatToString(375) == "375";
    assert NatToString(768) == "768";
    assert NatToString(1440) == "1440";
  }
}
