/** Contrast ratios as in WCAG 2.1 (success criteria 1.4.3 and 1.4.11), and the searches for a paint
    that keeps one. The sRGB transfer curve and the OKLab conversions are only called. */
module Contrast {
  import opened Common
  import opened Reals
  import opened Color

  type Light = x: real | 0.0 <= x <= 1.0

  /** The linear light of a channel. */
  type Curve = Channel -> Light

  /** No light at 0, full light at 255. */
  predicate Transfer(linear: Curve) {
    linear(0) == 0.0 && linear(255) == 1.0
  }

  function Luminance(linear: Curve, c: Color): Light {
    0.2126 * linear(c.r) + 0.7152 * linear(c.g) + 0.0722 * linear(c.b)
  }

  function Ratio(x: Light, y: Light): real {
    if x < y then (y + 0.05) / (x + 0.05) else (x + 0.05) / (y + 0.05)
  }

  /** `paint` composited over `background` reaches the contrast `floor` against it. */
  predicate Reaches(linear: Curve, paint: Color, background: Color, floor: real) {
    Ratio(Luminance(linear, SourceOver(paint, background)), Luminance(linear, background)) >= floor
  }

  predicate ReachesAll(linear: Curve, paint: Color, backgrounds: seq<Color>, floor: real) {
    forall b <- backgrounds :: Reaches(linear, paint, b, floor)
  }

  /** On every surface the contrasts of black and of white multiply to 21, so one of them reaches the
      square root of 21. */
  lemma NeutralsMultiply(y: Light)
    ensures Ratio(0.0, y) * Ratio(1.0, y) == 21.0
  {
    var s := y + 0.05;
    assert Ratio(0.0, y) == s / 0.05 && Ratio(1.0, y) == 1.05 / s;
    assert s / 0.05 * (1.05 / s) == 21.0;
  }

  lemma OneNeutralReaches(y: Light, floor: real)
    requires 0.0 <= floor && floor * floor <= 21.0
    ensures Ratio(0.0, y) >= floor || Ratio(1.0, y) >= floor
  {
    NeutralsMultiply(y);
    var p, q := Ratio(0.0, y), Ratio(1.0, y);
    assert p > 0.0 && q > 0.0;
    if p < floor && q < floor { ProductLess(p, q, floor); }
  }

  lemma ProductLess(p: real, q: real, f: real)
    requires 0.0 < p < f && 0.0 < q < f
    ensures p * q < f * f
  {
    Positive(f - p, q, f * q - p * q);
    Positive(f - q, f, f * f - f * q);
  }

  lemma NeutralLuminance(linear: Curve, d: Color)
    requires Transfer(linear)
    ensures Luminance(linear, SourceOver(Black, d)) == 0.0 && Luminance(linear, SourceOver(White, d)) == 1.0
  {
    OpaqueCovers(Black, d);
    OpaqueCovers(White, d);
  }

  /** `foreground` where it reaches `minimum`, else black or white, whichever contrasts more (black on a tie). */
  function Chosen(linear: Curve, foreground: Color, background: Color, minimum: real): Color {
    if Reaches(linear, foreground, background, minimum) then foreground
    else if Ratio(Luminance(linear, Black), Luminance(linear, background)) >= Ratio(Luminance(linear, White), Luminance(linear, background))
    then Black else White
  }

  /** On every surface, whatever was proposed, the chosen paint reaches every floor up to the square
      root of 21; and a readable proposal is kept. */
  lemma ChosenReaches(linear: Curve, foreground: Color, background: Color, minimum: real)
    requires Transfer(linear) && 0.0 <= minimum && minimum * minimum <= 21.0
    ensures
      var c := Chosen(linear, foreground, background, minimum);
      Reaches(linear, c, background, minimum) && (Reaches(linear, foreground, background, minimum) ==> c == foreground)
  {
    NeutralLuminance(linear, background);
    OneNeutralReaches(Luminance(linear, background), minimum);
  }

  // Searching along a path of paints.

  /** The amounts a search meets are a sixteenth of the way, halved twelve times at most, so a position
      on a path is counted in 65536ths of it. */
  const Whole: nat := 65536
  const Sixteenth: nat := 4096
  const Steps: nat := 16
  const Halvings: nat := 12

  /** The paints from the proposal, at position 0, to an end, at `Whole`; some positions have none. */
  type Path = nat -> Option<Color>

  predicate Good(at: Path, ok: Color -> bool, x: nat) {
    at(x).Some? && ok(at(x).value)
  }

  /** Halves the way from a paint that is not good to one that is, keeping the last good one. */
  function Halve(at: Path, ok: Color -> bool, lower: nat, upper: nat, kept: Color, halvings: nat): (Color, nat)
    decreases halvings
  {
    if halvings == 0 then (kept, upper)
    else
      var middle := (lower + upper) / 2;
      var good := Good(at, ok, middle);
      Halve(at, ok, if good then lower else middle, if good then middle else upper, if good then at(middle).value else kept, halvings - 1)
  }

  /** Walks sixteen steps to the first good paint, then halves back toward the proposal. */
  function Walk(at: Path, ok: Color -> bool, n: nat): Option<(Color, nat)>
    requires n <= Steps
    decreases Steps - n
  {
    if n == Steps then None
    else if !Good(at, ok, (n + 1) * Sixteenth) then Walk(at, ok, n + 1)
    else Some(Halve(at, ok, n * Sixteenth, (n + 1) * Sixteenth, at((n + 1) * Sixteenth).value, Halvings))
  }

  function Found(at: Path, ok: Color -> bool): Option<(Color, nat)> {
    Walk(at, ok, 0)
  }

  method Search(at: Path, ok: Color -> bool) returns (found: Option<(Color, nat)>)
    ensures found == Found(at, ok)
  {
    var previous := 0;
    for n := 0 to Steps
      invariant previous == n * Sixteenth && Walk(at, ok, n) == Found(at, ok)
    {
      var amount := (n + 1) * Sixteenth;
      if at(amount).None? || !ok(at(amount).value) {
        previous := amount;
        continue;
      }
      var settled := HalveBack(at, ok, previous, amount, at(amount).value);
      return Some(settled);
    }
    return None;
  }

  method HalveBack(at: Path, ok: Color -> bool, start: nat, end: nat, good: Color) returns (r: (Color, nat))
    ensures r == Halve(at, ok, start, end, good, Halvings)
  {
    var readable, lower, upper := good, start, end;
    for i := 0 to Halvings
      invariant Halve(at, ok, lower, upper, readable, Halvings - i) == Halve(at, ok, start, end, good, Halvings)
    {
      var middle := (lower + upper) / 2;
      if at(middle).Some? && ok(at(middle).value) {
        readable := at(middle).value;
        upper := middle;
      } else {
        lower := middle;
      }
    }
    return (readable, upper);
  }

  /** `x` is where a search settled: a good paint, with none one position nearer the proposal unless
      that is the proposal itself. */
  predicate Settles(at: Path, ok: Color -> bool, x: nat, paint: Color) {
    0 < x <= Whole && at(x) == Some(paint) && ok(paint) && (x == 1 || !Good(at, ok, x - 1))
  }

  function Power(n: nat): nat {
    if n == 0 then 1 else 2 * Power(n - 1)
  }

  lemma {:induction false} HalveSettles(at: Path, ok: Color -> bool, lower: nat, upper: nat, kept: Color, halvings: nat)
    requires lower < upper <= Whole && upper - lower == Power(halvings)
    requires at(upper) == Some(kept) && ok(kept) && (lower == 0 || !Good(at, ok, lower))
    ensures var (c, x) := Halve(at, ok, lower, upper, kept, halvings); Settles(at, ok, x, c)
    decreases halvings
  {
    if halvings > 0 {
      var middle := (lower + upper) / 2;
      if Good(at, ok, middle) { HalveSettles(at, ok, lower, middle, at(middle).value, halvings - 1); }
      else { HalveSettles(at, ok, middle, upper, kept, halvings - 1); }
    }
  }

  lemma AllHalvings()
    ensures Power(Halvings) == Sixteenth
  {
    assert Power(3) == 8 && Power(6) == 64 && Power(9) == 512 && Power(12) == 4096;
  }

  lemma {:induction false} WalkSettles(at: Path, ok: Color -> bool, n: nat)
    requires n <= Steps && (n > 0 ==> !Good(at, ok, n * Sixteenth))
    ensures
      var found := Walk(at, ok, n);
      && (found.None? <==> forall k | n < k <= Steps :: !Good(at, ok, k * Sixteenth))
      && (found.Some? ==> Settles(at, ok, found.value.1, found.value.0))
    decreases Steps - n
  {
    if n < Steps {
      if !Good(at, ok, (n + 1) * Sixteenth) { WalkSettles(at, ok, n + 1); }
      else {
        AllHalvings();
        HalveSettles(at, ok, n * Sixteenth, (n + 1) * Sixteenth, at((n + 1) * Sixteenth).value, Halvings);
      }
    }
  }

  /** A search finds a paint exactly when one of the sixteen steps is good, and then settles. */
  lemma SearchSettles(at: Path, ok: Color -> bool)
    ensures
      var found := Found(at, ok);
      && (found.None? <==> forall k | 0 < k <= Steps :: !Good(at, ok, k * Sixteenth))
      && (found.Some? ==> Settles(at, ok, found.value.1, found.value.0))
  {
    WalkSettles(at, ok, 0);
  }

  // Paints of one hue.

  /** A paint's OKLab lightness and hue, and the color channels of a lightness and a share of a hue's
      chroma when they are within the sRGB gamut. */
  datatype Space = Space(
    to: Color -> (real, (real, real)),
    from: (real, (real, real), real) -> Option<(Channel, Channel, Channel)>)

  function FromOklab(space: Space, l: real, hue: (real, real), share: real, alpha: Channel): Option<Color> {
    match space.from(l, hue, share)
    case None => None
    case Some((red, green, blue)) => Some(Color(red, green, blue, alpha))
  }

  /** The paints of one lightness and hue, by how many 4096ths of the chroma they have. */
  function Chroma(space: Space, l: real, hue: (real, real), alpha: Channel): Path {
    (share: nat) => FromOklab(space, l, hue, share as real / Sixteenth as real, alpha)
  }

  /** Halves chroma in until the gamut admits it, keeping the last paint it admitted. */
  function Inward(at: Path, lower: nat, upper: nat, kept: Color, halvings: nat): Color
    decreases halvings
  {
    if halvings == 0 then kept
    else
      var scale := (lower + upper) / 2;
      var c := at(scale);
      Inward(at, if c.Some? then scale else lower, if c.Some? then upper else scale, if c.Some? then c.value else kept, halvings - 1)
  }

  /** The paint of a hue at a lightness, with its chroma as far as the gamut admits. */
  function CandidateAt(space: Space, l: real, hue: (real, real), alpha: Channel): Option<Color> {
    var exact, gray := FromOklab(space, l, hue, 1.0, alpha), FromOklab(space, l, hue, 0.0, alpha);
    if exact.Some? then exact
    else if gray.None? then None
    else Some(Inward(Chroma(space, l, hue, alpha), 0, Sixteenth, gray.value, Halvings))
  }

  lemma {:induction false} InwardKeepsAlpha(space: Space, l: real, hue: (real, real), alpha: Channel, lower: nat, upper: nat, kept: Color, halvings: nat)
    requires kept.a == alpha
    ensures Inward(Chroma(space, l, hue, alpha), lower, upper, kept, halvings).a == alpha
    decreases halvings
  {
    if halvings > 0 {
      var scale := (lower + upper) / 2;
      var c := Chroma(space, l, hue, alpha)(scale);
      assert c == FromOklab(space, l, hue, scale as real / Sixteenth as real, alpha);
      InwardKeepsAlpha(space, l, hue, alpha, if c.Some? then scale else lower, if c.Some? then upper else scale,
                       if c.Some? then c.value else kept, halvings - 1);
    }
  }

  lemma CandidateKeepsAlpha(space: Space, l: real, hue: (real, real), alpha: Channel)
    ensures var c := CandidateAt(space, l, hue, alpha); c.Some? ==> c.value.a == alpha
  {
    var gray := FromOklab(space, l, hue, 0.0, alpha);
    if gray.Some? { InwardKeepsAlpha(space, l, hue, alpha, 0, Sixteenth, gray.value, Halvings); }
  }

  method HalveInward(at: Path, gray: Color) returns (kept: Color)
    ensures kept == Inward(at, 0, Sixteenth, gray, Halvings)
  {
    var lower, upper := 0, Sixteenth;
    kept := gray;
    for i := 0 to Halvings
      invariant Inward(at, lower, upper, kept, Halvings - i) == Inward(at, 0, Sixteenth, gray, Halvings)
    {
      var scale := (lower + upper) / 2;
      var inGamut := at(scale);
      if inGamut.Some? {
        kept := inGamut.value;
        lower := scale;
      } else {
        upper := scale;
      }
    }
  }

  method Candidate(space: Space, l: real, hue: (real, real), alpha: Channel) returns (c: Option<Color>)
    ensures c == CandidateAt(space, l, hue, alpha)
  {
    c := FromOklab(space, l, hue, 1.0, alpha);
    if c.Some? { return; }
    c := FromOklab(space, l, hue, 0.0, alpha);
    if c.None? { return; }
    var kept := HalveInward(Chroma(space, l, hue, alpha), c.value);
    return Some(kept);
  }

  /** From `start` to `end`, as far as position `x` is. */
  function Toward(start: real, end: real, x: nat): real {
    start + (end - start) * Amount(x)
  }

  function Amount(x: nat): real {
    x as real / Whole as real
  }

  /** The ways a search goes: to another lightness of the same hue, or into a neutral. */
  datatype Way = ToLightness(end: real) | ToNeutral(neutral: Color)

  function PathOf(space: Space, paint: Color, way: Way): Path {
    match way
    case ToLightness(end) =>
      var lab := space.to(paint);
      (x: nat) => CandidateAt(space, Toward(lab.0, end, x), lab.1, paint.a)
    case ToNeutral(neutral) => (x: nat) => Some(Mix(paint, neutral, Amount(x)))
  }

  function Readable(linear: Curve, backgrounds: seq<Color>, floor: real): Color -> bool {
    (c: Color) => ReachesAll(linear, c, backgrounds, floor)
  }

  /** How far the paint's lightness is from `end`. */
  function Distance(space: Space, paint: Color, end: real): real {
    var l := space.to(paint).0;
    if end < l then l - end else end - l
  }

  /** The nearer of two finds, each at its distance's scale; the first of equals. */
  function Nearer(x: Option<(Color, nat)>, dx: real, y: Option<(Color, nat)>, dy: real): Option<Color> {
    if x.None? && y.None? then None
    else if y.None? || (x.Some? && dx * Amount(x.value.1) <= dy * Amount(y.value.1)) then Some(x.value.0)
    else Some(y.value.0)
  }

  /** The nearer of what two searches find. */
  function Both(one: Path, dx: real, other: Path, dy: real, ok: Color -> bool): Option<Color> {
    Nearer(Found(one, ok), dx, Found(other, ok), dy)
  }

  /** The nearest readable paint of the same hue, darker or lighter. */
  function ByLightness(space: Space, paint: Color, ok: Color -> bool): Option<Color> {
    Both(PathOf(space, paint, ToLightness(0.0)), Distance(space, paint, 0.0),
         PathOf(space, paint, ToLightness(1.0)), Distance(space, paint, 1.0), ok)
  }

  function ByNeutral(space: Space, paint: Color, ok: Color -> bool): Option<Color> {
    Both(PathOf(space, paint, ToNeutral(Black)), 1.0, PathOf(space, paint, ToNeutral(White)), 1.0, ok)
  }

  /** The nearest readable paint of the same hue and chroma; opacity and chroma yield, toward a
      neutral, only when no lightness is readable. */
  function ReadablePaint(linear: Curve, space: Space, paint: Color, backgrounds: seq<Color>, floor: real): Option<Color> {
    var ok := Readable(linear, backgrounds, floor);
    if ok(paint) then Some(paint)
    else if ByLightness(space, paint, ok).Some? then ByLightness(space, paint, ok)
    else ByNeutral(space, paint, ok)
  }

  method SearchBoth(one: Path, dx: real, other: Path, dy: real, ok: Color -> bool) returns (r: Option<Color>)
    ensures r == Both(one, dx, other, dy, ok)
  {
    var first := Search(one, ok);
    var second := Search(other, ok);
    return Nearer(first, dx, second, dy);
  }

  method SolveLightness(space: Space, paint: Color, ok: Color -> bool) returns (r: Option<Color>)
    ensures r == ByLightness(space, paint, ok)
  {
    var dark, light := Distance(space, paint, 0.0), Distance(space, paint, 1.0);
    r := SearchBoth(PathOf(space, paint, ToLightness(0.0)), dark, PathOf(space, paint, ToLightness(1.0)), light, ok);
  }

  method SolveNeutral(space: Space, paint: Color, ok: Color -> bool) returns (r: Option<Color>)
    ensures r == ByNeutral(space, paint, ok)
  {
    r := SearchBoth(PathOf(space, paint, ToNeutral(Black)), 1.0, PathOf(space, paint, ToNeutral(White)), 1.0, ok);
  }

  method ReadablePreservingChroma(linear: Curve, space: Space, paint: Color, backgrounds: seq<Color>, floor: real)
    returns (r: Option<Color>)
    ensures r == ReadablePaint(linear, space, paint, backgrounds, floor)
  {
    var ok := Readable(linear, backgrounds, floor);
    if ok(paint) { return Some(paint); }
    r := SolveLightness(space, paint, ok);
    if r.Some? { return; }
    r := SolveNeutral(space, paint, ok);
  }

  /** The four searches the program makes. */
  predicate Searched(way: Way) {
    way == ToLightness(0.0) || way == ToLightness(1.0) || way == ToNeutral(Black) || way == ToNeutral(White)
  }

  ghost predicate SettlesOn(space: Space, paint: Color, way: Way, ok: Color -> bool, c: Color) {
    exists x: nat :: Settles(PathOf(space, paint, way), ok, x, c)
  }

  lemma FoundSettles(space: Space, paint: Color, way: Way, ok: Color -> bool)
    ensures
      var found := Found(PathOf(space, paint, way), ok);
      found.Some? ==> ok(found.value.0) && SettlesOn(space, paint, way, ok, found.value.0)
  {
    SearchSettles(PathOf(space, paint, way), ok);
  }

  lemma ByLightnessSettles(space: Space, paint: Color, ok: Color -> bool)
    ensures
      var r := ByLightness(space, paint, ok);
      && (r.Some? ==> ok(r.value))
      && (r.Some? ==> SettlesOn(space, paint, ToLightness(0.0), ok, r.value) || SettlesOn(space, paint, ToLightness(1.0), ok, r.value))
  {
    FoundSettles(space, paint, ToLightness(0.0), ok);
    FoundSettles(space, paint, ToLightness(1.0), ok);
  }

  lemma ByNeutralSettles(space: Space, paint: Color, ok: Color -> bool)
    ensures
      var r := ByNeutral(space, paint, ok);
      && (r.Some? ==> ok(r.value))
      && (r.Some? ==> SettlesOn(space, paint, ToNeutral(Black), ok, r.value) || SettlesOn(space, paint, ToNeutral(White), ok, r.value))
  {
    FoundSettles(space, paint, ToNeutral(Black), ok);
    FoundSettles(space, paint, ToNeutral(White), ok);
  }

  /** Every result reaches the floor on every background; a readable proposal is kept; any other
      result is where one of the four searches settled, with nothing readable one position nearer the
      proposal on that way. */
  lemma ReadablePaintReaches(linear: Curve, space: Space, paint: Color, backgrounds: seq<Color>, floor: real)
    ensures
      var r, ok := ReadablePaint(linear, space, paint, backgrounds, floor), Readable(linear, backgrounds, floor);
      && (r.Some? ==> ReachesAll(linear, r.value, backgrounds, floor))
      && (ReachesAll(linear, paint, backgrounds, floor) ==> r == Some(paint))
      && (r.Some? && r.value != paint ==> exists way: Way :: Searched(way) && SettlesOn(space, paint, way, ok, r.value))
  {
    var ok := Readable(linear, backgrounds, floor);
    ByLightnessSettles(space, paint, ok);
    ByNeutralSettles(space, paint, ok);
  }

  /** None of the sixteen steps on the way to the lightness `end` is good. */
  ghost predicate NoLightness(space: Space, paint: Color, end: real, ok: Color -> bool) {
    forall k | 0 < k <= Steps :: !Good(PathOf(space, paint, ToLightness(end)), ok, k * Sixteenth)
  }

  /** What a search by lightness finds has the paint's opacity; it finds nothing exactly when no step
      either way is good. */
  lemma ByLightnessKeepsAlpha(space: Space, paint: Color, ok: Color -> bool)
    ensures
      var r := ByLightness(space, paint, ok);
      && (r.Some? ==> r.value.a == paint.a)
      && (r.None? <==> NoLightness(space, paint, 0.0, ok) && NoLightness(space, paint, 1.0, ok))
  {
    LightnessFindKeepsAlpha(space, paint, 0.0, ok);
    LightnessFindKeepsAlpha(space, paint, 1.0, ok);
  }

  lemma LightnessFindKeepsAlpha(space: Space, paint: Color, end: real, ok: Color -> bool)
    ensures
      var found := Found(PathOf(space, paint, ToLightness(end)), ok);
      && (found.Some? ==> found.value.0.a == paint.a)
      && (found.None? <==> NoLightness(space, paint, end, ok))
  {
    var path := PathOf(space, paint, ToLightness(end));
    SearchSettles(path, ok);
    var found := Found(path, ok);
    if found.Some? { LightnessKeepsAlpha(space, paint, end, found.value.1); }
  }

  /** Opacity yields only when no step of either lightness search is readable. */
  lemma OpacityYieldsLast(linear: Curve, space: Space, paint: Color, backgrounds: seq<Color>, floor: real)
    ensures
      var r, ok := ReadablePaint(linear, space, paint, backgrounds, floor), Readable(linear, backgrounds, floor);
      r.Some? && r.value.a != paint.a ==> NoLightness(space, paint, 0.0, ok) && NoLightness(space, paint, 1.0, ok)
  {
    ByLightnessKeepsAlpha(space, paint, Readable(linear, backgrounds, floor));
  }

  lemma EndIsFound(at: Path, ok: Color -> bool, end: Color)
    requires at(Whole) == Some(end) && ok(end)
    ensures Found(at, ok).Some?
  {
    SearchSettles(at, ok);
    assert Good(at, ok, Steps * Sixteenth);
  }

  lemma NeutralIsTheEnd(space: Space, paint: Color, neutral: Color)
    ensures PathOf(space, paint, ToNeutral(neutral))(Whole) == Some(neutral)
  {
    MixEnds(paint, neutral);
    assert Amount(Whole) == 1.0;
  }

  /** A search into a neutral finds something if the neutral itself is good. */
  lemma NeutralEndsWalk(space: Space, paint: Color, neutral: Color, ok: Color -> bool)
    ensures Found(PathOf(space, paint, ToNeutral(neutral)), ok).None? ==> !ok(neutral)
  {
    NeutralIsTheEnd(space, paint, neutral);
    if ok(neutral) { EndIsFound(PathOf(space, paint, ToNeutral(neutral)), ok, neutral); }
  }

  lemma ByNeutralExists(space: Space, paint: Color, ok: Color -> bool)
    ensures ByNeutral(space, paint, ok).None? ==> !ok(Black) && !ok(White)
  {
    NeutralEndsWalk(space, paint, Black, ok);
    NeutralEndsWalk(space, paint, White, ok);
  }

  lemma OneSurfaceReaches(linear: Curve, background: Color, floor: real)
    requires Transfer(linear) && 0.0 <= floor && floor * floor <= 21.0
    ensures Reaches(linear, Black, background, floor) || Reaches(linear, White, background, floor)
  {
    NeutralLuminance(linear, background);
    OneNeutralReaches(Luminance(linear, background), floor);
  }

  /** There is no result only where neither black nor white reaches the floor everywhere. */
  lemma ReadablePaintExists(linear: Curve, space: Space, paint: Color, backgrounds: seq<Color>, floor: real)
    ensures
      ReadablePaint(linear, space, paint, backgrounds, floor).None? ==>
        !ReachesAll(linear, Black, backgrounds, floor) && !ReachesAll(linear, White, backgrounds, floor)
  {
    ByNeutralExists(space, paint, Readable(linear, backgrounds, floor));
  }

  /** On a single surface there always is one, for a floor up to the square root of 21. */
  lemma ReadablePaintOnSurface(linear: Curve, space: Space, paint: Color, background: Color, floor: real)
    requires Transfer(linear) && 0.0 <= floor && floor * floor <= 21.0
    ensures
      var r := ReadablePaint(linear, space, paint, [background], floor);
      r.Some? && Reaches(linear, r.value, background, floor)
  {
    ReadablePaintExists(linear, space, paint, [background], floor);
    OneSurfaceReaches(linear, background, floor);
    ReadablePaintReaches(linear, space, paint, [background], floor);
    assert background in [background];
  }

  // Searching one way only.

  /** `paint` composited over each background is on the requested side of it. */
  predicate OnSide(linear: Curve, paint: Color, backgrounds: seq<Color>, light: bool) {
    forall b <- backgrounds ::
      if light then Luminance(linear, SourceOver(paint, b)) > Luminance(linear, b)
      else Luminance(linear, SourceOver(paint, b)) < Luminance(linear, b)
  }

  function ReadableOnSide(linear: Curve, backgrounds: seq<Color>, floor: real, light: bool): Color -> bool {
    (c: Color) => OnSide(linear, c, backgrounds, light) && ReachesAll(linear, c, backgrounds, floor)
  }

  function PaintToward(linear: Curve, space: Space, paint: Color, backgrounds: seq<Color>, floor: real, light: bool): Option<Color> {
    var ok := ReadableOnSide(linear, backgrounds, floor, light);
    if ok(paint) then Some(paint)
    else match Found(PathOf(space, paint, ToLightness(if light then 1.0 else 0.0)), ok)
      case None => None
      case Some((c, _)) => Some(c)
  }

  method ReadablePreservingChromaToward(linear: Curve, space: Space, paint: Color, backgrounds: seq<Color>, floor: real, light: bool)
    returns (r: Option<Color>)
    ensures r == PaintToward(linear, space, paint, backgrounds, floor, light)
  {
    var ok := ReadableOnSide(linear, backgrounds, floor, light);
    if ok(paint) { return Some(paint); }
    var found := Search(PathOf(space, paint, ToLightness(if light then 1.0 else 0.0)), ok);
    if found.None? { return None; }
    return Some(found.value.0);
  }

  lemma LightnessKeepsAlpha(space: Space, paint: Color, end: real, x: nat)
    ensures var c := PathOf(space, paint, ToLightness(end))(x); c.Some? ==> c.value.a == paint.a
  {
    var lab := space.to(paint);
    assert PathOf(space, paint, ToLightness(end))(x) == CandidateAt(space, Toward(lab.0, end, x), lab.1, paint.a);
    CandidateKeepsAlpha(space, Toward(lab.0, end, x), lab.1, paint.a);
  }

  /** The directed search keeps the paint's opacity, the requested side of every background and the
      floor; it fails only when no step toward that side is readable. */
  lemma PaintTowardKeepsSide(linear: Curve, space: Space, paint: Color, backgrounds: seq<Color>, floor: real, light: bool)
    ensures
      var r, ok := PaintToward(linear, space, paint, backgrounds, floor, light), ReadableOnSide(linear, backgrounds, floor, light);
      var path := PathOf(space, paint, ToLightness(if light then 1.0 else 0.0));
      && (r.Some? ==> r.value.a == paint.a && OnSide(linear, r.value, backgrounds, light) && ReachesAll(linear, r.value, backgrounds, floor))
      && (r.Some? && r.value != paint ==> exists x: nat :: Settles(path, ok, x, r.value))
      && (r.None? ==> !ok(paint) && forall k | 0 < k <= Steps :: !Good(path, ok, k * Sixteenth))
  {
    var ok, end := ReadableOnSide(linear, backgrounds, floor, light), if light then 1.0 else 0.0;
    var path := PathOf(space, paint, ToLightness(end));
    SearchSettles(path, ok);
    var found := Found(path, ok);
    if found.Some? { LightnessKeepsAlpha(space, paint, end, found.value.1); }
  }
}
