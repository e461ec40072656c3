/** The paints Chrome resolves for one surface: captions, status marks and pull requests. */
module Chrome {
  import opened Common
  import opened Color
  import opened Contrast

  /** The colors of a theme these paints start from. */
  datatype Colors = Colors(
    background: Color, textSecondary: Color, textMuted: Color, textDisabled: Color, borderFocused: Color,
    warning: Color, info: Color, error: Color, repositoryOperation: Color, repositoryChanges: Color,
    linkText: Color, pullRequestOpen: Color, pullRequestDraft: Color)

  /** What the chroma-preserving search finds on one background, or else the chosen neutral. */
  function NearestReadable(linear: Curve, space: Space, foreground: Color, background: Color, minimum: real): Color {
    var found := ReadablePaint(linear, space, foreground, [background], minimum);
    if found.Some? then found.value else Chosen(linear, foreground, background, minimum)
  }

  /** Text needs a contrast of 4.5, and marks and focus of 3. */
  const Text: real := 4.5
  const Mark: real := 3.0

  /** On every surface the nearest readable color reaches its floor, and is the proposal if that does. */
  lemma NearestReadableReaches(linear: Curve, space: Space, foreground: Color, background: Color, minimum: real)
    requires Transfer(linear) && 0.0 <= minimum && minimum * minimum <= 21.0
    ensures
      var c := NearestReadable(linear, space, foreground, background, minimum);
      Reaches(linear, c, background, minimum) && (Reaches(linear, foreground, background, minimum) ==> c == foreground)
  {
    ReadablePaintOnSurface(linear, space, foreground, background, minimum);
    ReadablePaintReaches(linear, space, foreground, [background], minimum);
  }

  lemma FloorsAreInReach()
    ensures Text * Text <= 21.0 && Mark * Mark <= 21.0
  {
  }

  /** The surface as it shows: over the opaque Chrome background. */
  function Shown(colors: Colors, surface: Color): Color {
    SourceOver(surface, colors.background.(a := 255))
  }

  lemma ShownIsOpaque(colors: Colors, surface: Color)
    ensures Shown(colors, surface).Opaque()
  {
    OverOpaque(surface, colors.background.(a := 255));
  }

  datatype ControlPaint = ControlPaint(background: Color, foreground: Color, icon: Color, border: Color)

  datatype CaptionPaint = CaptionPaint(
    background: Color, foreground: Color, secondary: Color, icon: Color, focus: Color, attention: Color, busy: Color, error: Color,
    repositoryOperation: Color, repositoryChanges: Color,
    control: ControlPaint, controlHover: ControlPaint, controlPressed: ControlPaint, controlDisabled: ControlPaint)

  function Control(linear: Curve, surface: Color, background: Color, proposed: Color): ControlPaint {
    var shown := SourceOver(background, surface);
    var foreground := Chosen(linear, proposed, shown, Text);
    ControlPaint(shown, foreground, foreground, Clear)
  }

  function Caption(linear: Curve, space: Space, colors: Colors, surface: Color, focused: bool): CaptionPaint {
    var shown := Shown(colors, surface);
    var foreground := NearestReadable(linear, space, if focused then colors.textSecondary else colors.textMuted, shown, Text);
    CaptionPaint(
      shown, foreground, NearestReadable(linear, space, colors.textMuted, shown, Text), foreground,
      Chosen(linear, colors.borderFocused, shown, Mark),
      Chosen(linear, colors.warning, shown, Text), Chosen(linear, colors.info, shown, Text), Chosen(linear, colors.error, shown, Text),
      NearestReadable(linear, space, colors.repositoryOperation, shown, Text),
      NearestReadable(linear, space, colors.repositoryChanges, shown, Text),
      Control(linear, shown, shown, foreground),
      Control(linear, shown, Mix(shown, foreground, 0.10), foreground),
      Control(linear, shown, Mix(shown, foreground, 0.18), foreground),
      Control(linear, shown, shown, colors.textDisabled))
  }

  /** A control's text and icon read on its own opaque background. */
  predicate ControlReads(linear: Curve, c: ControlPaint) {
    c.background.Opaque() && Reaches(linear, c.foreground, c.background, Text) && c.icon == c.foreground
  }

  lemma ControlAlwaysReads(linear: Curve, surface: Color, background: Color, proposed: Color)
    requires Transfer(linear) && surface.Opaque()
    ensures ControlReads(linear, Control(linear, surface, background, proposed))
  {
    FloorsAreInReach();
    OverOpaque(background, surface);
    ChosenReaches(linear, proposed, SourceOver(background, surface), Text);
  }

  /** Everything a caption writes or marks reads on the caption. */
  predicate CaptionReads(linear: Curve, p: CaptionPaint) {
    TextReads(linear, p) && MarksRead(linear, p)
  }

  predicate TextReads(linear: Curve, p: CaptionPaint) {
    && p.background.Opaque()
    && Reaches(linear, p.foreground, p.background, Text) && Reaches(linear, p.secondary, p.background, Text)
    && Reaches(linear, p.icon, p.background, Text)
    && Reaches(linear, p.repositoryOperation, p.background, Text) && Reaches(linear, p.repositoryChanges, p.background, Text)
  }

  predicate MarksRead(linear: Curve, p: CaptionPaint) {
    && Reaches(linear, p.focus, p.background, Mark)
    && Reaches(linear, p.attention, p.background, Text) && Reaches(linear, p.busy, p.background, Text)
    && Reaches(linear, p.error, p.background, Text)
  }

  predicate ControlsRead(linear: Curve, p: CaptionPaint) {
    ControlReads(linear, p.control) && ControlReads(linear, p.controlHover) && ControlReads(linear, p.controlPressed) &&
    ControlReads(linear, p.controlDisabled)
  }

  lemma NearestTextReads(linear: Curve, space: Space, foreground: Color, shown: Color)
    requires Transfer(linear)
    ensures Reaches(linear, NearestReadable(linear, space, foreground, shown, Text), shown, Text)
  {
    FloorsAreInReach();
    NearestReadableReaches(linear, space, foreground, shown, Text);
  }

  lemma TwoNearest(linear: Curve, space: Space, one: Color, other: Color, shown: Color)
    requires Transfer(linear)
    ensures Reaches(linear, NearestReadable(linear, space, one, shown, Text), shown, Text)
    ensures Reaches(linear, NearestReadable(linear, space, other, shown, Text), shown, Text)
  {
    NearestTextReads(linear, space, one, shown);
    NearestTextReads(linear, space, other, shown);
  }

  lemma CaptionTextReads(linear: Curve, space: Space, colors: Colors, surface: Color, focused: bool)
    requires Transfer(linear)
    ensures TextReads(linear, Caption(linear, space, colors, surface, focused))
  {
    var shown := Shown(colors, surface);
    ShownIsOpaque(colors, surface);
    TwoNearest(linear, space, if focused then colors.textSecondary else colors.textMuted, colors.textMuted, shown);
    TwoNearest(linear, space, colors.repositoryOperation, colors.repositoryChanges, shown);
  }

  /** On every surface and with every theme, all caption text reaches 4.5 and the focus mark 3. */
  lemma CaptionAlwaysReads(linear: Curve, space: Space, colors: Colors, surface: Color, focused: bool)
    requires Transfer(linear)
    ensures CaptionReads(linear, Caption(linear, space, colors, surface, focused))
  {
    CaptionTextReads(linear, space, colors, surface, focused);
    var shown := Shown(colors, surface);
    TwoChosen(linear, colors.borderFocused, Mark, colors.warning, Text, shown);
    TwoChosen(linear, colors.info, Text, colors.error, Text, shown);
  }

  lemma TwoChosen(linear: Curve, one: Color, floor: real, other: Color, floor': real, shown: Color)
    requires Transfer(linear) && floor in {Text, Mark} && floor' in {Text, Mark}
    ensures Reaches(linear, Chosen(linear, one, shown, floor), shown, floor)
    ensures Reaches(linear, Chosen(linear, other, shown, floor'), shown, floor')
  {
    FloorsAreInReach();
    ChosenReaches(linear, one, shown, floor);
    ChosenReaches(linear, other, shown, floor');
  }

  /** So does the text of every caption control on that control, disabled ones included. */
  lemma CaptionControlsAlwaysRead(linear: Curve, space: Space, colors: Colors, surface: Color, focused: bool)
    requires Transfer(linear)
    ensures ControlsRead(linear, Caption(linear, space, colors, surface, focused))
  {
    var shown := Shown(colors, surface);
    ShownIsOpaque(colors, surface);
    var foreground := NearestReadable(linear, space, if focused then colors.textSecondary else colors.textMuted, shown, Text);
    ControlAlwaysReads(linear, shown, shown, foreground);
    ControlAlwaysReads(linear, shown, Mix(shown, foreground, 0.10), foreground);
    ControlAlwaysReads(linear, shown, Mix(shown, foreground, 0.18), foreground);
    ControlAlwaysReads(linear, shown, shown, colors.textDisabled);
  }

  datatype StatusPaint = StatusPaint(attention: Color, busy: Color, error: Color, paused: Color)

  function Status(linear: Curve, colors: Colors, surface: Color): StatusPaint {
    var shown := Shown(colors, surface);
    StatusPaint(Chosen(linear, colors.warning, shown, Mark), Chosen(linear, colors.info, shown, Mark),
                Chosen(linear, colors.error, shown, Mark), Chosen(linear, colors.textMuted, shown, Mark))
  }

  datatype PullRequestPaint = PullRequestPaint(link: Color, open: Color, draft: Color)

  function PullRequest(linear: Curve, colors: Colors, surface: Color): PullRequestPaint {
    var shown := Shown(colors, surface);
    PullRequestPaint(Chosen(linear, colors.linkText, shown, Text), Chosen(linear, colors.pullRequestOpen, shown, Text),
                     Chosen(linear, colors.pullRequestDraft, shown, Text))
  }

  /** On every surface, status marks reach 3. */
  lemma StatusAlwaysReads(linear: Curve, colors: Colors, surface: Color)
    requires Transfer(linear)
    ensures
      var p, shown := Status(linear, colors, surface), Shown(colors, surface);
      && Reaches(linear, p.attention, shown, Mark) && Reaches(linear, p.busy, shown, Mark)
      && Reaches(linear, p.error, shown, Mark) && Reaches(linear, p.paused, shown, Mark)
  {
    var shown := Shown(colors, surface);
    TwoChosen(linear, colors.warning, Mark, colors.info, Mark, shown);
    TwoChosen(linear, colors.error, Mark, colors.textMuted, Mark, shown);
  }

  /** On every surface, pull request text reaches 4.5. */
  lemma PullRequestAlwaysReads(linear: Curve, colors: Colors, surface: Color)
    requires Transfer(linear)
    ensures
      var p, shown := PullRequest(linear, colors, surface), Shown(colors, surface);
      Reaches(linear, p.link, shown, Text) && Reaches(linear, p.open, shown, Text) && Reaches(linear, p.draft, shown, Text)
  {
    var shown := Shown(colors, surface);
    TwoChosen(linear, colors.linkText, Text, colors.pullRequestOpen, Text, shown);
    TwoChosen(linear, colors.pullRequestDraft, Text, colors.pullRequestDraft, Text, shown);
  }

  // What is readable is kept.

  /** `paint` is the authored color wherever that reaches the floor. */
  predicate Keeps(linear: Curve, paint: Color, authored: Color, shown: Color, floor: real) {
    Reaches(linear, authored, shown, floor) ==> paint == authored
  }

  lemma NearestKeeps(linear: Curve, space: Space, authored: Color, shown: Color, floor: real)
    ensures Keeps(linear, NearestReadable(linear, space, authored, shown, floor), authored, shown, floor)
  {
    ReadablePaintReaches(linear, space, authored, [shown], floor);
  }

  /** Each caption paint stays its own authored color wherever that is readable. */
  lemma CaptionKeepsAuthored(linear: Curve, space: Space, colors: Colors, surface: Color, focused: bool)
    ensures
      var p := Caption(linear, space, colors, surface, focused);
      && Keeps(linear, p.foreground, if focused then colors.textSecondary else colors.textMuted, p.background, Text)
      && Keeps(linear, p.secondary, colors.textMuted, p.background, Text)
      && Keeps(linear, p.focus, colors.borderFocused, p.background, Mark)
      && Keeps(linear, p.attention, colors.warning, p.background, Text)
      && Keeps(linear, p.busy, colors.info, p.background, Text)
      && Keeps(linear, p.error, colors.error, p.background, Text)
      && Keeps(linear, p.repositoryOperation, colors.repositoryOperation, p.background, Text)
      && Keeps(linear, p.repositoryChanges, colors.repositoryChanges, p.background, Text)
  {
    var shown := Shown(colors, surface);
    NearestKeeps(linear, space, if focused then colors.textSecondary else colors.textMuted, shown, Text);
    NearestKeeps(linear, space, colors.textMuted, shown, Text);
    NearestKeeps(linear, space, colors.repositoryOperation, shown, Text);
    NearestKeeps(linear, space, colors.repositoryChanges, shown, Text);
  }

  /** So do status marks and pull request text. */
  lemma MarksKeepAuthored(linear: Curve, colors: Colors, surface: Color)
    ensures
      var p, q, shown := Status(linear, colors, surface), PullRequest(linear, colors, surface), Shown(colors, surface);
      && Keeps(linear, p.attention, colors.warning, shown, Mark) && Keeps(linear, p.busy, colors.info, shown, Mark)
      && Keeps(linear, p.error, colors.error, shown, Mark) && Keeps(linear, p.paused, colors.textMuted, shown, Mark)
      && Keeps(linear, q.link, colors.linkText, shown, Text) && Keeps(linear, q.open, colors.pullRequestOpen, shown, Text)
      && Keeps(linear, q.draft, colors.pullRequestDraft, shown, Text)
  {
  }
}
