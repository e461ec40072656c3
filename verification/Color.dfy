/** Eight-bit straight-alpha colors: compositing, and the thinnest overlay that reconstructs a color.
    Channel arithmetic is exact real arithmetic up to the rounding to a byte. */
module Color {
  import opened Reals

  type Channel = n: nat | n <= 255

  datatype Color = Color(r: Channel, g: Channel, b: Channel, a: Channel) {
    predicate Opaque() { a == 255 }
  }

  const Clear: Color := Color(0, 0, 0, 0)
  const Black: Color := Color(0, 0, 0, 255)
  const White: Color := Color(255, 255, 255, 255)

  /** Rounding to the nearest integer, halves up, then saturating to a byte. */
  function ToByte(x: real): Channel {
    var n := (x + 0.5).Floor;
    if n < 0 then 0 else if n > 255 then 255 else n
  }

  /** A byte rounded from within its range is within half of what it was rounded from. */
  lemma ToByteNear(x: real)
    requires 0.0 <= x <= 255.0
    ensures -0.5 <= ToByte(x) as real - x <= 0.5
  {
  }

  function Share(a: Channel): real {
    a as real / 255.0
  }

  /** `s` laid over `d`: coverages combine, and each channel is the mean weighted by what it covers. */
  function SourceOver(s: Color, d: Color): Color {
    var alpha := Share(s.a) + Share(d.a) * (1.0 - Share(s.a));
    if alpha == 0.0 then Clear
    else Color(Blend(s.r, s.a, d.r, d.a, alpha), Blend(s.g, s.a, d.g, d.a, alpha), Blend(s.b, s.a, d.b, d.a, alpha), ToByte(alpha * 255.0))
  }

  function Blend(s: Channel, sa: Channel, d: Channel, da: Channel, alpha: real): Channel
    requires alpha != 0.0
  {
    ToByte((s as real * Share(sa) + d as real * Share(da) * (1.0 - Share(sa))) / alpha)
  }

  /** A channel `s` of alpha `a` over an opaque `d`, before rounding. */
  function Over(s: Channel, a: Channel, d: Channel): real {
    s as real * Share(a) + d as real * (1.0 - Share(a))
  }

  /** Over an opaque color the result is opaque, and each channel is the weighted mean, rounded. */
  lemma OverOpaque(s: Color, d: Color)
    requires d.Opaque()
    ensures SourceOver(s, d) == Color(ToByte(Over(s.r, s.a, d.r)), ToByte(Over(s.g, s.a, d.g)), ToByte(Over(s.b, s.a, d.b)), 255)
  {
    assert Share(255) == 1.0;
    BlendOpaque(s.r, s.a, d.r);
    BlendOpaque(s.g, s.a, d.g);
    BlendOpaque(s.b, s.a, d.b);
  }

  lemma BlendOpaque(s: Channel, a: Channel, d: Channel)
    ensures Blend(s, a, d, 255, 1.0) == ToByte(Over(s, a, d))
  {
    assert Share(255) == 1.0;
  }

  lemma OpaqueCovers(s: Color, d: Color)
    requires s.Opaque()
    ensures SourceOver(s, d) == s
  {
    assert Share(255) == 1.0;
    assert Share(s.a) + Share(d.a) * (1.0 - Share(s.a)) == 1.0;
    BlendCovers(s.r, d.r, d.a);
    BlendCovers(s.g, d.g, d.a);
    BlendCovers(s.b, d.b, d.a);
  }

  lemma BlendCovers(s: Channel, d: Channel, da: Channel)
    ensures Blend(s, 255, d, da, 1.0) == s
  {
    assert Share(255) == 1.0;
    assert d as real * Share(da) * (1.0 - Share(255)) == 0.0;
  }

  /** A layer without coverage shows what is beneath it. */
  lemma ClearIsUnseen(c: Color, d: Color)
    requires c.a == 0
    ensures SourceOver(c, d) == if d.a == 0 then Clear else d
  {
    if d.a > 0 {
      var da := Share(d.a);
      assert Share(0) == 0.0 && Share(0) + da * (1.0 - Share(0)) == da && da > 0.0;
      BlendUnseen(c.r, d.r, d.a);
      BlendUnseen(c.g, d.g, d.a);
      BlendUnseen(c.b, d.b, d.a);
    }
  }

  lemma BlendUnseen(s: Channel, d: Channel, da: Channel)
    requires da > 0
    ensures Blend(s, 0, d, da, Share(da)) == d
  {
    assert Share(0) == 0.0 && s as real * Share(0) == 0.0;
    var top := d as real * Share(da);
    QuotientBound(top, Share(da), d as real);
  }

  // Overlays.

  /** The least share of ink, within its range, that takes `b` to `t`. */
  function Need(b: Channel, t: Channel): real {
    if t > b then (t - b) as real / (255 - b) as real
    else if t < b then (b - t) as real / b as real
    else 0.0
  }

  function Max(x: real, y: real): real {
    if x < y then y else x
  }

  function OverlayShare(target: Color, base: Color): real {
    Max(Max(Max(0.0, Need(base.r, target.r)), Need(base.g, target.g)), Need(base.b, target.b))
  }

  /** The ink that takes `b` exactly to `t` at a share of `x`. */
  function Ink(b: Channel, t: Channel, x: real): real
    requires x != 0.0
  {
    (t as real - (1.0 - x) * b as real) / x
  }

  predicate InRange(ink: real) {
    0.0 <= ink <= 255.0
  }

  /** The rounded ink and share that take `base` to `target`; nothing when they agree. */
  function RelativeOverlay(target: Color, base: Color): Color {
    var x := OverlayShare(target, base);
    if x == 0.0 then Clear
    else Color(ToByte(Ink(base.r, target.r, x)), ToByte(Ink(base.g, target.g, x)), ToByte(Ink(base.b, target.b, x)), ToByte(x * 255.0))
  }

  /** Whether ink is in range is linear in the share `x` and the product `p` of share and base. */
  lemma InkBounds(b: real, t: real, x: real, p: real)
    requires x > 0.0 && p == x * b
    ensures
      var ink := (t - (1.0 - x) * b) / x;
      (0.0 <= ink <==> t - b + p >= 0.0) && (ink <= 255.0 <==> t - b + p <= 255.0 * x)
  {
    var top := t - (1.0 - x) * b;
    assert top == t - b + p;
    QuotientBound(top, x, 0.0);
    QuotientBound(top, x, 255.0);
  }

  lemma ProductBounds(x: real, b: real, p: real)
    requires 0.0 < x && 0.0 <= b <= 255.0 && p == x * b
    ensures 0.0 <= p <= 255.0 * x
  {
    NonNegative(x, b, p);
    NonNegative(x, 255.0 - b, 255.0 * x - p);
  }

  lemma NeedIsLinear(b: Channel, t: Channel, x: real, p: real)
    requires p == x * b as real
    ensures t > b ==> (x >= Need(b, t) <==> 255.0 * x - p >= t as real - b as real)
    ensures t < b ==> (x >= Need(b, t) <==> p >= b as real - t as real)
  {
    if t > b {
      var room := (255 - b) as real;
      QuotientBound((t - b) as real, room, x);
      assert x * room == 255.0 * x - p;
    } else if t < b {
      QuotientBound((b - t) as real, b as real, x);
    }
  }

  /** Ink stays in range exactly from the needed share on. */
  lemma InkInRange(b: Channel, t: Channel, x: real)
    requires 0.0 < x <= 1.0
    ensures InRange(Ink(b, t, x)) <==> x >= Need(b, t)
  {
    var p := x * b as real;
    InkBounds(b as real, t as real, x, p);
    ProductBounds(x, b as real, p);
    NeedIsLinear(b, t, x, p);
  }

  lemma NeedBounds(b: Channel, t: Channel)
    ensures 0.0 <= Need(b, t) <= 1.0
    ensures t != b ==> Need(b, t) >= 1.0 / 255.0
  {
    if t > b {
      QuotientBound((t - b) as real, (255 - b) as real, 1.0);
      QuotientBound((t - b) as real, (255 - b) as real, 0.0);
      QuotientBound((t - b) as real, (255 - b) as real, 1.0 / 255.0);
    } else if t < b {
      QuotientBound((b - t) as real, b as real, 1.0);
      QuotientBound((b - t) as real, b as real, 0.0);
      QuotientBound((b - t) as real, b as real, 1.0 / 255.0);
    }
  }

  /** The overlay's share is the smallest at which every channel's exact ink stays in range. */
  lemma OverlayShareIsLeast(target: Color, base: Color, x: real)
    requires 0.0 < x <= 1.0
    ensures
      x >= OverlayShare(target, base) <==>
      InRange(Ink(base.r, target.r, x)) && InRange(Ink(base.g, target.g, x)) && InRange(Ink(base.b, target.b, x))
  {
    InkInRange(base.r, target.r, x);
    InkInRange(base.g, target.g, x);
    InkInRange(base.b, target.b, x);
  }

  /** Rounding the ink and the share moves the composite by at most one. */
  lemma ChannelError(b: Channel, t: Channel, x: real, ink: Channel, a: Channel)
    requires 0.0 < x <= 1.0 && InRange(Ink(b, t, x)) && ink == ToByte(Ink(b, t, x)) && a == ToByte(x * 255.0)
    ensures t as real - 1.0 <= Over(ink, a, b) <= t as real + 1.0
  {
    var exact, share := Ink(b, t, x), Share(a);
    ToByteNear(exact);
    ToByteNear(x * 255.0);
    assert exact * x == t as real - (1.0 - x) * b as real;
    var byInk, byShare := share * (ink as real - exact), (share - x) * (exact - b as real);
    assert Over(ink, a, b) - t as real == byInk + byShare;
    assert -1.0 / 510.0 <= share - x <= 1.0 / 510.0;
    BoundedProduct(share, ink as real - exact, 1.0, 0.5, byInk);
    BoundedProduct(share - x, exact - b as real, 1.0 / 510.0, 255.0, byShare);
  }

  lemma RoundedWithinOne(c: real, t: Channel)
    requires t as real - 1.0 <= c <= t as real + 1.0
    ensures -1 <= ToByte(c) - t <= 1
  {
  }

  predicate WithinOne(c: Color, t: Color) {
    -1 <= c.r - t.r <= 1 && -1 <= c.g - t.g <= 1 && -1 <= c.b - t.b <= 1
  }

  lemma ChannelReconstructed(b: Channel, t: Channel, x: real)
    requires 0.0 < x <= 1.0 && x >= Need(b, t)
    ensures -1 <= ToByte(Over(ToByte(Ink(b, t, x)), ToByte(x * 255.0), b)) - t <= 1
  {
    InkInRange(b, t, x);
    var ink, a := ToByte(Ink(b, t, x)), ToByte(x * 255.0);
    ChannelError(b, t, x, ink, a);
    RoundedWithinOne(Over(ink, a, b), t);
  }

  lemma OverlayShareBounds(target: Color, base: Color)
    ensures
      var x := OverlayShare(target, base);
      && 0.0 <= x <= 1.0 && x >= Need(base.r, target.r) && x >= Need(base.g, target.g) && x >= Need(base.b, target.b)
      && (x == 0.0 ==> base.r == target.r && base.g == target.g && base.b == target.b)
  {
    NeedBounds(base.r, target.r);
    NeedBounds(base.g, target.g);
    NeedBounds(base.b, target.b);
  }

  /** For every opaque base and every target, the rounded overlay composited back differs from the
      target by at most one in each channel. */
  lemma OverlayReconstructs(target: Color, base: Color)
    requires base.Opaque()
    ensures
      var c := SourceOver(RelativeOverlay(target, base), base);
      c.Opaque() && WithinOne(c, target)
  {
    OverlayShareBounds(target, base);
    var x := OverlayShare(target, base);
    OverOpaque(RelativeOverlay(target, base), base);
    if x == 0.0 {
      ClearIsUnseen(Clear, base);
    } else {
      ChannelReconstructed(base.r, target.r, x);
      ChannelReconstructed(base.g, target.g, x);
      ChannelReconstructed(base.b, target.b, x);
    }
  }

  /** Each of the four channels moved from `c` to `other` by `amount`, clamped to the unit interval. */
  function Mix(c: Color, other: Color, amount: real): Color {
    var x := if amount < 0.0 then 0.0 else if amount > 1.0 then 1.0 else amount;
    Color(ToByte(Between(c.r, other.r, x)), ToByte(Between(c.g, other.g, x)), ToByte(Between(c.b, other.b, x)), ToByte(Between(c.a, other.a, x)))
  }

  /** Mixing starts at the one color and arrives at the other. */
  lemma MixEnds(c: Color, other: Color)
    ensures Mix(c, other, 0.0) == c && Mix(c, other, 1.0) == other
  {
  }

  /** A channel of a mix, before rounding. */
  function Between(c: Channel, other: Channel, x: real): real {
    c as real * (1.0 - x) + other as real * x
  }

  lemma BetweenMoves(c: Channel, other: Channel, x: real, y: real)
    requires x <= y
    ensures c <= other ==> Between(c, other, x) <= Between(c, other, y)
    ensures c >= other ==> Between(c, other, x) >= Between(c, other, y)
  {
    var d := Between(c, other, y) - Between(c, other, x);
    assert d == (other as real - c as real) * (y - x);
    if c <= other { NonNegative(other as real - c as real, y - x, d); }
    if c >= other { NonNegative(c as real - other as real, y - x, -d); }
  }

  lemma ToByteKeepsOrder(x: real, y: real)
    requires x <= y
    ensures ToByte(x) <= ToByte(y)
  {
  }

  /** A channel never moves away from where it is mixed to. */
  lemma ChannelMoves(c: Channel, other: Channel, x: real, y: real)
    requires x <= y
    ensures c <= other ==> ToByte(Between(c, other, x)) <= ToByte(Between(c, other, y))
    ensures c >= other ==> ToByte(Between(c, other, x)) >= ToByte(Between(c, other, y))
  {
    BetweenMoves(c, other, x, y);
    if c <= other { ToByteKeepsOrder(Between(c, other, x), Between(c, other, y)); }
    if c >= other { ToByteKeepsOrder(Between(c, other, y), Between(c, other, x)); }
  }
}
