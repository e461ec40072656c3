/** Translucent surfaces: decorative edges, the presence each role keeps, and the compression of
    reconstruction alphas. */
module Materials {
  import opened Reals
  import opened Color

  datatype Materials = Materials(glass: Channel)

  /** The authored edge itself, or the overlay that shows it over `host`. */
  function Edge(m: Materials, host: Color, edge: Color): Color {
    if m.glass == 0 || edge.a == 0 then edge else RelativeOverlay(SourceOver(edge, host), host)
  }

  /** Over an opaque host a resolved edge shows what the authored edge would, within one per channel,
      and exactly that when nothing is translucent or nothing is drawn. */
  lemma EdgeShowsTheAuthored(m: Materials, host: Color, edge: Color)
    requires host.Opaque()
    ensures
      var shown, authored := SourceOver(Edge(m, host, edge), host), SourceOver(edge, host);
      && shown.Opaque() && WithinOne(shown, authored)
      && (m.glass == 0 || edge.a == 0 ==> shown == authored)
  {
    OverOpaque(edge, host);
    OverlayReconstructs(SourceOver(edge, host), host);
  }

  // Compression.

  lemma Scaled(d: real, s: real, p: real)
    requires 0.0 <= d && 0.0 < s <= 1.0 && p == d * s
    ensures 0.0 <= p <= d && (d > 0.0 ==> p > 0.0)
  {
    NonNegative(d, s, p);
    NonNegative(d, 1.0 - s, d - p);
    if d > 0.0 { Positive(d, s, p); }
  }

  lemma Shrunk(d: real, s: real, p: real)
    requires d > 0.0 && 0.0 <= s < 1.0 && p == d * s
    ensures 0.0 <= p < d
  {
    NonNegative(d, s, p);
    Positive(d, 1.0 - s, d - p);
  }

  /** Up to the knee an alpha is kept; above it, it grows by the slope. */
  function Bent(alpha: real, knee: real, slope: real): real {
    if alpha <= knee then alpha else knee + (alpha - knee) * slope
  }

  function Knee(ceiling: real): (k: real)
    requires 0.0 < ceiling <= 1.0
    ensures 0.0 <= k < ceiling
  {
    var k := ceiling * (1.0 - ceiling);
    Shrunk(ceiling, 1.0 - ceiling, k);
    k
  }

  /** Fits an alpha under a ceiling, compressing only the upper end, where values crowd. */
  function Compress(alpha: real, ceiling: real): real
    requires 0.0 < ceiling <= 1.0
  {
    var knee := Knee(ceiling);
    if alpha <= knee then alpha else knee + (alpha - knee) * (ceiling - knee) / (1.0 - knee)
  }

  /** The slope above the knee is positive and at most one, and leads to the ceiling at one. */
  lemma SlopeBounds(k: real, c: real) returns (s: real)
    requires 0.0 <= k < c <= 1.0
    ensures s == (c - k) / (1.0 - k) && 0.0 < s <= 1.0 && (1.0 - k) * s == c - k
  {
    s := (c - k) / (1.0 - k);
    QuotientBound(c - k, 1.0 - k, 1.0);
    QuotientBound(c - k, 1.0 - k, 0.0);
  }

  lemma Quotients(x: real, p: real, q: real)
    requires q != 0.0
    ensures x * p / q == x * (p / q)
  {
    assert x * (p / q) * q == x * p;
  }

  lemma BentAbove(x: real, y: real, k: real, s: real)
    requires k < x <= y && 0.0 < s <= 1.0
    ensures Bent(x, k, s) <= x
    ensures x < y ==> Bent(x, k, s) < Bent(y, k, s)
    ensures Bent(y, k, s) - Bent(x, k, s) <= y - x
  {
    var px, py, d := (x - k) * s, (y - k) * s, (y - x) * s;
    assert py == px + d;
    assert Bent(x, k, s) == k + px && Bent(y, k, s) == k + py;
    Scaled(x - k, s, px);
    Scaled(y - x, s, d);
  }

  lemma BentFits(x: real, y: real, k: real, s: real)
    requires 0.0 <= k < 1.0 && x <= y && 0.0 < s <= 1.0
    ensures Bent(x, k, s) <= x
    ensures x < y ==> Bent(x, k, s) < Bent(y, k, s)
    ensures Bent(y, k, s) - Bent(x, k, s) <= y - x
  {
    if x > k {
      BentAbove(x, y, k, s);
    } else if y > k {
      var py := (y - k) * s;
      assert Bent(y, k, s) == k + py;
      Scaled(y - k, s, py);
    }
  }

  lemma CompressIsBent(alpha: real, c: real, s: real)
    requires 0.0 < c <= 1.0 && s == (c - Knee(c)) / (1.0 - Knee(c))
    ensures Compress(alpha, c) == Bent(alpha, Knee(c), s)
  {
    Quotients(alpha - Knee(c), c - Knee(c), 1.0 - Knee(c));
  }

  /** Compression never increases an alpha, keeps every order strictly, never stretches a difference
      (so it is continuous), and keeps every alpha up to one under the ceiling, reaching it at one. */
  lemma CompressFits(x: real, y: real, c: real)
    requires 0.0 < c <= 1.0 && 0.0 <= x <= y <= 1.0
    ensures Compress(x, c) <= x
    ensures x < y ==> Compress(x, c) < Compress(y, c)
    ensures Compress(y, c) - Compress(x, c) <= y - x
    ensures Compress(x, c) <= c && Compress(1.0, c) == c
  {
    var k := Knee(c);
    var s := SlopeBounds(k, c);
    CompressIsBent(x, c, s);
    CompressIsBent(y, c, s);
    CompressIsBent(1.0, c, s);
    BentFits(x, y, k, s);
    BentFits(x, 1.0, k, s);
  }

  // Presence.

  /** What a resting role keeps of its color when `x` of the backdrop is admitted. */
  function Presence(x: real, residual: real): real {
    (1.0 - x) + residual * x * x
  }

  predicate Fades(r: real, x: real, y: real) {
    0.0 <= x < y <= 1.0 ==> Presence(x, r) > Presence(y, r)
  }

  lemma SmallResidualFades(r: real, x: real, y: real)
    requires 0.0 <= r <= 0.5 && 0.0 <= x < y <= 1.0
    ensures Presence(x, r) > Presence(y, r)
  {
    var q := r * (x + y);
    NonNegative(0.5 - r, x + y, 0.5 * (x + y) - q);
    var drop := (y - x) * (1.0 - q);
    Positive(y - x, 1.0 - q, drop);
    assert Presence(x, r) - Presence(y, r) == drop;
  }

  /** With a residual `r` above a half the curve rises again past its lowest point, at half of 1/r. */
  lemma LargeResidualRises(r: real, v: real)
    requires 0.5 < r <= 1.0 && r * v == 0.5
    ensures 0.0 <= v < 1.0 && Presence(v, r) < Presence(1.0, r)
  {
    QuotientBound(0.5, r, v);
    QuotientBound(0.5, r, 0.0);
    QuotientBound(0.5, r, 1.0);
    var rise := (1.0 - v) * (r - 0.5);
    Positive(1.0 - v, r - 0.5, rise);
    assert rise == r - 1.0 + v / 2.0;
    assert Presence(v, r) == 1.0 - v / 2.0 by { assert r * v * v == 0.5 * v; }
    assert Presence(1.0, r) == r;
  }

  /** The curve fades steadily from opaque to the residual exactly when the residual is at most a half,
      as the resting roles' 0.42 is. */
  lemma FadesExactly(r: real)
    requires 0.0 <= r <= 1.0
    ensures r <= 0.5 <==> forall x: real, y: real :: Fades(r, x, y)
    ensures Presence(0.0, r) == 1.0 && Presence(1.0, r) == r
  {
    if r <= 0.5 {
      forall x: real, y: real ensures Fades(r, x, y) {
        if 0.0 <= x < y <= 1.0 { SmallResidualFades(r, x, y); }
      }
    } else {
      var v := 0.5 / r;
      LargeResidualRises(r, v);
      assert !Fades(r, v, 1.0);
    }
  }
}
