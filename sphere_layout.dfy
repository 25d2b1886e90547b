/** The Fibonacci-sphere layout of the globe (the `items` memo of
    components/LHWVisualization.tsx): every hotel gets a fixed base position
    computed from its index i and the item count N. The host's `Math.PI`,
    `Math.sqrt`, `Math.cos` and `Math.sin` are opaque parameters; nothing
    here computes them. */
module SphereLayout {
  import opened Hotels

  /** The parts of the host's `Math` object the globe uses. */
  datatype MathLib = MathLib(pi: real, sqrt: real -> real, cos: real -> real, sin: real -> real)

  datatype Vec3 = Vec3(x: real, y: real, z: real)

  /** A laid-out hotel: the record and its unrotated position. */
  datatype Item = Item(hotel: Hotel, basePos: Vec3)

  const GLOBE_RADIUS: real := 450.0

  /** Normalised height of item i out of n: 1 at the first item, -1 at the
      last, and within [-1, 1] for every item. */
  function NormY(i: int, n: int): (y: real)
    requires n >= 2
    ensures i == 0 ==> y == 1.0
    ensures i == n - 1 ==> y == -1.0
    ensures 0 <= i < n ==> -1.0 <= y <= 1.0
  {
    var t := i as real / (n - 1) as real;
    UnitFraction(i as real, (n - 1) as real);
    1.0 - t * 2.0
  }

  /** x / d for x in [0, d] lies in [0, 1], with 0 and d mapped to 0 and 1. */
  lemma UnitFraction(x: real, d: real)
    requires d > 0.0
    ensures 0.0 <= x <= d ==> 0.0 <= x / d <= 1.0
    ensures x == 0.0 ==> x / d == 0.0
    ensures x == d ==> x / d == 1.0
  {
    assert d / d - x / d == (d - x) / d;
  }

  /** The golden angle, pi * (3 - sqrt 5), from the host's constants: about
      2.4 radians (137.5 degrees) whenever the host's pi is accurate to two
      decimals and its square root of 5 to three. */
  function GoldenAngle(m: MathLib): (a: real)
    ensures 3.14 < m.pi < 3.15 && 2.236 < m.sqrt(5.0) < 2.237 ==> 2.39 < a < 2.41
  {
    ProductBounds(m.pi, 3.0 - m.sqrt(5.0));
    m.pi * (3.0 - m.sqrt(5.0))
  }

  /** A number in (3.14, 3.15) times one in (0.763, 0.764) lies in (2.39, 2.41). */
  lemma ProductBounds(p: real, t: real)
    ensures 3.14 < p < 3.15 && 0.763 < t < 0.764 ==> 2.39 < p * t < 2.41
  {
    assert p * t - 3.14 * 0.763 == (p - 3.14) * t + 3.14 * (t - 0.763);
    assert 3.15 * 0.764 - p * t == (3.15 - p) * t + 3.15 * (0.764 - t);
  }

  /** Base position of item i out of n, scaled to the globe radius. */
  function BasePos(i: int, n: int, m: MathLib): (p: Vec3)
    requires n >= 2
    ensures 0 <= i < n ==> -GLOBE_RADIUS <= p.y <= GLOBE_RADIUS
    ensures i == 0 ==> p.y == GLOBE_RADIUS
    ensures i == n - 1 ==> p.y == -GLOBE_RADIUS
  {
    NormYRange(n);
    var y := NormY(i, n);
    var radiusAtY := m.sqrt(1.0 - y * y);
    var theta := GoldenAngle(m) * i as real;
    Vec3(m.cos(theta) * radiusAtY * GLOBE_RADIUS, y * GLOBE_RADIUS, m.sin(theta) * radiusAtY * GLOBE_RADIUS)
  }

  /** `HOTELS.map((hotel, i) => ...)`: one item per hotel, in order. */
  function Layout(hotels: seq<Hotel>, m: MathLib): (items: seq<Item>)
    requires |hotels| >= 2
    ensures |items| == |hotels|
    ensures forall i :: 0 <= i < |items| ==> items[i].hotel == hotels[i]
  {
    seq(|hotels|, i requires 0 <= i < |hotels| => Item(hotels[i], BasePos(i, |hotels|, m)))
  }

  /** The normalised height starts at 1, ends at -1 and stays within [-1, 1]. */
  lemma NormYRange(n: int)
    requires n >= 2
    ensures NormY(0, n) == 1.0 && NormY(n - 1, n) == -1.0
    ensures forall i :: 0 <= i < n ==> -1.0 <= NormY(i, n) <= 1.0
  {
    forall i | 0 <= i < n
      ensures -1.0 <= NormY(i, n) <= 1.0
    {
      NormYStrictlyDecreasing(0, i, n);
      NormYStrictlyDecreasing(i, n - 1, n);
    }
  }

  /** The normalised height strictly decreases along the list. */
  lemma NormYStrictlyDecreasing(i: int, j: int, n: int)
    requires n >= 2 && i <= j
    ensures NormY(j, n) <= NormY(i, n)
    ensures i < j ==> NormY(j, n) < NormY(i, n)
  {
    var d := (n - 1) as real;
    assert (j as real / d) - (i as real / d) == (j - i) as real / d;
  }

  /** Every hotel gets its own base position: heights run from +R to -R and
      strictly decrease, so no two positions coincide, whatever the records
      (the doubled list repeats each hotel at i and i + 12). */
  lemma {:induction false} LayoutSpread(hotels: seq<Hotel>, m: MathLib)
    requires |hotels| >= 2
    ensures var items := Layout(hotels, m);
      && items[0].basePos.y == GLOBE_RADIUS
      && items[|items| - 1].basePos.y == -GLOBE_RADIUS
      && (forall i, j :: 0 <= i < j < |items| ==> items[j].basePos.y < items[i].basePos.y)
      && (forall i, j :: 0 <= i < j < |items| ==> items[i].basePos != items[j].basePos)
  {
    var items := Layout(hotels, m);
    var n := |hotels|;
    NormYRange(n);
    forall i, j | 0 <= i < j < |items|
      ensures items[j].basePos.y < items[i].basePos.y
    {
      NormYStrictlyDecreasing(i, j, n);
    }
  }

  /** The globe's own list: 24 items, the hotel at i + 12 repeating the one at
      i, each pair on distinct base positions. */
  lemma HotelsLayout(m: MathLib)
    ensures var items := Layout(HOTELS, m);
      && |items| == 24
      && forall i :: 0 <= i < 12 ==>
           items[i].hotel == items[i + 12].hotel && items[i].basePos != items[i + 12].basePos
  {
    HotelsDoubled();
    LayoutSpread(HOTELS, m);
  }
}
