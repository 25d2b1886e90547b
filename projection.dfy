/** The per-item part of `getProjectedItems` in
    components/LHWVisualization.tsx: rotate a base position by the current
    orientation and derive its depth-based attributes. The cosines and sines
    of the two angles come from the host's opaque `Math`. */
module Projection {
  import opened Hotels
  import opened SphereLayout

  /** The orientation: x is the pitch (about the horizontal axis), y the yaw
      (about the vertical axis), both in radians and never wrapped. */
  datatype Rotation = Rotation(x: real, y: real)

  /** One rendered item: the laid-out item, its index in the layout, the
      rotated coordinates, the opacity and the front-facing flag. */
  datatype Projected = Projected(
    hotel: Hotel,
    basePos: Vec3,
    index: int,
    x: real,
    y: real,
    z: real,
    alpha: real,
    isFront: bool)

  /** Items with a rotated depth below this are "roughly front facing". */
  const FRONT_THRESHOLD: real := 100.0

  /** The lowest opacity an item is drawn with. */
  const MIN_ALPHA: real := 0.1

  /** Squared distance from the sphere's centre. */
  function NormSq(p: Vec3): real
  {
    p.x * p.x + p.y * p.y + p.z * p.z
  }

  /** A plane rotation by an angle with cosine `c` and sine `s` scales the
      squared length of (a, b) by c^2 + s^2. */
  lemma PlaneRotation(a: real, b: real, c: real, s: real)
    ensures (a * c - b * s) * (a * c - b * s) + (b * c + a * s) * (b * c + a * s) == (a * a + b * b) * (c * c + s * s)
  {
  }

  /** The yaw step then the pitch step, each a plane rotation on the unit
      circle, keep the squared distance from the centre. */
  lemma RotationKeepsNorm(p: Vec3, cosX: real, sinX: real, cosY: real, sinY: real)
    ensures var x := p.x * cosY - p.z * sinY;
      var z1 := p.z * cosY + p.x * sinY;
      cosX * cosX + sinX * sinX == 1.0 && cosY * cosY + sinY * sinY == 1.0 ==>
        NormSq(Vec3(x, p.y * cosX - z1 * sinX, z1 * cosX + p.y * sinX)) == NormSq(p)
  {
    var x := p.x * cosY - p.z * sinY;
    var z1 := p.z * cosY + p.x * sinY;
    var y := p.y * cosX - z1 * sinX;
    var z := z1 * cosX + p.y * sinX;
    PlaneRotation(p.x, p.z, cosY, sinY);
    PlaneRotation(p.y, z1, cosX, sinX);
    assert NormSq(Vec3(x, y, z)) == (x * x + z1 * z1) + (y * y + z * z) - z1 * z1;
  }

  /** Rotate about the vertical axis by the yaw, then about the horizontal
      axis by the pitch, given the four trigonometric values. When each
      cosine/sine pair lies on the unit circle the result stays on the
      sphere through `p`; with zero angles it is `p` itself. */
  function RotateBy(p: Vec3, cosX: real, sinX: real, cosY: real, sinY: real): (q: Vec3)
    ensures cosX * cosX + sinX * sinX == 1.0 && cosY * cosY + sinY * sinY == 1.0 ==> NormSq(q) == NormSq(p)
    ensures cosX == 1.0 && sinX == 0.0 && cosY == 1.0 && sinY == 0.0 ==> q == p
  {
    RotationKeepsNorm(p, cosX, sinX, cosY, sinY);
    var x := p.x * cosY - p.z * sinY;
    var z1 := p.z * cosY + p.x * sinY;
    Vec3(x, p.y * cosX - z1 * sinX, z1 * cosX + p.y * sinX)
  }

  /** The rotation of one base position under the orientation `r`: a
      rotation whenever the host's sine and cosine satisfy
      cos^2 + sin^2 = 1 at both angles. */
  function Rotate(p: Vec3, r: Rotation, m: MathLib): (q: Vec3)
    ensures m.cos(r.x) * m.cos(r.x) + m.sin(r.x) * m.sin(r.x) == 1.0
         && m.cos(r.y) * m.cos(r.y) + m.sin(r.y) * m.sin(r.y) == 1.0
         ==> NormSq(q) == NormSq(p)
  {
    RotateBy(p, m.cos(r.x), m.sin(r.x), m.cos(r.y), m.sin(r.y))
  }

  /** Opacity from depth: (z + R) / 2R, never below MIN_ALPHA. */
  function Alpha(z: real): (a: real)
    ensures a >= MIN_ALPHA
    ensures a >= (z + GLOBE_RADIUS) / (2.0 * GLOBE_RADIUS)
    ensures a == MIN_ALPHA || a == (z + GLOBE_RADIUS) / (2.0 * GLOBE_RADIUS)
  {
    var linear := (z + GLOBE_RADIUS) / (2.0 * GLOBE_RADIUS);
    if MIN_ALPHA >= linear then MIN_ALPHA else linear
  }

  /** Stacking order of a rendered item: the largest integer not above 1000 - z. */
  function ZIndex(z: real): (k: int)
    ensures k as real <= 1000.0 - z < k as real + 1.0
  {
    (1000.0 - z).Floor
  }

  /** Project the item at position `index` of the layout. */
  function ProjectItem(item: Item, index: int, r: Rotation, m: MathLib): (p: Projected)
    ensures p.hotel == item.hotel && p.basePos == item.basePos && p.index == index
    ensures p.alpha >= MIN_ALPHA
    ensures p.isFront <==> p.z < FRONT_THRESHOLD
    ensures Vec3(p.x, p.y, p.z) == Rotate(item.basePos, r, m)
    ensures p.alpha == Alpha(p.z)
  {
    var q := Rotate(item.basePos, r, m);
    Projected(item.hotel, item.basePos, index, q.x, q.y, q.z, Alpha(q.z), q.z < FRONT_THRESHOLD)
  }

  /** `items.map((item, index) => ...)`: every item projected, in layout order. */
  function ProjectEach(items: seq<Item>, r: Rotation, m: MathLib): (ps: seq<Projected>)
    ensures |ps| == |items|
    ensures forall k :: 0 <= k < |ps| ==> ps[k] == ProjectItem(items[k], k, r, m)
  {
    seq(|items|, k requires 0 <= k < |items| => ProjectItem(items[k], k, r, m))
  }

  /** With zero angles (cos 0 = 1, sin 0 = 0) the rotated point is the base point. */
  lemma RotateIdentity(p: Vec3, m: MathLib)
    requires m.cos(0.0) == 1.0 && m.sin(0.0) == 0.0
    ensures Rotate(p, Rotation(0.0, 0.0), m) == p
  {
  }

  /** A quarter turn of yaw and pitch (cos 0, sin 1) sends (1, 0, 0) to (0, -1, 0). */
  lemma QuarterTurn()
    ensures RotateBy(Vec3(1.0, 0.0, 0.0), 0.0, 1.0, 0.0, 1.0) == Vec3(0.0, -1.0, 0.0)
  {
  }

  /** The negated quarter turn (cos 0, sin -1) sends (0, -1, 0) to (0, 0, 1). */
  lemma NegatedQuarterTurn()
    ensures RotateBy(Vec3(0.0, -1.0, 0.0), 0.0, -1.0, 0.0, -1.0) == Vec3(0.0, 0.0, 1.0)
  {
  }

  /** Yaw then pitch is not undone by the negated orientation: the quarter
      turn followed by its negation moves (1, 0, 0) to (0, 0, 1). */
  lemma NegatedOrientationNotInverse()
    ensures RotateBy(RotateBy(Vec3(1.0, 0.0, 0.0), 0.0, 1.0, 0.0, 1.0), 0.0, -1.0, 0.0, -1.0) == Vec3(0.0, 0.0, 1.0)
  {
    QuarterTurn();
    NegatedQuarterTurn();
  }

  /** Opacity grows with depth and is the linear map once that exceeds the floor. */
  lemma AlphaMonotone(z1: real, z2: real)
    requires z1 <= z2
    ensures Alpha(z1) <= Alpha(z2)
    ensures z1 >= -360.0 ==> Alpha(z1) == (z1 + GLOBE_RADIUS) / (2.0 * GLOBE_RADIUS)
  {
  }

  /** Nearer items (smaller z) never get a lower stacking order. */
  lemma ZIndexAntitone(z1: real, z2: real)
    requires z2 <= z1
    ensures ZIndex(z1) <= ZIndex(z2)
  {
  }
}
