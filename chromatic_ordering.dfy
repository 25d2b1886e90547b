/** The product carousel of components/ChromaticOrdering.tsx: the active
    index moves cyclically over the juice list with the arrow buttons, and
    the sweetness slider (0 to 100) picks an index proportionally. */
module ChromaticOrdering {
  import opened Juices

  /** The quotient of a / m truncated toward zero, for a positive divisor. */
  function TruncQuot(a: int, m: int): int
    requires m > 0
  {
    if a >= 0 then a / m else -((-a) / m)
  }

  /** The quotient of a / b truncated toward zero (`Math.trunc(a / b)`). */
  function TruncDiv(a: int, b: int): int
    requires b != 0
  {
    if b > 0 then TruncQuot(a, b) else -TruncQuot(a, -b)
  }

  /** Euclidean division of a non-negative number, read from either sign. */
  lemma EuclidParts(a: int, m: int)
    requires m > 0
    ensures a >= 0 ==> a == (a / m) * m + a % m
    ensures a < 0 ==> a == -((-a) / m) * m - (-a) % m
  {
    var n := if a >= 0 then a else -a;
    assert n == (n / m) * m + n % m;
  }

  /** Negating the quotient is negating the divisor. */
  lemma SignedMul(q: int, b: int)
    requires b != 0
    ensures (if b > 0 then q else -q) * b == q * (if b > 0 then b else -b)
  {
    if b < 0 {
      assert (-q) * b == q * (-b);
    }
  }

  /** JavaScript's `%`: the remainder of division truncated toward zero, so
      its sign follows the dividend (Dafny's `%` never goes negative). The
      sign, the bound and a == q * b + r together determine r; on a
      non-negative dividend and a positive divisor it is the modulus. */
  function JsRem(a: int, b: int): (r: int)
    requires b != 0
    ensures a >= 0 ==> 0 <= r < (if b > 0 then b else -b)
    ensures a <= 0 ==> -(if b > 0 then b else -b) < r <= 0
    ensures a >= 0 && b > 0 ==> r == a % b
    ensures a == TruncDiv(a, b) * b + r
  {
    var m := if b > 0 then b else -b;
    EuclidParts(a, m);
    SignedMul(TruncQuot(a, m), b);
    if a >= 0 then a % m else -((-a) % m)
  }

  /** Where JavaScript's `%` differs from a modulus: a negative dividend
      keeps its sign, which is why `prevJuice` adds the length first. */
  lemma JsRemNegative()
    ensures JsRem(-1, 4) == -1 && JsRem(-5, 4) == -1 && JsRem(5, -4) == 1
    ensures JsRem(0 - 1 + 4, 4) == 3
  {
  }

  /** `nextJuice`: (i + 1) % len. */
  function NextIndex(i: int, len: int): (r: int)
    requires len > 0
    ensures 0 <= i ==> 0 <= r < len
  {
    JsRem(i + 1, len)
  }

  /** `prevJuice`: (i - 1 + len) % len. */
  function PrevIndex(i: int, len: int): (r: int)
    requires len > 0
    ensures 0 <= i ==> 0 <= r < len
  {
    JsRem(i - 1 + len, len)
  }

  /** The slot of the active juice: `activeIndex % length`. */
  function ActiveSlot(i: int, len: int): (r: int)
    requires len > 0
    ensures 0 <= i ==> 0 <= r < len
    ensures 0 <= i < len ==> r == i
  {
    ModSmall(i, len);
    JsRem(i, len)
  }

  /** The slider's index: floor((v / 100) * (len - 1)). */
  function SliderIndex(v: int, len: int): (r: int)
    ensures 0 <= v <= 100 && len >= 1 ==> 0 <= r <= len - 1
  {
    SliderBounds(v, len);
    ((v as real / 100.0) * (len - 1) as real).Floor
  }

  /** The floor of (v / 100) * (len - 1) for v in [0, 100] lies in [0, len - 1]. */
  lemma SliderBounds(v: int, len: int)
    ensures 0 <= v <= 100 && len >= 1 ==>
      0 <= ((v as real / 100.0) * (len - 1) as real).Floor <= len - 1
  {
    var f := v as real / 100.0;
    var k := (len - 1) as real;
    assert 0 <= v <= 100 ==> 0.0 <= f <= 1.0;
    ScaledFraction(f, k);
    FloorWithin(f * k, len - 1);
  }

  /** A fraction in [0, 1] of a non-negative k lies in [0, k]. */
  lemma ScaledFraction(f: real, k: real)
    ensures 0.0 <= f <= 1.0 && 0.0 <= k ==> 0.0 <= f * k <= k
  {
    assert k - f * k == (1.0 - f) * k;
  }

  /** The floor of a number in [0, k] lies in [0, k]. */
  lemma FloorWithin(x: real, k: int)
    ensures 0.0 <= x <= k as real ==> 0 <= x.Floor <= k
  {
  }

  /** `k` presses of the next button in a row. */
  function NextIter(i: int, len: int, k: nat): (r: int)
    requires len > 0
    ensures 0 <= i && (i < len || k > 0) ==> 0 <= r < len
  {
    if k == 0 then i else NextIndex(NextIter(i, len, k - 1), len)
  }

  /** The previous button sends the first juice to the last. */
  lemma PrevOfFirst(len: int)
    requires len > 0
    ensures PrevIndex(0, len) == len - 1
  {
  }

  /** A remainder by len of a value below 2 * len needs at most one subtraction. */
  lemma ModSmall(a: int, len: int)
    requires len > 0
    ensures 0 <= a < 2 * len ==> a % len == if a < len then a else a - len
  {
    if len <= a < 2 * len {
      assert a - len == a - 1 * len;
    }
  }

  /** One press of next or previous moves by one, wrapping at the ends. */
  lemma StepIndices(i: int, len: int)
    requires 0 <= i < len
    ensures NextIndex(i, len) == if i + 1 < len then i + 1 else 0
    ensures PrevIndex(i, len) == if i > 0 then i - 1 else len - 1
  {
    ModSmall(i + 1, len);
    ModSmall(i - 1 + len, len);
  }

  /** Next and previous undo each other on every index in range. */
  lemma NextPrevInverse(i: int, len: int)
    requires 0 <= i < len
    ensures PrevIndex(NextIndex(i, len), len) == i
    ensures NextIndex(PrevIndex(i, len), len) == i
  {
    StepIndices(i, len);
    StepIndices(NextIndex(i, len), len);
    StepIndices(PrevIndex(i, len), len);
  }

  /** k presses of next from i, for k up to len, land on i + k with one wrap. */
  lemma {:induction false} NextIterShift(i: int, len: int, k: nat)
    requires 0 <= i < len && k <= len
    ensures NextIter(i, len, k) == if i + k < len then i + k else i + k - len
  {
    if k > 0 {
      NextIterShift(i, len, k - 1);
      StepIndices(NextIter(i, len, k - 1), len);
    }
  }

  /** len presses of next bring the carousel back to where it started. */
  lemma FullCycle(i: int, len: int)
    requires 0 <= i < len
    ensures NextIter(i, len, len) == i
  {
    NextIterShift(i, len, len);
  }

  /** On the slider's integer values the real floor is an integer division. */
  lemma SliderIndexDiv(v: int, len: int)
    requires v >= 0 && len >= 1
    ensures SliderIndex(v, len) == (v * (len - 1)) / 100
  {
    var n := v * (len - 1);
    var q := n / 100;
    var x := (v as real / 100.0) * (len - 1) as real;
    assert x == n as real / 100.0;
    assert n == q * 100 + n % 100;
    assert q as real <= x < q as real + 1.0;
  }

  /** The slider's index lies in [0, len - 1], is 0 at the left end and
      len - 1 at the right end, and never decreases as the slider moves right. */
  lemma SliderIndexRange(v: int, w: int, len: int)
    requires 0 <= v <= w <= 100 && len >= 1
    ensures 0 <= SliderIndex(v, len) <= SliderIndex(w, len) <= len - 1
    ensures SliderIndex(0, len) == 0 && SliderIndex(100, len) == len - 1
  {
    var k := len - 1;
    SliderIndexDiv(v, len);
    SliderIndexDiv(w, len);
    MulMonotone(v, w, k);
    MulMonotone(w, 100, k);
    DivMonotone(v * k, w * k);
    DivMonotone(w * k, 100 * k);
    assert (100 * k) / 100 == k;
    SliderEnds(len);
  }

  lemma SliderEnds(len: int)
    ensures SliderIndex(0, len) == 0 && SliderIndex(100, len) == len - 1
  {
    assert (0 as real / 100.0) * (len - 1) as real == 0.0;
    assert (100 as real / 100.0) * (len - 1) as real == (len - 1) as real;
  }

  lemma DivMonotone(a: int, b: int)
    requires 0 <= a <= b
    ensures a / 100 <= b / 100
  {
  }

  lemma MulMonotone(a: int, b: int, k: int)
    requires a <= b && k >= 0
    ensures 0 <= (b - a) * k && a * k <= b * k
  {
  }

  /** With the four juices the slider picks the first at 0..33, the second at
      34..66, the third at 67..99 and the last only at 100. */
  lemma SliderOverJuices(v: int)
    requires 0 <= v <= 100
    ensures |JUICES| == 4
    ensures SliderIndex(v, |JUICES|) == if v <= 33 then 0 else if v <= 66 then 1 else if v <= 99 then 2 else 3
  {
    SliderIndexDiv(v, 4);
  }

  class Carousel {
    /** The sweetness shown by the slider, 0 to 100. */
    var flavorFilter: int
    /** The index of the active juice. */
    var activeIndex: int

    ghost predicate Valid()
      reads this
    {
      0 <= activeIndex < |JUICES| && 0 <= flavorFilter <= 100
    }

    /** The first render: sweetness 50, first juice. */
    constructor ()
      ensures flavorFilter == 50 && activeIndex == 0
      ensures Valid()
    {
      flavorFilter := 50;
      activeIndex := 0;
    }

    /** `activeJuice`: always a juice of the list, the one at the index when
        the index is in range. */
    function ActiveJuice(): (j: Juice)
      reads this
      requires 0 <= activeIndex
      ensures j in JUICES
      ensures activeIndex < |JUICES| ==> j == JUICES[activeIndex]
    {
      JUICES[ActiveSlot(activeIndex, |JUICES|)]
    }

    /** `nextJuice`. */
    method Next()
      modifies this`activeIndex
      ensures activeIndex == NextIndex(old(activeIndex), |JUICES|)
      ensures old(Valid()) ==> Valid()
    {
      activeIndex := JsRem(activeIndex + 1, |JUICES|);
    }

    /** `prevJuice`. */
    method Prev()
      modifies this`activeIndex
      ensures activeIndex == PrevIndex(old(activeIndex), |JUICES|)
      ensures old(Valid()) ==> Valid()
    {
      activeIndex := JsRem(activeIndex - 1 + |JUICES|, |JUICES|);
    }

    /** The slider's `onChange` with value v: the sweetness becomes v and the
        index the slider's index; the `!==` guard only skips a write of the
        value already there. */
    method SliderChange(v: int)
      requires 0 <= v <= 100
      modifies this
      ensures flavorFilter == v && activeIndex == SliderIndex(v, |JUICES|)
      ensures Valid()
    {
      flavorFilter := v;
      var index := ((v as real / 100.0) * (|JUICES| - 1) as real).Floor;
      if index != activeIndex {
        activeIndex := index;
      }
      SliderIndexRange(v, v, |JUICES|);
    }
  }
}
