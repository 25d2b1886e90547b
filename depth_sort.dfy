/** The painter's-algorithm sort at the end of `getProjectedItems` in
    components/LHWVisualization.tsx: `.sort((a, b) => b.z - a.z)`, farthest
    first. `Array.prototype.sort` is stable, so items of equal depth keep
    their layout order; the sort is modelled by a stable insertion sort, and
    OrderedUnique shows that every stable sort gives the same list. */
module DepthSort {
  import opened SphereLayout
  import opened Projection

  /** `a` is drawn before `b`: it is farther, or as far and earlier in the layout. */
  predicate Before(a: Projected, b: Projected)
  {
    a.z > b.z || (a.z == b.z && a.index < b.index)
  }

  /** Every item is drawn before every later item. */
  predicate Ordered(s: seq<Projected>)
  {
    forall i, j :: 0 <= i < j < |s| ==> Before(s[i], s[j])
  }

  /** Layout indices strictly increase along the list. */
  predicate IndicesAscending(s: seq<Projected>)
  {
    forall i, j :: 0 <= i < j < |s| ==> s[i].index < s[j].index
  }

  /** Insert `p` in front of the first item that is not farther than it. */
  function InsertByDepth(p: Projected, s: seq<Projected>): (r: seq<Projected>)
    ensures multiset(r) == multiset(s) + multiset{p}
    ensures |r| == |s| + 1
  {
    if s == [] then [p]
    else if s[0].z <= p.z then [p] + s
    else
      assert s == [s[0]] + s[1..];
      [s[0]] + InsertByDepth(p, s[1..])
  }

  /** Stable sort by non-increasing depth. */
  function SortByDepth(s: seq<Projected>): (r: seq<Projected>)
    ensures multiset(r) == multiset(s)
    ensures |r| == |s|
  {
    if s == [] then []
    else
      assert s == [s[0]] + s[1..];
      InsertByDepth(s[0], SortByDepth(s[1..]))
  }

  /** `getProjectedItems`: project every item, then sort farthest first.
      The result holds every projected item once and is in painter's order. */
  function GetProjectedItems(items: seq<Item>, r: Rotation, m: MathLib): (ps: seq<Projected>)
    ensures |ps| == |items|
    ensures multiset(ps) == multiset(ProjectEach(items, r, m))
    ensures Ordered(ps)
  {
    SortOrdered(ProjectEach(items, r, m));
    SortByDepth(ProjectEach(items, r, m))
  }

  lemma {:induction false} InsertOrdered(p: Projected, s: seq<Projected>)
    requires Ordered(s)
    requires forall k :: 0 <= k < |s| ==> p.index < s[k].index
    ensures Ordered(InsertByDepth(p, s))
  {
    if s == [] {
    } else if s[0].z <= p.z {
      var r := InsertByDepth(p, s);
      assert r == [p] + s;
      forall i, j | 0 <= i < j < |r|
        ensures Before(r[i], r[j])
      {
        if i == 0 {
          if j > 1 {
            assert Before(s[0], s[j - 1]);
          }
        } else {
          assert Before(s[i - 1], s[j - 1]);
        }
      }
    } else {
      var t := InsertByDepth(p, s[1..]);
      InsertOrdered(p, s[1..]);
      var r := InsertByDepth(p, s);
      assert r == [s[0]] + t;
      forall i, j | 0 <= i < j < |r|
        ensures Before(r[i], r[j])
      {
        if i == 0 {
          var e := t[j - 1];
          assert e in multiset(t);
          if e != p {
            assert e in multiset(s[1..]);
            var k :| 0 <= k < |s[1..]| && s[1..][k] == e;
            assert Before(s[0], s[k + 1]);
          }
        } else {
          assert Before(t[i - 1], t[j - 1]);
        }
      }
    }
  }

  /** Sorting a list whose layout indices ascend yields an Ordered list. */
  lemma {:induction false} SortOrdered(s: seq<Projected>)
    requires IndicesAscending(s)
    ensures Ordered(SortByDepth(s))
  {
    if s != [] {
      var t := SortByDepth(s[1..]);
      SortOrdered(s[1..]);
      forall k | 0 <= k < |t|
        ensures s[0].index < t[k].index
      {
        assert t[k] in multiset(s[1..]);
        var i :| 0 <= i < |s[1..]| && s[1..][i] == t[k];
        assert s[0].index < s[i + 1].index;
      }
      InsertOrdered(s[0], t);
    }
  }

  /** `Before` is asymmetric. */
  lemma BeforeAsymmetric(x: Projected, y: Projected)
    ensures !(Before(x, y) && Before(y, x))
  {
  }

  /** Two non-empty Ordered lists with the same items start with the same
      item: each head occurs in the other list, so each is drawn no later
      than the other. */
  lemma SameHead(a: seq<Projected>, b: seq<Projected>)
    requires Ordered(a) && Ordered(b) && multiset(a) == multiset(b)
    requires a != [] && b != []
    ensures a[0] == b[0]
  {
    assert a[0] in multiset(b) && b[0] in multiset(a);
    var j :| 0 <= j < |b| && b[j] == a[0];
    var i :| 0 <= i < |a| && a[i] == b[0];
    assert i == 0 || Before(a[0], b[0]);
    assert j == 0 || Before(b[0], a[0]);
    BeforeAsymmetric(a[0], b[0]);
  }

  /** Two Ordered lists holding the same items are the same list: the
      farthest-first order with ties broken by layout index is unique. */
  lemma {:induction false} OrderedUnique(a: seq<Projected>, b: seq<Projected>)
    requires Ordered(a) && Ordered(b) && multiset(a) == multiset(b)
    ensures a == b
  {
    assert |a| == |multiset(a)| == |multiset(b)| == |b|;
    if a != [] {
      SameHead(a, b);
      SameTail(a, b);
      OrderedTail(a);
      OrderedTail(b);
      OrderedUnique(a[1..], b[1..]);
      assert a == [a[0]] + a[1..] && b == [b[0]] + b[1..];
    }
  }

  /** Lists with the same items and the same head have tails with the same items. */
  lemma SameTail(a: seq<Projected>, b: seq<Projected>)
    requires a != [] && b != [] && a[0] == b[0] && multiset(a) == multiset(b)
    ensures multiset(a[1..]) == multiset(b[1..])
  {
    assert a == [a[0]] + a[1..] && b == [b[0]] + b[1..];
    assert multiset(a[1..]) == multiset(a) - multiset{a[0]};
    assert multiset(b[1..]) == multiset(b) - multiset{b[0]};
  }

  /** The tail of an Ordered list is Ordered. */
  lemma OrderedTail(a: seq<Projected>)
    requires Ordered(a) && a != []
    ensures Ordered(a[1..])
  {
    forall i, j | 0 <= i < j < |a[1..]|
      ensures Before(a[1..][i], a[1..][j])
    {
      assert a[1..][i] == a[i + 1] && a[1..][j] == a[j + 1];
    }
  }

  /** The painter's order of the projected list: a permutation of the
      projected layout, farthest first (ties in layout order), so z never
      increases and the stacking order never decreases along it; it is the
      one list with those properties. */
  lemma PainterOrder(items: seq<Item>, r: Rotation, m: MathLib)
    ensures var ps := GetProjectedItems(items, r, m);
      && |ps| == |items|
      && multiset(ps) == multiset(ProjectEach(items, r, m))
      && Ordered(ps)
      && (forall i, j :: 0 <= i < j < |ps| ==> ps[i].z >= ps[j].z && ZIndex(ps[i].z) <= ZIndex(ps[j].z))
      && (forall i, j :: 0 <= i < j < |ps| && ps[i].z == ps[j].z ==> ps[i].index < ps[j].index)
      && (forall other :: Ordered(other) && multiset(other) == multiset(ProjectEach(items, r, m)) ==> other == ps)
  {
    var each := ProjectEach(items, r, m);
    var ps := GetProjectedItems(items, r, m);
    SortOrdered(each);
    forall other | Ordered(other) && multiset(other) == multiset(each)
      ensures other == ps
    {
      OrderedUnique(other, ps);
    }
  }

  /** Every item of the projected list is the projection of the layout item
      its index names, and every layout item appears in it. */
  lemma PainterContents(items: seq<Item>, r: Rotation, m: MathLib)
    ensures var ps := GetProjectedItems(items, r, m);
      && (forall i :: 0 <= i < |ps| ==>
            0 <= ps[i].index < |items| && ps[i] == ProjectItem(items[ps[i].index], ps[i].index, r, m))
      && (forall k :: 0 <= k < |items| ==> ProjectItem(items[k], k, r, m) in ps)
  {
    var each := ProjectEach(items, r, m);
    var ps := GetProjectedItems(items, r, m);
    forall i | 0 <= i < |ps|
      ensures 0 <= ps[i].index < |items| && ps[i] == ProjectItem(items[ps[i].index], ps[i].index, r, m)
    {
      assert ps[i] in multiset(each);
      var k :| 0 <= k < |each| && each[k] == ps[i];
    }
    forall k | 0 <= k < |items|
      ensures ProjectItem(items[k], k, r, m) in ps
    {
      assert each[k] in multiset(ps);
    }
  }
}
