/** Curve points and the random curve sampler `RandomPoints`. */
module Curves {
  import opened Draws

  /** The only interpolation shape the generator emits. */
  datatype Shape = Linear

  /** One control point of an RTPC curve: `{"x": …, "y": …, "shape": "Linear"}`. */
  datatype Point = Point(x: real, y: real, shape: Shape)

  predicate SortedByX(ps: seq<Point>) {
    forall i, j :: 0 <= i < j < |ps| ==> ps[i].x <= ps[j].x
  }

  /** Every point's `y` lies in the (possibly inverted) range `[y_min, y_max]`. */
  predicate WithinRange(ps: seq<Point>, y_min: real, y_max: real) {
    forall k :: 0 <= k < |ps| ==> Between(y_min, y_max, ps[k].y)
  }

  /** The curve invariant: at least two linear points, sorted by `x`, starting at
    * `x_min`, ending at `x_max`, every `x` inside the domain. */
  predicate IsCurve(ps: seq<Point>, x_min: real, x_max: real) {
    && 2 <= |ps|
    && SortedByX(ps)
    && ps[0].x == x_min
    && ps[|ps| - 1].x == x_max
    && (forall k :: 0 <= k < |ps| ==> Between(x_min, x_max, ps[k].x) && ps[k].shape == Linear)
  }

  // ---------------------------------------------------------------------------
  // The stable sort by `x` (Python's list.sort with key x)

  /** Inserts `p` after the last element of `s` whose `x` is not larger than
    * `p.x`, scanning from the back, so equal keys keep their original order. */
  function InsertByX(s: seq<Point>, p: Point): seq<Point> {
    if s == [] || s[|s| - 1].x <= p.x then s + [p]
    else InsertByX(s[..|s| - 1], p) + [s[|s| - 1]]
  }

  /** Stable insertion sort by `x`: each element is inserted, in original order,
    * into the sorted prefix before it. */
  function SortByX(s: seq<Point>): seq<Point> {
    if s == [] then [] else InsertByX(SortByX(s[..|s| - 1]), s[|s| - 1])
  }

  lemma {:induction false} InsertByXPermutes(s: seq<Point>, p: Point)
    ensures multiset(InsertByX(s, p)) == multiset(s) + multiset{p}
    ensures |InsertByX(s, p)| == |s| + 1
  {
    if s == [] || s[|s| - 1].x <= p.x {
    } else {
      var n := |s| - 1;
      InsertByXPermutes(s[..n], p);
      assert s == s[..n] + [s[n]];
    }
  }

  lemma {:induction false} InsertByXSorted(s: seq<Point>, p: Point)
    requires SortedByX(s)
    ensures SortedByX(InsertByX(s, p))
  {
    if s == [] || s[|s| - 1].x <= p.x {
    } else {
      var n := |s| - 1;
      var front := InsertByX(s[..n], p);
      InsertByXSorted(s[..n], p);
      InsertByXPermutes(s[..n], p);
      forall i | 0 <= i < |front|
        ensures front[i].x <= s[n].x
      {
        InsertByXMember(s[..n], p, i);
        if front[i] != p {
          var j :| 0 <= j < n && s[..n][j] == front[i];
          assert s[j] == front[i];
        }
      }
    }
  }

  /** Every element after an insertion is the inserted point or came from `s`. */
  lemma InsertByXMember(s: seq<Point>, p: Point, i: nat)
    requires i < |s| + 1
    ensures |InsertByX(s, p)| == |s| + 1
    ensures InsertByX(s, p)[i] == p || InsertByX(s, p)[i] in s
  {
    InsertByXPermutes(s, p);
    assert InsertByX(s, p)[i] in multiset(InsertByX(s, p));
  }

  lemma {:induction false} SortByXCorrect(s: seq<Point>)
    ensures |SortByX(s)| == |s|
    ensures multiset(SortByX(s)) == multiset(s)
    ensures SortedByX(SortByX(s))
  {
    if s != [] {
      var n := |s| - 1;
      SortByXCorrect(s[..n]);
      InsertByXPermutes(SortByX(s[..n]), s[n]);
      InsertByXSorted(SortByX(s[..n]), s[n]);
      assert s == s[..n] + [s[n]];
    }
  }

  /** The points of `s` whose key is `v`, in their order in `s`. */
  function KeyRun(s: seq<Point>, v: real): seq<Point> {
    if s == [] then []
    else KeyRun(s[..|s| - 1], v) + (if s[|s| - 1].x == v then [s[|s| - 1]] else [])
  }

  /** Inserting `p` appends it to the run of its own key and leaves every other run alone. */
  lemma {:induction false} InsertByXKeyRun(s: seq<Point>, p: Point, v: real)
    ensures KeyRun(InsertByX(s, p), v) == KeyRun(s, v) + (if p.x == v then [p] else [])
  {
    if s == [] || s[|s| - 1].x <= p.x {
      var t := s + [p];
      assert t[..|t| - 1] == s;
    } else {
      var n := |s| - 1;
      var front := InsertByX(s[..n], p);
      InsertByXKeyRun(s[..n], p, v);
      var t := front + [s[n]];
      assert t[..|t| - 1] == front;
    }
  }

  /** Stability: points with equal keys keep their relative order. */
  lemma {:induction false} SortByXStable(s: seq<Point>, v: real)
    ensures KeyRun(SortByX(s), v) == KeyRun(s, v)
  {
    if s != [] {
      var n := |s| - 1;
      SortByXStable(s[..n], v);
      InsertByXKeyRun(SortByX(s[..n]), s[n], v);
    }
  }

  /** Inserting a point whose key is not below the head leaves the head in place. */
  lemma {:induction false} InsertByXKeepsHead(s: seq<Point>, p: Point)
    requires 1 <= |s| && s[0].x <= p.x
    ensures InsertByX(s, p)[0] == s[0]
  {
    if s[|s| - 1].x > p.x {
      InsertByXKeepsHead(s[..|s| - 1], p);
    }
  }

  /** A first element with the least key stays first: the sort is stable. */
  lemma {:induction false} SortByXKeepsFirst(s: seq<Point>)
    requires 1 <= |s|
    requires forall k :: 0 <= k < |s| ==> s[0].x <= s[k].x
    ensures |SortByX(s)| == |s| && SortByX(s)[0] == s[0]
  {
    SortByXCorrect(s);
    var n := |s| - 1;
    if n > 0 {
      SortByXKeepsFirst(s[..n]);
      InsertByXKeepsHead(SortByX(s[..n]), s[n]);
    }
  }

  /** A last element with the greatest key stays last: the sort is stable. */
  lemma SortByXKeepsLast(s: seq<Point>)
    requires 1 <= |s|
    requires forall k :: 0 <= k < |s| ==> s[k].x <= s[|s| - 1].x
    ensures |SortByX(s)| == |s| && SortByX(s)[|s| - 1] == s[|s| - 1]
  {
    var n := |s| - 1;
    var p := s[n];
    var front := SortByX(s[..n]);
    assert SortByX(s) == InsertByX(front, p);
    SortByXLength(s[..n]);
    if front != [] {
      var q := front[|front| - 1];
      SortByXMember(s[..n], |front| - 1);
      var j :| 0 <= j < n && s[..n][j] == q;
      assert s[j] == q;
    }
  }

  lemma SortByXLength(s: seq<Point>)
    ensures |SortByX(s)| == |s|
  {
    SortByXCorrect(s);
  }

  /** Every element of the sorted sequence comes from the input. */
  lemma SortByXMember(s: seq<Point>, k: nat)
    requires k < |SortByX(s)|
    ensures SortByX(s)[k] in s
  {
    SortByXCorrect(s);
    assert SortByX(s)[k] in multiset(SortByX(s));
  }

  /** `InsertByX` places `p` at any position `j` that splits `s` into keys up to
    * `p.x` and keys above it. */
  lemma {:induction false} InsertByXAt(s: seq<Point>, p: Point, j: nat)
    requires j <= |s|
    requires j == 0 || s[j - 1].x <= p.x
    requires forall k :: j <= k < |s| ==> s[k].x > p.x
    ensures InsertByX(s, p) == s[..j] + [p] + s[j..]
  {
    if j < |s| {
      var n := |s| - 1;
      InsertByXAt(s[..n], p, j);
      assert s[j..] == s[..n][j..] + [s[n]];
    }
  }

  /** Python's `list.sort(key=lambda p: p["x"])`: an in-place stable insertion
    * sort of the array by `x`. */
  method SortByXInPlace(a: array<Point>)
    modifies a
    ensures a[..] == SortByX(old(a[..]))
  {
    ghost var input := a[..];
    var i := 0;
    while i < a.Length
      invariant 0 <= i <= a.Length
      invariant a[..i] == SortByX(input[..i])
      invariant a[i..] == input[i..]
    {
      ghost var prefix := input[..i + 1];
      assert prefix[..i] == input[..i] && prefix[i] == input[i];
      assert a[..i] == SortByX(input[..i]) && a[i] == input[i];
      InsertNext(a, i);
      assert a[..i + 1] == SortByX(prefix);
      i := i + 1;
    }
    assert input[..a.Length] == input;
  }

  /** One pass of the insertion sort: moves `a[i]` left past every element of the
    * sorted prefix `a[..i]` whose `x` is larger. */
  method InsertNext(a: array<Point>, i: nat)
    requires i < a.Length
    modifies a
    ensures a[..i + 1] == InsertByX(old(a[..i]), old(a[i]))
    ensures a[i + 1..] == old(a[i + 1..])
  {
    ghost var sorted := a[..i];
    var p := a[i];
    var j := i;
    while j > 0 && a[j - 1].x > p.x
      invariant 0 <= j <= i
      invariant forall k :: 0 <= k < j ==> a[k] == sorted[k]
      invariant forall k :: j < k <= i ==> a[k] == sorted[k - 1]
      invariant forall k :: i < k < a.Length ==> a[k] == old(a[k])
      invariant forall k :: j <= k < i ==> sorted[k].x > p.x
    {
      a[j] := a[j - 1];
      j := j - 1;
    }
    a[j] := p;
    InsertByXAt(sorted, p, j);
    assert a[..i + 1] == sorted[..j] + [p] + sorted[j..];
  }

  // ---------------------------------------------------------------------------
  // RandomPoints

  /** The draws of one interior point: `uniform(x_min, x_max)` then `uniform(y_min, y_max)`. */
  datatype InteriorDraw = InteriorDraw(x: Fraction, y: Fraction)

  /** The draws `RandomPoints` consumes: the `y` of the point at `x_min`, the `y`
    * of the point at `x_max`, then one pair per interior point. */
  datatype PointDraws = PointDraws(first: Fraction, last: Fraction, interior: seq<InteriorDraw>) {
    /** There is one interior pair per iteration of `range(0, count - 2)`. */
    predicate Fits(count: int) {
      |interior| == InteriorCount(count)
    }
  }

  /** The length of `range(0, count - 2)`. */
  function InteriorCount(count: int): nat {
    if count > 2 then count - 2 else 0
  }

  function Interior(x_min: real, x_max: real, y_min: real, y_max: real, ds: seq<InteriorDraw>): seq<Point> {
    seq(|ds|, k requires 0 <= k < |ds| =>
      Point(Uniform(x_min, x_max, ds[k].x), Uniform(y_min, y_max, ds[k].y), Linear))
  }

  /** The list before sorting: the point at `x_min`, the interior points in the
    * order drawn (each is inserted just before the point at `x_max`), and the
    * point at `x_max`. */
  function Unsorted(x_min: real, x_max: real, y_min: real, y_max: real, d: PointDraws): seq<Point> {
    [Point(x_min, Uniform(y_min, y_max, d.first), Linear)]
    + Interior(x_min, x_max, y_min, y_max, d.interior)
    + [Point(x_max, Uniform(y_min, y_max, d.last), Linear)]
  }

  /** What `RandomPoints` returns: the unsorted list, stably sorted by `x`. */
  function SampledPoints(x_min: real, x_max: real, y_min: real, y_max: real, count: int, d: PointDraws): (ps: seq<Point>)
    requires d.Fits(count)
    ensures |ps| == if count >= 2 then count else 2
    ensures multiset(ps) == multiset(Unsorted(x_min, x_max, y_min, y_max, d))
    ensures SortedByX(ps)
    ensures forall k :: 0 <= k < |ps| ==>
      Between(x_min, x_max, ps[k].x) && Between(y_min, y_max, ps[k].y) && ps[k].shape == Linear
    ensures x_min <= x_max ==>
      && ps[0] == Point(x_min, Uniform(y_min, y_max, d.first), Linear)
      && ps[|ps| - 1] == Point(x_max, Uniform(y_min, y_max, d.last), Linear)
  {
    var s := Unsorted(x_min, x_max, y_min, y_max, d);
    SortByXCorrect(s);
    UnsortedFacts(x_min, x_max, y_min, y_max, d);
    SortedKeepsMembers(s, SortByX(s));
    SortByX(s)
  }

  /** The unsorted list lies in the box, and for an ordered domain its
    * first and last points hold the least and the greatest `x`, so the stable
    * sort keeps them at the ends. */
  lemma UnsortedFacts(x_min: real, x_max: real, y_min: real, y_max: real, d: PointDraws)
    ensures var s := Unsorted(x_min, x_max, y_min, y_max, d);
      && |s| == |d.interior| + 2
      && |SortByX(s)| == |s|
      && (forall k :: 0 <= k < |s| ==>
            Between(x_min, x_max, s[k].x) && Between(y_min, y_max, s[k].y) && s[k].shape == Linear)
      && (x_min <= x_max ==> SortByX(s)[0] == s[0] && SortByX(s)[|s| - 1] == s[|s| - 1])
  {
    var s := Unsorted(x_min, x_max, y_min, y_max, d);
    var inner := Interior(x_min, x_max, y_min, y_max, d.interior);
    var n := |s| - 1;
    SortByXCorrect(s);
    forall k | 0 <= k <= n
      ensures Between(x_min, x_max, s[k].x) && Between(y_min, y_max, s[k].y) && s[k].shape == Linear
    {
      if 0 < k < n {
        assert s[k] == inner[k - 1];
      }
    }
    if x_min <= x_max {
      assert forall k :: 0 <= k <= n ==> x_min <= s[k].x <= x_max;
      SortByXKeepsFirst(s);
      SortByXKeepsLast(s);
    }
  }

  /** A permutation keeps every per-point property of its input. */
  lemma SortedKeepsMembers(s: seq<Point>, t: seq<Point>)
    requires multiset(t) == multiset(s)
    ensures forall k :: 0 <= k < |t| ==> t[k] in s
  {
    forall k | 0 <= k < |t| ensures t[k] in s {
      assert t[k] in multiset(t);
    }
  }

  /** `RandomPoints(x_min, x_max, y_min, y_max, count)`: two boundary points, then
    * `count - 2` interior points inserted one at a time at index `1 + k`, then
    * the list sorted in place by `x`. */
  method RandomPoints(x_min: real, x_max: real, y_min: real, y_max: real, count: int, d: PointDraws)
    returns (points: seq<Point>)
    requires d.Fits(count)
    ensures points == SampledPoints(x_min, x_max, y_min, y_max, count, d)
  {
    var first := Point(x_min, Uniform(y_min, y_max, d.first), Linear);
    var last := Point(x_max, Uniform(y_min, y_max, d.last), Linear);
    ghost var inner := Interior(x_min, x_max, y_min, y_max, d.interior);
    points := [first, last];
    var k := 0;
    while k < count - 2
      invariant 0 <= k <= |d.interior|
      invariant points == [first] + inner[..k] + [last]
    {
      var p := Point(Uniform(x_min, x_max, d.interior[k].x), Uniform(y_min, y_max, d.interior[k].y), Linear);
      points := points[..1 + k] + [p] + points[1 + k..];
      assert inner[..k + 1] == inner[..k] + [p];
      k := k + 1;
    }
    assert inner[..k] == inner;
    var a := new Point[|points|](i requires 0 <= i < |points| => points[i]);
    assert a[..] == points;
    SortByXInPlace(a);
    points := a[..];
  }
}
