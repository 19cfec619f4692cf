/**
 * DuplicationPreventer: turns floating pixel positions into integer pixels,
 * skipping positions with a NaN co-ordinate and dropping a pixel that repeats
 * the one before it.
 */
module DuplicationPreventer {
  import opened Geometry
  import opened Sequences

  /**
   * What Clean yields from `ps` once `previous` was the last pixel yielded
   * (None while nothing has been yielded yet).
   */
  function CleanFrom(ps: seq<PointF>, previous: Option<Point>): seq<Point>
    decreases |ps|
  {
    if ps == [] then []
    else if HasNaN(ps[0]) then CleanFrom(ps[1..], previous)
    else
      var pt := Rounded(ps[0]);
      if previous.None? || pt != previous.value then [pt] + CleanFrom(ps[1..], Some(pt))
      else CleanFrom(ps[1..], previous)
  }

  /** The whole output of Clean. */
  function Cleaned(ps: seq<PointF>): seq<Point>
  {
    CleanFrom(ps, None)
  }

  /** Reference definition, step one: the rounded pixels of the NaN-free positions. */
  function RoundedPoints(ps: seq<PointF>): (r: seq<Point>)
    ensures |r| <= |ps|
  {
    if ps == [] then []
    else if HasNaN(ps[0]) then RoundedPoints(ps[1..])
    else [Rounded(ps[0])] + RoundedPoints(ps[1..])
  }

  /** Reference definition, step two: every run of equal neighbours collapsed to one. */
  function CollapseRuns(s: seq<Point>): seq<Point>
  {
    if |s| <= 1 then s
    else if s[0] == s[1] then CollapseRuns(s[1..])
    else [s[0]] + CollapseRuns(s[1..])
  }

  /** The flat [x, y] pairs of the double[] overload, read as positions. */
  function Pairs(vs: seq<seq<Num>>): (r: seq<PointF>)
    requires forall i :: 0 <= i < |vs| ==> |vs[i]| >= 2
    ensures |r| == |vs|
    ensures forall i :: 0 <= i < |vs| ==> r[i] == PointF(vs[i][0], vs[i][1])
  {
    seq(|vs|, i requires 0 <= i < |vs| => PointF(vs[i][0], vs[i][1]))
  }

  /** Clean(IEnumerable<PointF>). */
  method Clean(points: seq<PointF>) returns (r: seq<Point>)
    ensures r == Cleaned(points)
  {
    var previous := EmptyPoint;
    var isFirst := true;
    r := [];
    var i := 0;
    while i < |points|
      invariant 0 <= i <= |points|
      invariant r + CleanFrom(points[i..], if isFirst then None else Some(previous)) == Cleaned(points)
    {
      var point := points[i];
      assert points[i..][1..] == points[i + 1..];
      if !HasNaN(point) {
        var pt := Rounded(point);
        if isFirst || pt != previous {
          isFirst := false;
          previous := pt;
          r := r + [pt];
        }
      }
      i := i + 1;
    }
  }

  /** Clean(IEnumerable<double[]>): each array holds an X at index 0 and a Y at index 1. */
  method CleanVectors(points: seq<seq<Num>>) returns (r: seq<Point>)
    requires forall i :: 0 <= i < |points| ==> |points[i]| >= 2
    ensures r == Cleaned(Pairs(points))
  {
    ghost var ps := Pairs(points);
    var previous := EmptyPoint;
    var isFirst := true;
    r := [];
    var i := 0;
    while i < |points|
      invariant 0 <= i <= |points|
      invariant r + CleanFrom(ps[i..], if isFirst then None else Some(previous)) == Cleaned(ps)
    {
      var point := points[i];
      assert ps[i..][0] == PointF(point[0], point[1]);
      assert ps[i..][1..] == ps[i + 1..];
      if !point[0].NaN? && !point[1].NaN? {
        var pt := Point(RoundHalfEven(point[0].v), RoundHalfEven(point[1].v));
        if isFirst || pt != previous {
          isFirst := false;
          previous := pt;
          r := r + [pt];
        }
      }
      i := i + 1;
    }
  }

  lemma {:induction false} CleanFromMatchesReference(p: Point, ps: seq<PointF>)
    ensures [p] + CleanFrom(ps, Some(p)) == CollapseRuns([p] + RoundedPoints(ps))
    decreases |ps|
  {
    if ps == [] {
    } else if HasNaN(ps[0]) {
      CleanFromMatchesReference(p, ps[1..]);
    } else {
      var q := Rounded(ps[0]);
      var rest := RoundedPoints(ps[1..]);
      assert RoundedPoints(ps) == [q] + rest;
      assert ([p] + ([q] + rest))[1..] == [q] + rest;
      if q == p {
        CleanFromMatchesReference(p, ps[1..]);
      } else {
        CleanFromMatchesReference(q, ps[1..]);
      }
    }
  }

  /** Clean is "round the NaN-free positions, then collapse runs". */
  lemma {:induction false} CleanedMatchesReference(ps: seq<PointF>)
    ensures Cleaned(ps) == CollapseRuns(RoundedPoints(ps))
    decreases |ps|
  {
    if ps != [] {
      if HasNaN(ps[0]) {
        CleanedMatchesReference(ps[1..]);
      } else {
        CleanFromMatchesReference(Rounded(ps[0]), ps[1..]);
      }
    }
  }

  lemma {:induction false} CollapseRunsFacts(s: seq<Point>)
    ensures AdjacentDistinct(CollapseRuns(s))
    ensures IsSubsequence(CollapseRuns(s), s)
    ensures forall x :: x in s <==> x in CollapseRuns(s)
    ensures s != [] ==> CollapseRuns(s) != [] && CollapseRuns(s)[0] == s[0]
    decreases |s|
  {
    if |s| <= 1 {
      SubsequenceRefl(s);
    } else {
      var t := CollapseRuns(s[1..]);
      CollapseRunsFacts(s[1..]);
      assert s == [s[0]] + s[1..];
      if s[0] == s[1] {
        SubsequenceSkip(s[0], t, s[1..]);
      } else {
        SubsequenceCons(s[0], t, s[1..]);
        assert t[0] == s[1];
        var c := [s[0]] + t;
        forall i | 0 <= i && i + 1 < |c| ensures c[i] != c[i + 1] {
          if i > 0 {
            assert c[i] == t[i - 1] && c[i + 1] == t[i];
          }
        }
      }
    }
  }

  lemma {:induction false} CollapseRunsOfDistinct(s: seq<Point>)
    requires AdjacentDistinct(s)
    ensures CollapseRuns(s) == s
    decreases |s|
  {
    if |s| > 1 {
      assert s[0] != s[1];
      assert AdjacentDistinct(s[1..]) by {
        forall i | 0 <= i && i + 1 < |s[1..]| ensures s[1..][i] != s[1..][i + 1] {
          assert s[1..][i] == s[i + 1] && s[1..][i + 1] == s[i + 2];
        }
      }
      CollapseRunsOfDistinct(s[1..]);
    }
  }

  lemma {:induction false} RoundedPointsOfLifted(s: seq<Point>)
    ensures RoundedPoints(LiftAll(s)) == s
    decreases |s|
  {
    if s != [] {
      RoundHalfEvenOfInteger(s[0].x);
      RoundHalfEvenOfInteger(s[0].y);
      assert LiftAll(s)[1..] == LiftAll(s[1..]);
      RoundedPointsOfLifted(s[1..]);
    }
  }

  function LiftAll(s: seq<Point>): (r: seq<PointF>)
    ensures |r| == |s|
    ensures forall i :: 0 <= i < |s| ==> r[i] == Lift(s[i])
  {
    seq(|s|, i requires 0 <= i < |s| => Lift(s[i]))
  }

  lemma RoundedPointsMembers(ps: seq<PointF>, p: PointF)
    requires p in ps && !HasNaN(p)
    ensures Rounded(p) in RoundedPoints(ps)
  {
    if ps[0] != p {
      assert p in ps[1..];
      RoundedPointsMembers(ps[1..], p);
    }
  }

  lemma RoundedPointsEmpty(ps: seq<PointF>)
    ensures RoundedPoints(ps) == [] <==> forall i :: 0 <= i < |ps| ==> HasNaN(ps[i])
  {
    if ps != [] {
      RoundedPointsEmpty(ps[1..]);
      assert forall i :: 1 <= i < |ps| ==> ps[1..][i - 1] == ps[i];
    }
  }

  /**
   * What Clean promises: no pixel yielded twice in a row, at most one pixel per
   * position, the pixels come in input order from the NaN-free positions, every
   * such position's pixel appears, the first yielded pixel is that of the first
   * NaN-free position, and nothing is yielded exactly when every position has a NaN.
   */
  lemma CleanedProperties(ps: seq<PointF>)
    ensures AdjacentDistinct(Cleaned(ps))
    ensures |Cleaned(ps)| <= |ps|
    ensures IsSubsequence(Cleaned(ps), RoundedPoints(ps))
    ensures forall p :: p in ps && !HasNaN(p) ==> Rounded(p) in Cleaned(ps)
    ensures forall q :: q in Cleaned(ps) ==> exists p :: p in ps && !HasNaN(p) && q == Rounded(p)
    ensures Cleaned(ps) == [] <==> forall i :: 0 <= i < |ps| ==> HasNaN(ps[i])
    ensures forall i :: 0 <= i < |ps| && !HasNaN(ps[i]) && (forall j :: 0 <= j < i ==> HasNaN(ps[j])) ==>
              Cleaned(ps) != [] && Cleaned(ps)[0] == Rounded(ps[i])
  {
    CleanedMatchesReference(ps);
    var s := RoundedPoints(ps);
    CollapseRunsFacts(s);
    SubsequenceLength(Cleaned(ps), s);
    forall p | p in ps && !HasNaN(p) ensures Rounded(p) in Cleaned(ps) {
      RoundedPointsMembers(ps, p);
    }
    forall q | q in Cleaned(ps) ensures exists p :: p in ps && !HasNaN(p) && q == Rounded(p) {
      RoundedPointsSources(ps, q);
    }
    RoundedPointsEmpty(ps);
    forall i | 0 <= i < |ps| && !HasNaN(ps[i]) && (forall j :: 0 <= j < i ==> HasNaN(ps[j]))
      ensures Cleaned(ps) != [] && Cleaned(ps)[0] == Rounded(ps[i])
    {
      RoundedPointsHead(ps, i);
    }
  }

  lemma RoundedPointsSources(ps: seq<PointF>, q: Point)
    requires q in RoundedPoints(ps)
    ensures exists p :: p in ps && !HasNaN(p) && q == Rounded(p)
  {
    if !HasNaN(ps[0]) && q == Rounded(ps[0]) {
    } else {
      RoundedPointsSources(ps[1..], q);
      var p :| p in ps[1..] && !HasNaN(p) && q == Rounded(p);
      assert p in ps;
    }
  }

  lemma {:induction false} RoundedPointsHead(ps: seq<PointF>, i: nat)
    requires i < |ps| && !HasNaN(ps[i])
    requires forall j :: 0 <= j < i ==> HasNaN(ps[j])
    ensures RoundedPoints(ps) != [] && RoundedPoints(ps)[0] == Rounded(ps[i])
    decreases i
  {
    if i > 0 {
      assert HasNaN(ps[0]);
      assert forall j :: 0 <= j < i - 1 ==> ps[1..][j] == ps[j + 1];
      RoundedPointsHead(ps[1..], i - 1);
    }
  }

  /** `s` without its first element when that element is `p`. */
  function DropLeading(p: Point, s: seq<Point>): seq<Point>
  {
    if s != [] && s[0] == p then s[1..] else s
  }

  /**
   * Starting from a previous pixel `p` instead of from nothing only suppresses
   * a leading `p`.
   */
  lemma {:induction false} CleanFromPrevious(ps: seq<PointF>, p: Point)
    ensures CleanFrom(ps, Some(p)) == DropLeading(p, Cleaned(ps))
    decreases |ps|
  {
    if ps != [] && HasNaN(ps[0]) {
      CleanFromPrevious(ps[1..], p);
    }
  }

  /** Cleaning pixels that were already cleaned changes nothing. */
  lemma CleanIdempotent(ps: seq<PointF>)
    ensures Cleaned(LiftAll(Cleaned(ps))) == Cleaned(ps)
  {
    var c := Cleaned(ps);
    CleanedProperties(ps);
    CleanedMatchesReference(LiftAll(c));
    RoundedPointsOfLifted(c);
    CollapseRunsOfDistinct(c);
  }
}
