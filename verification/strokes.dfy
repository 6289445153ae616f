/** Pen-down strokes: the maximal runs of consecutive points with `z == 0`
    in a sequence of buffered points, as main/plotter.py draws them.

    `Strokes` is the reference definition the plotter's grouping loop is
    proved against: it is written by recursion on the sequence and never
    mentions the loop's current segment. */
module Segmentation {
  datatype Point = Point(x: real, y: real, z: real)

  /** A point is drawn exactly when its height is zero. */
  predicate IsPenDown(p: Point) { p.z == 0.0 }

  predicate AllPenDown(s: seq<Point>) { forall i :: 0 <= i < |s| ==> IsPenDown(s[i]) }

  /** The length of the longest pen-down prefix. */
  function PenDownPrefix(s: seq<Point>): (k: nat)
    ensures k <= |s|
    ensures AllPenDown(s[..k])
    ensures k < |s| ==> !IsPenDown(s[k])
  {
    if |s| == 0 || !IsPenDown(s[0]) then 0 else 1 + PenDownPrefix(s[1..])
  }

  /** The maximal pen-down runs of `s`, in order. */
  function Strokes(s: seq<Point>): (r: seq<seq<Point>>)
    decreases |s|
  {
    if |s| == 0 then []
    else if !IsPenDown(s[0]) then Strokes(s[1..])
    else
      var k := PenDownPrefix(s);
      [s[..k]] + Strokes(s[k..])
  }

  /** The pen-down points of `s`, in order. */
  function PenDownPoints(s: seq<Point>): (r: seq<Point>)
    ensures |r| <= |s|
  {
    if |s| == 0 then []
    else if IsPenDown(s[0]) then [s[0]] + PenDownPoints(s[1..])
    else PenDownPoints(s[1..])
  }

  function Flatten(ss: seq<seq<Point>>): seq<Point>
  {
    if |ss| == 0 then [] else ss[0] + Flatten(ss[1..])
  }

  // ---------------------------------------------------------------------
  // Properties

  /** The pen-down prefix never reaches past a pen-up point. */
  lemma {:induction false} PrefixBeforePenUp(a: seq<Point>, b: seq<Point>)
    requires |b| > 0 && !IsPenDown(b[0])
    ensures PenDownPrefix(a + b) == PenDownPrefix(a)
  {
    if |a| == 0 {
      assert a + b == b;
    } else {
      assert (a + b)[0] == a[0] && (a + b)[1..] == a[1..] + b;
      PrefixBeforePenUp(a[1..], b);
    }
  }

  /** A pen-up point splits the strokes: no stroke spans it. */
  lemma {:induction false} StrokesSplitAtPenUp(a: seq<Point>, u: Point, b: seq<Point>)
    requires !IsPenDown(u)
    ensures Strokes(a + [u] + b) == Strokes(a) + Strokes(b)
    decreases |a|
  {
    var s := a + [u] + b;
    if |a| == 0 {
      assert s == [u] + b && s[1..] == b;
    } else if !IsPenDown(a[0]) {
      assert s[0] == a[0] && s[1..] == a[1..] + [u] + b;
      StrokesSplitAtPenUp(a[1..], u, b);
    } else {
      assert s == a + ([u] + b);
      PrefixBeforePenUp(a, [u] + b);
      var k := PenDownPrefix(a);
      assert 0 < k <= |a|;
      assert s[0] == a[0] && s[..k] == a[..k] && s[k..] == a[k..] + [u] + b;
      StrokesSplitAtPenUp(a[k..], u, b);
    }
  }

  /** A run of pen-down points is one stroke, or none when empty. */
  lemma StrokeOfRun(run: seq<Point>)
    requires AllPenDown(run)
    ensures Strokes(run) == if |run| == 0 then [] else [run]
  {
    if |run| > 0 {
      var k := PenDownPrefix(run);
      assert run[..k] == run && run[k..] == [];
    }
  }

  /** A pen-down run that follows a pen-up point (or starts the sequence)
      and ends it is the last stroke. */
  lemma StrokesAppendRun(a: seq<Point>, run: seq<Point>)
    requires |a| == 0 || !IsPenDown(a[|a| - 1])
    requires AllPenDown(run)
    ensures Strokes(a + run) == Strokes(a) + (if |run| == 0 then [] else [run])
  {
    StrokeOfRun(run);
    if |a| > 0 {
      var front, u := a[..|a| - 1], a[|a| - 1];
      assert a + run == front + [u] + run;
      StrokesSplitAtPenUp(front, u, run);
      assert a == front + [u] + [];
      StrokesSplitAtPenUp(front, u, []);
    } else {
      assert a + run == run;
    }
  }

  /** A pen-down run closed by a pen-up point is the last stroke. */
  lemma StrokesCloseRun(a: seq<Point>, run: seq<Point>, u: Point)
    requires |a| == 0 || !IsPenDown(a[|a| - 1])
    requires AllPenDown(run) && !IsPenDown(u)
    ensures Strokes(a + run + [u]) == Strokes(a) + (if |run| == 0 then [] else [run])
  {
    StrokesSplitAtPenUp(a + run, u, []);
    assert a + run + [u] == a + run + [u] + [];
    StrokesAppendRun(a, run);
  }

  /** Every maximal run (pen-up or nothing on both sides) is a stroke, at
      its place among the strokes. */
  lemma MaximalRunIsStroke(a: seq<Point>, run: seq<Point>, b: seq<Point>)
    requires |a| == 0 || !IsPenDown(a[|a| - 1])
    requires |run| > 0 && AllPenDown(run)
    requires |b| == 0 || !IsPenDown(b[0])
    ensures Strokes(a + run + b) == Strokes(a) + [run] + Strokes(b)
  {
    StrokesAppendRun(a, run);
    if |b| > 0 {
      SplitBeforePenUp(a + run, b);
    } else {
      assert a + run + b == a + run;
    }
  }

  /** A sequence that starts pen-up adds its strokes after those of
      whatever precedes it. */
  lemma SplitBeforePenUp(front: seq<Point>, b: seq<Point>)
    requires |b| > 0 && !IsPenDown(b[0])
    ensures Strokes(front + b) == Strokes(front) + Strokes(b)
  {
    assert front + b == front + [b[0]] + b[1..];
    StrokesSplitAtPenUp(front, b[0], b[1..]);
  }

  /** Every stroke is a non-empty run of pen-down points. */
  lemma {:induction false} StrokesAreNonEmptyPenDown(s: seq<Point>)
    ensures forall i :: 0 <= i < |Strokes(s)| ==> |Strokes(s)[i]| > 0 && AllPenDown(Strokes(s)[i])
    decreases |s|
  {
    if |s| > 0 {
      if !IsPenDown(s[0]) {
        StrokesAreNonEmptyPenDown(s[1..]);
      } else {
        StrokesAreNonEmptyPenDown(s[PenDownPrefix(s)..]);
      }
    }
  }

  lemma FlattenAppend(ss: seq<seq<Point>>, tt: seq<seq<Point>>)
    ensures Flatten(ss + tt) == Flatten(ss) + Flatten(tt)
  {
    if |ss| > 0 {
      assert (ss + tt)[1..] == ss[1..] + tt;
      FlattenAppend(ss[1..], tt);
    } else {
      assert ss + tt == tt;
    }
  }

  lemma ConsAssociative(x: Point, a: seq<Point>, b: seq<Point>)
    ensures [x] + (a + b) == ([x] + a) + b
  {
  }

  lemma PenDownPointsOfRun(run: seq<Point>, rest: seq<Point>)
    requires AllPenDown(run)
    ensures PenDownPoints(run + rest) == run + PenDownPoints(rest)
  {
    if |run| > 0 {
      var s := run + rest;
      assert s[0] == run[0] && IsPenDown(s[0]);
      assert s[1..] == run[1..] + rest;
      assert AllPenDown(run[1..]) by {
        forall i | 0 <= i < |run[1..]|
          ensures IsPenDown(run[1..][i])
        {
          assert run[1..][i] == run[i + 1];
        }
      }
      PenDownPointsOfRun(run[1..], rest);
      calc {
        PenDownPoints(s);
        [s[0]] + PenDownPoints(s[1..]);
        [run[0]] + (run[1..] + PenDownPoints(rest));
        { ConsAssociative(run[0], run[1..], PenDownPoints(rest)); }
        ([run[0]] + run[1..]) + PenDownPoints(rest);
        { assert [run[0]] + run[1..] == run; }
        run + PenDownPoints(rest);
      }
    } else {
      assert run + rest == rest;
    }
  }

  /** The pen-down points are pen-down, and every pen-down point of the
      input is among them. */
  lemma {:induction false} PenDownPointsSelect(s: seq<Point>)
    ensures AllPenDown(PenDownPoints(s))
    ensures forall i :: 0 <= i < |s| && IsPenDown(s[i]) ==> s[i] in PenDownPoints(s)
    decreases |s|
  {
    if |s| > 0 {
      PenDownPointsSelect(s[1..]);
      var r := PenDownPoints(s);
      forall i | 1 <= i < |s| && IsPenDown(s[i])
        ensures s[i] in r
      {
        assert s[1..][i - 1] == s[i];
      }
      if IsPenDown(s[0]) {
        var t := PenDownPoints(s[1..]);
        assert r == [s[0]] + t;
        forall j | 0 <= j < |r|
          ensures IsPenDown(r[j])
        {
          if j > 0 { assert r[j] == t[j - 1]; }
        }
      }
    }
  }

  /** Concatenating the strokes gives exactly the pen-down points, in
      order: no pen-down point is lost, duplicated or moved. */
  lemma {:induction false} StrokesCoverPenDownPoints(s: seq<Point>)
    ensures Flatten(Strokes(s)) == PenDownPoints(s)
    decreases |s|
  {
    if |s| > 0 {
      if !IsPenDown(s[0]) {
        StrokesCoverPenDownPoints(s[1..]);
      } else {
        var k := PenDownPrefix(s);
        StrokesCoverPenDownPoints(s[k..]);
        FlattenAppend([s[..k]], Strokes(s[k..]));
        assert Flatten([s[..k]]) == s[..k];
        assert s == s[..k] + s[k..];
        PenDownPointsOfRun(s[..k], s[k..]);
      }
    }
  }

  /** The number of indices where a pen-down run begins, scanning from the
      left; `inRun` says whether the point before `s` was pen-down. */
  function RunStarts(s: seq<Point>, inRun: bool): nat
  {
    if |s| == 0 then 0
    else (if IsPenDown(s[0]) && !inRun then 1 else 0) + RunStarts(s[1..], IsPenDown(s[0]))
  }

  lemma {:induction false} RunStartsSkipRun(s: seq<Point>, k: nat)
    requires k <= |s| && AllPenDown(s[..k])
    ensures RunStarts(s, true) == RunStarts(s[k..], true)
    decreases k
  {
    if k > 0 {
      assert IsPenDown(s[..k][0]) && s[..k][1..] == s[1..][..k - 1];
      RunStartsSkipRun(s[1..], k - 1);
      assert s[1..][k - 1..] == s[k..];
    }
  }

  /** There are as many strokes as places where a pen-down run begins (a
      pen-down point at the start or just after a pen-up point). Which points
      share a stroke is told by MaximalRunIsStroke and StrokesSplitAtPenUp. */
  lemma {:induction false} StrokeCount(s: seq<Point>)
    ensures |Strokes(s)| == RunStarts(s, false)
    decreases |s|
  {
    if |s| > 0 {
      if !IsPenDown(s[0]) {
        StrokeCount(s[1..]);
      } else {
        var k := PenDownPrefix(s);
        StrokeCount(s[k..]);
        assert s[..k][1..] == s[1..][..k - 1];
        RunStartsSkipRun(s[1..], k - 1);
        assert s[1..][k - 1..] == s[k..];
        if k < |s| {
          assert s[k..][0] == s[k];
        }
      }
    }
  }
}
