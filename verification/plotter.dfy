/** The point buffer and stroke grouping of main/plotter.py (`Plotter`).

    Points arrive on a FIFO queue, are drained into three parallel bounded
    deques (`x_coords`, `y_coords`, `z_coords`, each of capacity
    `max_points`), and every frame the buffered points are grouped into
    pen-down strokes, which are what gets drawn. The matplotlib figure, the
    lock and the thread-safe queue are not modelled: the queue is a plain
    sequence and a frame returns the strokes it would draw. */
module Plotting {
  import opened Options
  import opened Deque
  import opened Segmentation

  /** `zip(x_coords, y_coords, z_coords)` over deques of equal length. */
  function Zip(xs: seq<real>, ys: seq<real>, zs: seq<real>): (r: seq<Point>)
    requires |xs| == |ys| == |zs|
    ensures |r| == |xs|
  {
    if |xs| == 0 then [] else [Point(xs[0], ys[0], zs[0])] + Zip(xs[1..], ys[1..], zs[1..])
  }

  lemma {:induction false} ZipSnoc(xs: seq<real>, ys: seq<real>, zs: seq<real>, p: Point)
    requires |xs| == |ys| == |zs|
    ensures Zip(xs + [p.x], ys + [p.y], zs + [p.z]) == Zip(xs, ys, zs) + [p]
  {
    if |xs| > 0 {
      assert (xs + [p.x])[1..] == xs[1..] + [p.x];
      assert (ys + [p.y])[1..] == ys[1..] + [p.y];
      assert (zs + [p.z])[1..] == zs[1..] + [p.z];
      ZipSnoc(xs[1..], ys[1..], zs[1..], p);
    }
  }

  function Xs(s: seq<Point>): (r: seq<real>)
    ensures |r| == |s|
  {
    seq(|s|, i requires 0 <= i < |s| => s[i].x)
  }

  function Ys(s: seq<Point>): (r: seq<real>)
    ensures |r| == |s|
  {
    seq(|s|, i requires 0 <= i < |s| => s[i].y)
  }

  /** The x coordinates of each stroke (`segments_x`). */
  function StrokesX(ss: seq<seq<Point>>): (r: seq<seq<real>>)
    ensures |r| == |ss|
  {
    seq(|ss|, i requires 0 <= i < |ss| => Xs(ss[i]))
  }

  /** The y coordinates of each stroke (`segments_y`). */
  function StrokesY(ss: seq<seq<Point>>): (r: seq<seq<real>>)
    ensures |r| == |ss|
  {
    seq(|ss|, i requires 0 <= i < |ss| => Ys(ss[i]))
  }

  lemma StrokesXYAppend(ss: seq<seq<Point>>, run: seq<Point>)
    ensures StrokesX(ss + [run]) == StrokesX(ss) + [Xs(run)]
    ensures StrokesY(ss + [run]) == StrokesY(ss) + [Ys(run)]
  {
  }

  /** Appending one point to each of the three deques appends the zipped
      point to the deque of points. */
  lemma ZipAppend(xs: seq<real>, ys: seq<real>, zs: seq<real>, p: Point, n: nat)
    requires |xs| == |ys| == |zs| <= n
    ensures Zip(Append(xs, p.x, n), Append(ys, p.y, n), Append(zs, p.z, n)) == Append(Zip(xs, ys, zs), p, n)
  {
    if n > 0 && |xs| < n {
      ZipSnoc(xs, ys, zs, p);
    } else if n > 0 {
      ZipSnoc(xs[1..], ys[1..], zs[1..], p);
    }
  }

  /** Appending one drained point to the three deques keeps them the
      window of everything seen so far. */
  lemma DrainStep(xs: seq<real>, ys: seq<real>, zs: seq<real>, p: Point, n: nat,
                  before: seq<Point>, consumed: seq<Point>)
    requires |xs| == |ys| == |zs| <= n
    requires Zip(xs, ys, zs) == Window(before + consumed, n)
    ensures Zip(Append(xs, p.x, n), Append(ys, p.y, n), Append(zs, p.z, n)) == Window(before + (consumed + [p]), n)
  {
    var seen := before + consumed;
    calc {
      Zip(Append(xs, p.x, n), Append(ys, p.y, n), Append(zs, p.z, n));
      { ZipAppend(xs, ys, zs, p, n); }
      Append(Window(seen, n), p, n);
      Window(Window(seen, n) + [p], n);
      { WindowOfWindow(seen, [p], n); }
      Window(seen + [p], n);
      { assert seen + [p] == before + (consumed + [p]); }
      Window(before + (consumed + [p]), n);
    }
  }

  /** The grouping loop of `_update_plot`: scan the points once, extending
      the current segment on every pen-down point and closing it (when it is
      non-empty) on every pen-up point and at the end. The result is the x
      and y coordinates of the strokes of the points; every segment is
      non-empty and its two coordinate lists have the same length. */
  method GroupSegments(points: seq<Point>) returns (segmentsX: seq<seq<real>>, segmentsY: seq<seq<real>>)
    ensures segmentsX == StrokesX(Strokes(points)) && segmentsY == StrokesY(Strokes(points))
    ensures |segmentsX| == |segmentsY|
    ensures forall i :: 0 <= i < |segmentsX| ==> |segmentsX[i]| > 0 && |segmentsX[i]| == |segmentsY[i]|
  {
    segmentsX, segmentsY := [], [];
    var currentX: seq<real>, currentY: seq<real> := [], [];
    ghost var start := 0;
    for i := 0 to |points|
      invariant start <= i
      invariant start == 0 || !IsPenDown(points[start - 1])
      invariant AllPenDown(points[start..i])
      invariant currentX == Xs(points[start..i]) && currentY == Ys(points[start..i])
      invariant segmentsX == StrokesX(Strokes(points[..start]))
      invariant segmentsY == StrokesY(Strokes(points[..start]))
    {
      var p := points[i];
      assert points[start..i + 1] == points[start..i] + [p];
      if p.z == 0.0 {
        currentX := currentX + [p.x];
        currentY := currentY + [p.y];
      } else {
        StrokesCloseRun(points[..start], points[start..i], p);
        assert points[..i + 1] == points[..start] + points[start..i] + [p];
        if |currentX| > 0 {
          StrokesXYAppend(Strokes(points[..start]), points[start..i]);
          segmentsX := segmentsX + [currentX];
          segmentsY := segmentsY + [currentY];
          currentX, currentY := [], [];
        }
        start := i + 1;
      }
    }
    var done, run := points[..start], points[start..|points|];
    StrokesAppendRun(done, run);
    assert points == done + run;
    if |currentX| > 0 {
      StrokesXYAppend(Strokes(done), run);
      segmentsX := segmentsX + [currentX];
      segmentsY := segmentsY + [currentY];
    } else {
      assert Strokes(points) == Strokes(done) + [];
    }
    StrokesAreNonEmptyPenDown(points);
  }

  /** `current_index` after one `_animate` frame: it advances while there is
      a coordinate left to replay. */
  function NextIndex(index: nat, list: Option<seq<Point>>): (r: nat)
    ensures index <= r <= index + 1
    ensures r == index + 1 <==> list.Some? && index < |list.value|
    ensures list.Some? && index <= |list.value| ==> r <= |list.value|
  {
    if list.Some? && index < |list.value| then index + 1 else index
  }

  /** `current_index` after `frames` frames following `add_points(list)`. */
  function IndexAfter(list: seq<Point>, frames: nat): nat
  {
    if frames == 0 then 0 else NextIndex(IndexAfter(list, frames - 1), Some(list))
  }

  /** The buffered points after `frames` frames following `add_points(list)`
      with nothing else queued: each frame appends the coordinate at the
      current index, if any, to deques of capacity `n`. */
  function PointsAfter(list: seq<Point>, frames: nat, n: nat): (r: seq<Point>)
    ensures |r| <= n
  {
    if frames == 0 then []
    else
      var before := PointsAfter(list, frames - 1, n);
      var index := IndexAfter(list, frames - 1);
      if index < |list| then Append(before, list[index], n) else before
  }

  /** The index advances one per frame and stops at the end of the list. */
  lemma {:induction false} AnimationIndex(list: seq<Point>, frames: nat)
    ensures IndexAfter(list, frames) == Min(frames, |list|)
  {
    if frames > 0 {
      AnimationIndex(list, frames - 1);
    }
  }

  /** One frame that still has a coordinate to replay appends it. */
  lemma ReplayFrame(list: seq<Point>, frames: nat, n: nat)
    requires 0 < frames <= |list|
    requires PointsAfter(list, frames - 1, n) == Window(list[..frames - 1], n)
    requires IndexAfter(list, frames - 1) == frames - 1
    ensures PointsAfter(list, frames, n) == Window(list[..frames], n)
  {
    var k := frames - 1;
    calc {
      PointsAfter(list, frames, n);
      Append(Window(list[..k], n), list[k], n);
      Window(Window(list[..k], n) + [list[k]], n);
      { WindowOfWindow(list[..k], [list[k]], n); }
      Window(list[..k] + [list[k]], n);
      { assert list[..k] + [list[k]] == list[..frames]; }
      Window(list[..frames], n);
    }
  }

  /** Animation replays the coordinate list in order: after `frames` frames
      the buffer holds the last `n` of the first `min(frames, |list|)`
      coordinates. */
  lemma {:induction false} AnimationReplaysList(list: seq<Point>, frames: nat, n: nat)
    ensures PointsAfter(list, frames, n) == Window(list[..Min(frames, |list|)], n)
  {
    if frames == 0 {
      assert list[..0] == [];
    } else {
      var k := frames - 1;
      AnimationReplaysList(list, k, n);
      AnimationIndex(list, k);
      if frames <= |list| {
        assert Min(k, |list|) == k;
        ReplayFrame(list, frames, n);
      }
    }
  }

  class Plotter {
    const maxPoints: nat

    var xCoords: seq<real>
    var yCoords: seq<real>
    var zCoords: seq<real>
    var queue: seq<Point>
    var coordinateList: Option<seq<Point>>
    var currentIndex: nat

    /** The three deques stay parallel and within capacity, and the replay
        index stays within the coordinate list. */
    ghost predicate Valid()
      reads this
    {
      |xCoords| == |yCoords| == |zCoords| <= maxPoints &&
      (coordinateList.None? ==> currentIndex == 0) &&
      (coordinateList.Some? ==> currentIndex <= |coordinateList.value|)
    }

    /** The buffered points, oldest first. */
    function Points(): seq<Point>
      reads this
      requires |xCoords| == |yCoords| == |zCoords|
    {
      Zip(xCoords, yCoords, zCoords)
    }

    constructor (maxPoints: nat)
      ensures Valid() && this.maxPoints == maxPoints
      ensures Points() == [] && queue == [] && coordinateList == None && currentIndex == 0
    {
      this.maxPoints := maxPoints;
      xCoords, yCoords, zCoords := [], [], [];
      queue := [];
      coordinateList := None;
      currentIndex := 0;
    }

    /** `add_point`: enqueue, to be buffered on the next frame. */
    method AddPoint(x: real, y: real, z: real)
      modifies this`queue
      ensures queue == old(queue) + [Point(x, y, z)]
    {
      queue := queue + [Point(x, y, z)];
    }

    /** `_process_queue`: drain the queue front first into the deques. The
        buffer then holds the last `maxPoints` of the old buffer followed by
        the old queue. */
    method ProcessQueue()
      requires Valid()
      modifies this`xCoords, this`yCoords, this`zCoords, this`queue
      ensures Valid() && queue == []
      ensures Points() == Window(old(Points()) + old(queue), maxPoints)
    {
      ghost var before, consumed: seq<Point> := Points(), [];
      assert before + consumed == before;
      while |queue| > 0
        invariant |xCoords| == |yCoords| == |zCoords| <= maxPoints
        invariant old(queue) == consumed + queue
        invariant Zip(xCoords, yCoords, zCoords) == Window(before + consumed, maxPoints)
        decreases |queue|
      {
        ghost var p := queue[0];
        TakeOne(before, consumed);
        consumed := consumed + [p];
      }
      assert consumed == old(queue);
      assert Points() == Zip(xCoords, yCoords, zCoords);
    }

    /** One pass of the drain loop: take the oldest queued point and append
        its three coordinates. Given that the deques hold the window of
        `before + consumed`, they then hold the window with that point
        added. */
    method TakeOne(ghost before: seq<Point>, ghost consumed: seq<Point>)
      requires |queue| > 0 && |xCoords| == |yCoords| == |zCoords| <= maxPoints
      requires Zip(xCoords, yCoords, zCoords) == Window(before + consumed, maxPoints)
      modifies this`xCoords, this`yCoords, this`zCoords, this`queue
      ensures queue == old(queue)[1..]
      ensures |xCoords| == |yCoords| == |zCoords| <= maxPoints
      ensures Zip(xCoords, yCoords, zCoords) == Window(before + (consumed + [old(queue)[0]]), maxPoints)
    {
      var p := queue[0];
      queue := queue[1..];
      DrainStep(xCoords, yCoords, zCoords, p, maxPoints, before, consumed);
      xCoords := Append(xCoords, p.x, maxPoints);
      yCoords := Append(yCoords, p.y, maxPoints);
      zCoords := Append(zCoords, p.z, maxPoints);
    }

    /** `clear`: empty the three deques and drain the queue. */
    method Clear()
      requires Valid()
      modifies this`xCoords, this`yCoords, this`zCoords, this`queue
      ensures Valid() && Points() == [] && queue == []
    {
      xCoords, yCoords, zCoords := [], [], [];
      while |queue| > 0
        invariant Valid() && Points() == []
        decreases |queue|
      {
        queue := queue[1..];
      }
    }

    /** `add_points`: clear, then remember the list to replay from its
        start. */
    method AddPoints(coordinates: seq<Point>)
      requires Valid()
      modifies this
      ensures Valid() && Points() == [] && queue == []
      ensures coordinateList == Some(coordinates) && currentIndex == 0
    {
      Clear();
      coordinateList := Some(coordinates);
      currentIndex := 0;
    }

    /** `_update_plot`: drain the queue, then group the buffered points
        into the strokes to draw (none when the buffer is empty). */
    method UpdatePlot() returns (segmentsX: seq<seq<real>>, segmentsY: seq<seq<real>>)
      requires Valid()
      modifies this`xCoords, this`yCoords, this`zCoords, this`queue
      ensures Valid() && queue == []
      ensures Points() == Window(old(Points()) + old(queue), maxPoints)
      ensures segmentsX == StrokesX(Strokes(Points())) && segmentsY == StrokesY(Strokes(Points()))
    {
      ProcessQueue();
      if |xCoords| > 0 {
        segmentsX, segmentsY := GroupSegments(Points());
      } else {
        segmentsX, segmentsY := [], [];
      }
    }

    /** `_animate`: enqueue the next coordinate of the replayed list, if
        any, advance the index, then run a frame. */
    method Animate() returns (segmentsX: seq<seq<real>>, segmentsY: seq<seq<real>>)
      requires Valid()
      modifies this`xCoords, this`yCoords, this`zCoords, this`queue, this`currentIndex
      ensures Valid() && queue == []
      ensures currentIndex == NextIndex(old(currentIndex), coordinateList)
      ensures var added := if old(currentIndex) < currentIndex then [coordinateList.value[old(currentIndex)]] else [];
        Points() == Window(old(Points()) + old(queue) + added, maxPoints)
      ensures segmentsX == StrokesX(Strokes(Points())) && segmentsY == StrokesY(Strokes(Points()))
    {
      ghost var buffered := Points();
      ghost var added: seq<Point> := [];
      if coordinateList.Some? && currentIndex < |coordinateList.value| {
        var coord := coordinateList.value[currentIndex];
        AddPoint(coord.x, coord.y, coord.z);
        currentIndex := currentIndex + 1;
        added := [coord];
      }
      assert Points() == buffered && queue == old(queue) + added;
      segmentsX, segmentsY := UpdatePlot();
      assert buffered + (old(queue) + added) == old(Points()) + old(queue) + added;
    }
  }
}
