/**
 * The aggregator as the source writes it: the window globals and the seven
 * index-aligned point buffers become the fields of one object, and the output
 * bag's topic becomes the append-only field `written`. `ClearBuffers` states
 * its new fields directly; every other method is proved to leave the state
 * the matching function of module Windows gives.
 */
module Aggregate {
  import opened Livox
  import opened Windows
  import WindowProperties

  class Aggregator {
    /** The window width in nanoseconds (`window_ns`). */
    const windowNs: nat
    /** The frame label of every cloud the main loop flushes. */
    const frameId: string

    var xs: seq<Float32>
    var ys: seq<Float32>
    var zs: seq<Float32>
    var intens: seq<byte>
    var timesWithin: seq<nat>
    var tags: seq<byte>
    var lines: seq<byte>

    var winStartNs: nat
    var winEndNs: nat
    var windowActive: bool

    /** The clouds written to the output topic, in write order. */
    var written: seq<Cloud>

    /** The seven point buffers have one entry per buffered point. */
    ghost predicate Aligned()
      reads this
    {
      |ys| == |xs| && |zs| == |xs| && |intens| == |xs| && |timesWithin| == |xs| &&
      |tags| == |xs| && |lines| == |xs|
    }

    /** The buffered points, one per index of the seven buffers. */
    function Buffered(): (r: seq<CloudPoint>)
      reads this
      requires Aligned()
      ensures |r| == |xs|
    {
      Zip(xs, ys, zs, intens, tags, lines, timesWithin)
    }

    /** The object's state as a value of module Windows. */
    function Abstract(): Window
      reads this
      requires Aligned()
    {
      Window(windowActive, winStartNs, Buffered(), written)
    }

    /** The object invariant: aligned buffers, a positive width, the window
        end one width past its start once a window is open, both bounds 0
        before, and the running invariant of the value it stands for. */
    ghost predicate Valid()
      reads this
    {
      windowNs > 0 && Aligned() &&
      (windowActive ==> winEndNs == winStartNs + windowNs) &&
      (!windowActive ==> winStartNs == 0 && winEndNs == 0) &&
      WellFormed(Abstract(), windowNs)
    }

    /** Start of the run: empty buffers and no window. */
    constructor (windowNs: nat, frameId: string)
      requires windowNs > 0
      ensures Valid() && Abstract() == Initial
      ensures this.windowNs == windowNs && this.frameId == frameId
    {
      this.windowNs := windowNs;
      this.frameId := frameId;
      xs, ys, zs, intens, timesWithin, tags, lines := [], [], [], [], [], [], [];
      winStartNs, winEndNs := 0, 0;
      windowActive := false;
      written := [];
    }

    /** `clear_buffers`: empty all seven buffers and nothing else. */
    method ClearBuffers()
      modifies this
      ensures Aligned() && xs == [] && Buffered() == []
      ensures windowActive == old(windowActive) && winStartNs == old(winStartNs)
      ensures winEndNs == old(winEndNs) && written == old(written)
    {
      xs := []; ys := []; zs := []; intens := []; timesWithin := [];
      tags := []; lines := [];
    }

    /** `flush_window`: when a window is open and points are buffered, write
        one cloud stamped with the window start holding the buffered points
        in buffer order, then clear the buffers; otherwise do nothing. The
        window itself is not touched. */
    method FlushWindow(frame: string)
      requires Aligned()
      modifies this
      ensures Aligned()
      ensures Abstract() == Flush(old(Abstract()), frame)
      ensures windowActive == old(windowActive) && winStartNs == old(winStartNs)
      ensures winEndNs == old(winEndNs)
    {
      if !windowActive { return; }
      if |xs| == 0 { return; }
      var n := |xs|;
      var points: seq<CloudPoint> := [];
      for k := 0 to n
        invariant |points| == k
        invariant forall j | 0 <= j < k :: points[j] == Buffered()[j]
      {
        points := points + [CloudPoint(xs[k], ys[k], zs[k], intens[k], tags[k], lines[k], timesWithin[k])];
      }
      assert points == Buffered();
      written := written + [Cloud(winStartNs, frame, points)];
      ClearBuffers();
    }

    /** A catch-up loop: while `tNs` lies at or past the window end, flush
        and move the window one width on. */
    method CatchUp(tNs: nat)
      requires Valid() && windowActive
      modifies this
      ensures Valid() && windowActive
      ensures Abstract() == Windows.CatchUp(old(Abstract()), tNs, windowNs, frameId)
    {
      while tNs >= winEndNs
        invariant Valid() && windowActive
        invariant Windows.CatchUp(Abstract(), tNs, windowNs, frameId)
               == Windows.CatchUp(old(Abstract()), tNs, windowNs, frameId)
        decreases tNs - winStartNs
      {
        ghost var before := Abstract();
        WindowProperties.AdvancePreserves(before, windowNs, frameId, 0);
        FlushWindow(frameId);
        winStartNs := winEndNs;
        winEndNs := winStartNs + windowNs;
        assert Abstract() == Advance(before, windowNs, frameId);
      }
    }

    /** The `push_back` block: append the fields of point `p` of `msg` and
        its offset from the window start to the seven buffers. */
    method AppendPoint(msg: CustomMsg, p: CustomPoint)
      requires Valid() && windowActive
      requires winStartNs <= PointTime(msg, p) < winEndNs
      modifies this
      ensures Valid() && windowActive
      ensures winStartNs == old(winStartNs)
      ensures Abstract() == old(Abstract()).(buffer := old(Buffered()) + [Sample(msg, p, winStartNs)])
    {
      var tNs := msg.timebase + p.offsetTime;
      ghost var s0 := Abstract();
      ghost var q := Sample(msg, p, winStartNs);
      ZipSnoc(xs, ys, zs, intens, tags, lines, timesWithin,
              p.x, p.y, p.z, p.reflectivity, p.tag, p.line, tNs - winStartNs);
      xs, ys, zs := xs + [p.x], ys + [p.y], zs + [p.z];
      intens, tags, lines := intens + [p.reflectivity], tags + [p.tag], lines + [p.line];
      timesWithin := timesWithin + [tNs - winStartNs];
      assert Abstract() == s0.(buffer := s0.buffer + [q]);
      WindowProperties.AppendKeepsWellFormed(s0, q, windowNs);
    }

    /** The per-point loop over `msg`: for each point in turn, catch up to
        it and append it. */
    method AddPoints(msg: CustomMsg)
      requires Valid() && windowActive && ReadyAt(Abstract(), msg, 0)
      modifies this
      ensures Valid() && windowActive
      ensures Abstract() == AddPointsFrom(old(Abstract()), msg, 0, windowNs, frameId)
    {
      for i := 0 to |msg.points|
        invariant Valid() && windowActive
        invariant ReadyAt(Abstract(), msg, i)
        invariant AddPointsFrom(Abstract(), msg, i, windowNs, frameId)
               == AddPointsFrom(old(Abstract()), msg, 0, windowNs, frameId)
      {
        var p := msg.points[i];
        var tNs := msg.timebase + p.offsetTime;
        ghost var before := Abstract();
        CatchUp(tNs);
        AppendPoint(msg, p);
        assert Abstract() == AddPoint(before, msg, p, windowNs, frameId);
      }
    }

    /** One in-topic `CustomMsg`: skip it when it has no points; open the
        window at its first point if none is open; catch up to the first
        point; then add its points. */
    method Ingest(msg: CustomMsg)
      requires Valid() && IngestReady(Abstract(), msg)
      modifies this
      ensures Valid()
      ensures Abstract() == Windows.Ingest(old(Abstract()), msg, windowNs, frameId)
      ensures Skipped(msg) ==> Abstract() == old(Abstract()) && winEndNs == old(winEndNs)
    {
      if msg.pointNum == 0 || |msg.points| == 0 { return; }
      var firstPtNs := msg.timebase + msg.points[0].offsetTime;
      if !windowActive {
        windowActive := true;
        winStartNs := firstPtNs;
        winEndNs := winStartNs + windowNs;
      }
      ghost var act := Abstract();
      assert act == if old(windowActive) then old(Abstract())
                       else old(Abstract()).(active := true, start := firstPtNs);
      CatchUp(firstPtNs);
      AddPoints(msg);
    }

    /** The trailing flush: when a window is open and points are buffered,
        write them as one last cloud with the fixed frame label. It is the
        last step of a run: the new cloud is stamped with the window start,
        so `Valid()` no longer holds afterwards, but the output stays valid. */
    method Finish()
      requires Valid()
      modifies this
      ensures Aligned() && Buffered() == []
      ensures Abstract() == Windows.Finish(old(Abstract()))
      ensures ValidOutput(written, windowNs)
      ensures windowActive == old(windowActive) && winStartNs == old(winStartNs)
      ensures winEndNs == old(winEndNs)
    {
      WindowProperties.FinishPreserves(Abstract(), windowNs, 0);
      if windowActive && |xs| > 0 {
        FlushWindow(DefaultFrame);
      }
    }
  }

  /** The main loop over the in-topic messages of the input bag, followed by
      the trailing flush: it returns every cloud written to the output topic.
      They are non-empty, have strictly increasing stamps on the grid anchored
      at the first point, and together hold every accepted point exactly once,
      in input order, each with its offset from its cloud's stamp. */
  method Aggregate(msgs: seq<CustomMsg>, windowNs: nat, frameId: string) returns (clouds: seq<Cloud>)
    requires windowNs > 0 && Ordered(Samples(msgs))
    ensures clouds == Windows.Finish(Run(msgs, windowNs, frameId)).out
    ensures ValidOutput(clouds, windowNs)
    ensures Flatten(clouds) == Samples(msgs)
    ensures Samples(msgs) != [] ==>
      forall i | 0 <= i < |clouds| :: OnGrid(clouds[i].stampNs, Samples(msgs)[0].timeNs, windowNs)
  {
    var agg := new Aggregator(windowNs, frameId);
    for i := 0 to |msgs|
      invariant agg.Valid() && agg.windowNs == windowNs && agg.frameId == frameId
      invariant Ordered(Samples(msgs[..i]))
      invariant agg.Abstract() == Run(msgs[..i], windowNs, frameId)
    {
      WindowProperties.RunPrefixStep(msgs, i, windowNs, frameId);
      agg.Ingest(msgs[i]);
    }
    assert msgs[..|msgs|] == msgs;
    agg.Finish();
    clouds := agg.written;
    WindowProperties.AggregateCorrect(msgs, windowNs, frameId);
  }

  /** The points held in seven index-aligned buffers, one per index. */
  function Zip(x: seq<Float32>, y: seq<Float32>, z: seq<Float32>, i: seq<byte>,
               g: seq<byte>, l: seq<byte>, t: seq<nat>): (r: seq<CloudPoint>)
    requires |y| == |x| && |z| == |x| && |i| == |x| && |g| == |x| && |l| == |x| && |t| == |x|
    ensures |r| == |x|
    ensures forall k | 0 <= k < |x| :: r[k] == CloudPoint(x[k], y[k], z[k], i[k], g[k], l[k], t[k])
  {
    seq(|x|, k requires 0 <= k < |x| => CloudPoint(x[k], y[k], z[k], i[k], g[k], l[k], t[k]))
  }

  /** Pushing one value onto each of the seven buffers appends one point. */
  lemma ZipSnoc(x: seq<Float32>, y: seq<Float32>, z: seq<Float32>, i: seq<byte>,
                g: seq<byte>, l: seq<byte>, t: seq<nat>,
                x1: Float32, y1: Float32, z1: Float32, i1: byte, g1: byte, l1: byte, t1: nat)
    requires |y| == |x| && |z| == |x| && |i| == |x| && |g| == |x| && |l| == |x| && |t| == |x|
    ensures Zip(x + [x1], y + [y1], z + [z1], i + [i1], g + [g1], l + [l1], t + [t1])
         == Zip(x, y, z, i, g, l, t) + [CloudPoint(x1, y1, z1, i1, g1, l1, t1)]
  {
    var lhs := Zip(x + [x1], y + [y1], z + [z1], i + [i1], g + [g1], l + [l1], t + [t1]);
    var rhs := Zip(x, y, z, i, g, l, t) + [CloudPoint(x1, y1, z1, i1, g1, l1, t1)];
    assert forall k | 0 <= k < |lhs| :: lhs[k] == rhs[k];
  }
}
