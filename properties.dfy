/**
 * Properties of the windowing steps in module Windows: every step keeps the
 * running invariant (`WellFormed`), keeps the window grid (`Phased`), and
 * loses, duplicates or reorders no point (`Recovered`); a catch-up across a
 * gap writes at most one cloud; and the whole run delivers every input point
 * exactly once, in order, in the grid window that contains it.
 */
module WindowProperties {
  import opened Livox
  import opened Windows

  /** Appending a cloud appends its points, timed absolutely, to the flattening. */
  lemma FlattenSnoc(out: seq<Cloud>, c: Cloud)
    ensures Flatten(out + [c]) == Flatten(out) + Shift(c.points, c.stampNs)
  {
    assert (out + [c])[..|out|] == out;
  }

  /** Buffering a point whose offset lies within the width keeps the invariant. */
  lemma AppendKeepsWellFormed(s: Window, q: CloudPoint, w: nat)
    requires WellFormed(s, w) && s.active && q.timeNs < w
    ensures WellFormed(s.(buffer := s.buffer + [q]), w)
  {
  }

  /** Grid boundaries are closed under one more width. */
  lemma GridStep(x: nat, a: nat, w: nat)
    requires w > 0 && OnGrid(x, a, w)
    ensures OnGrid(x + w, a, w)
  {
  }

  /** A boundary of a grid anchored at one of its own boundaries is a boundary
      of the original grid. */
  lemma {:induction false} GridTrans(x: nat, b: nat, a: nat, w: nat)
    requires w > 0 && OnGrid(x, b, w) && OnGrid(b, a, w)
    ensures OnGrid(x, a, w)
    decreases x
  {
    if x != b {
      GridTrans(x - w, b, a, w);
      GridStep(x - w, a, w);
    }
  }

  /** Every grid boundary lies at or after the anchor. */
  lemma GridAtLeastAnchor(x: nat, a: nat, w: nat)
    requires OnGrid(x, a, w)
    ensures a <= x
  {
  }

  /** A timestamp lies in at most one window of a grid: two grid windows
      `[x, x + w)` and `[y, y + w)` that both contain `t` are the same. */
  lemma {:induction false} GridWindowUnique(x: nat, y: nat, a: nat, w: nat, t: nat)
    requires w > 0 && OnGrid(x, a, w) && OnGrid(y, a, w)
    requires x <= t < x + w && y <= t < y + w
    ensures x == y
    decreases x + y
  {
    if x != a && y != a {
      GridWindowUnique(x - w, y - w, a, w, t - w);
    }
  }

  /** A timestamp at or after a grid boundary `x` lies in some window of the
      grid; with `GridWindowUnique`, in exactly one. */
  lemma {:induction false} GridWindowExists(x: nat, a: nat, w: nat, t: nat)
    requires w > 0 && OnGrid(x, a, w) && x <= t
    ensures exists y: nat :: OnGrid(y, a, w) && y <= t < y + w
    decreases t - x
  {
    if t >= x + w {
      GridStep(x, a, w);
      GridWindowExists(x + w, a, w, t);
    }
  }

  /** One advance of the window: the buffer is emptied into at most one
      cloud, nothing is lost, the invariant and the grid are kept, and the
      new start is one width on. */
  lemma AdvancePreserves(s: Window, w: nat, frame: string, a: nat)
    requires w > 0 && s.active
    ensures var r := Advance(s, w, frame);
      && r.active && r.buffer == [] && r.start == s.start + w
      && r.out == s.out + (if s.buffer == [] then [] else [Cloud(s.start, frame, s.buffer)])
      && Recovered(r) == Recovered(s)
      && (WellFormed(s, w) ==> WellFormed(r, w))
      && (Phased(s, a, w) ==> Phased(r, a, w))
  {
    var r := Advance(s, w, frame);
    if s.buffer != [] {
      var c := Cloud(s.start, frame, s.buffer);
      assert r.out == s.out + [c];
      FlattenSnoc(s.out, c);
      if WellFormed(s, w) {
        assert CloudFits(c, w);
        assert forall i | 0 <= i < |s.out| :: r.out[i] == s.out[i];
      }
    }
    if Phased(s, a, w) {
      GridStep(s.start, a, w);
    }
  }

  /** A catch-up loop loses nothing, keeps the invariant and the grid, and
      leaves the window on its own grid with `t` inside it. */
  lemma {:induction false} CatchUpPreserves(s: Window, t: nat, w: nat, frame: string, a: nat)
    requires w > 0 && s.active && s.start <= t
    ensures var r := CatchUp(s, t, w, frame);
      && Recovered(r) == Recovered(s)
      && (WellFormed(s, w) ==> WellFormed(r, w))
      && (Phased(s, a, w) ==> Phased(r, a, w))
      && OnGrid(r.start, s.start, w) && r.start <= t < r.start + w
    decreases t - s.start
  {
    if t >= s.start + w {
      var n := Advance(s, w, frame);
      AdvancePreserves(s, w, frame, a);
      CatchUpPreserves(n, t, w, frame, a);
      var r := CatchUp(n, t, w, frame);
      assert r == CatchUp(s, t, w, frame);
      assert OnGrid(s.start, s.start, w);
      GridStep(s.start, s.start, w);
      GridTrans(r.start, n.start, s.start, w);
    }
  }

  /** A catch-up from a state with nothing to flush writes nothing. */
  lemma {:induction false} CatchUpQuiet(s: Window, t: nat, w: nat, frame: string)
    requires w > 0 && (!s.active || s.buffer == [])
    ensures CatchUp(s, t, w, frame).out == s.out
    ensures CatchUp(s, t, w, frame).buffer == s.buffer
    decreases t - s.start
  {
    if t >= s.start + w {
      CatchUpQuiet(Advance(s, w, frame), t, w, frame);
    }
  }

  /** Gap skipping: however many windows a catch-up crosses, it writes at most
      one cloud, the one holding the buffered points, stamped with the old
      window start; the empty windows it passes write nothing. */
  lemma CatchUpEmitsAtMostOne(s: Window, t: nat, w: nat, frame: string)
    requires w > 0
    ensures var r := CatchUp(s, t, w, frame);
      && (t < s.start + w ==> r == s)
      && (t >= s.start + w ==>
            && r.out == s.out + (if s.active && s.buffer != [] then [Cloud(s.start, frame, s.buffer)] else [])
            && r.buffer == (if s.active then [] else s.buffer))
  {
    if t >= s.start + w {
      CatchUpQuiet(Advance(s, w, frame), t, w, frame);
    }
  }

  /** Appending one point: it is the only new point, the invariant and the
      grid are kept, and the window stays on its own grid. */
  lemma AddPointPreserves(s: Window, msg: CustomMsg, p: CustomPoint, w: nat, frame: string, a: nat)
    requires w > 0 && s.active && s.start <= PointTime(msg, p)
    ensures var r := AddPoint(s, msg, p, w, frame);
      && Recovered(r) == Recovered(s) + [Sample(msg, p, 0)]
      && (WellFormed(s, w) ==> WellFormed(r, w))
      && (Phased(s, a, w) ==> Phased(r, a, w))
      && OnGrid(r.start, s.start, w)
  {
    var t := PointTime(msg, p);
    var c := CatchUp(s, t, w, frame);
    CatchUpPreserves(s, t, w, frame, a);
    var q := Sample(msg, p, c.start);
    assert Shift(c.buffer + [q], c.start) == Shift(c.buffer, c.start) + [Sample(msg, p, 0)];
  }

  /** The per-point loop from point `i` on: it adds exactly the points from
      `i` on, in order, and keeps the invariant and the grid. */
  lemma {:induction false} AddPointsFromPreserves(s: Window, msg: CustomMsg, i: nat, w: nat, frame: string, a: nat)
    requires w > 0 && s.active && ReadyAt(s, msg, i)
    ensures var r := AddPointsFrom(s, msg, i, w, frame);
      && Recovered(r) == Recovered(s) + PointSamples(msg)[i..]
      && (WellFormed(s, w) ==> WellFormed(r, w))
      && (Phased(s, a, w) ==> Phased(r, a, w))
      && OnGrid(r.start, s.start, w)
    decreases |msg.points| - i
  {
    if i < |msg.points| {
      var p := msg.points[i];
      var n := AddPoint(s, msg, p, w, frame);
      AddPointPreserves(s, msg, p, w, frame, a);
      AddPointsFromPreserves(n, msg, i + 1, w, frame, a);
      var r := AddPointsFrom(n, msg, i + 1, w, frame);
      assert r == AddPointsFrom(s, msg, i, w, frame);
      GridTrans(r.start, n.start, s.start, w);
      var ps := PointSamples(msg);
      assert ps[i] == Sample(msg, p, 0);
      SliceStep(Recovered(s), Recovered(n), Recovered(r), ps, i);
    }
  }

  /** Adding element `i`, then the elements after it, adds the slice from `i`. */
  lemma SliceStep(a: seq<CloudPoint>, b: seq<CloudPoint>, c: seq<CloudPoint>, ps: seq<CloudPoint>, i: nat)
    requires i < |ps| && b == a + [ps[i]] && c == b + ps[i + 1..]
    ensures c == a + ps[i..]
  {
    assert ps[i..] == [ps[i]] + ps[i + 1..];
  }

  /** One message: its accepted points are added in order and nothing else;
      the invariant is kept; the first message with points anchors the grid
      at its first point, and a later one keeps the grid it found. */
  lemma IngestPreserves(s: Window, msg: CustomMsg, w: nat, frame: string, a: nat)
    requires w > 0 && IngestReady(s, msg) && WellFormed(s, w)
    ensures var r := Ingest(s, msg, w, frame);
      && Recovered(r) == Recovered(s) + MsgSamples(msg)
      && WellFormed(r, w)
      && (s.active && Phased(s, a, w) ==> Phased(r, a, w))
      && (s.active ==> OnGrid(r.start, s.start, w))
      && (!s.active && !Skipped(msg) ==> Phased(r, PointTime(msg, msg.points[0]), w))
  {
    if !Skipped(msg) {
      var first := PointTime(msg, msg.points[0]);
      var b := if s.active then a else first;
      var act := if s.active then s else s.(active := true, start := first);
      assert Recovered(act) == Recovered(s);
      assert WellFormed(act, w);
      var c := CatchUp(act, first, w, frame);
      CatchUpPreserves(act, first, w, frame, b);
      AddPointsFromPreserves(c, msg, 0, w, frame, b);
      GridTrans(Ingest(s, msg, w, frame).start, c.start, act.start, w);
      assert PointSamples(msg)[0..] == MsgSamples(msg);
    }
  }

  /** The invariant of a whole run before the trailing flush: well formed,
      holding every accepted point exactly once and in input order, and on
      the grid anchored at the first accepted point. */
  lemma {:induction false} RunInvariant(msgs: seq<CustomMsg>, w: nat, frame: string)
    requires w > 0 && Ordered(Samples(msgs))
    ensures var r := Run(msgs, w, frame);
      && WellFormed(r, w)
      && Recovered(r) == Samples(msgs)
      && (Samples(msgs) != [] ==> Phased(r, Samples(msgs)[0].timeNs, w))
  {
    if msgs != [] {
      var prev := msgs[..|msgs| - 1];
      var m := msgs[|msgs| - 1];
      OrderedBefore(Samples(prev), m);
      var s := Run(prev, w, frame);
      ReadyNext(Samples(prev), m, s);
      RunInvariant(prev, w, frame);
      var all := Samples(msgs);
      if Samples(prev) != [] {
        assert all[0] == Samples(prev)[0];
        IngestPreserves(s, m, w, frame, Samples(prev)[0].timeNs);
      } else {
        IngestPreserves(s, m, w, frame, 0);
        if !Skipped(m) {
          assert all[0] == PointSamples(m)[0];
        }
      }
    }
  }

  /** The trailing flush: it writes one more cloud exactly when points are
      buffered, stamped with the window start and holding them; afterwards
      the output alone holds every point, and stays valid and on the grid. */
  lemma FinishPreserves(s: Window, w: nat, a: nat)
    requires WellFormed(s, w)
    ensures var r := Finish(s);
      && r.out == s.out + (if s.buffer == [] then [] else [Cloud(s.start, DefaultFrame, s.buffer)])
      && r.buffer == []
      && ValidOutput(r.out, w)
      && Flatten(r.out) == Recovered(s)
      && (Phased(s, a, w) ==> forall i | 0 <= i < |r.out| :: OnGrid(r.out[i].stampNs, a, w))
  {
    var r := Finish(s);
    if s.buffer != [] {
      var c := Cloud(s.start, DefaultFrame, s.buffer);
      FlattenSnoc(s.out, c);
      assert CloudFits(c, w);
      assert forall i | 0 <= i < |s.out| :: r.out[i] == s.out[i];
    }
  }

  /** The points of the first `i` messages are a prefix of those of all. */
  lemma {:induction false} SamplesPrefix(msgs: seq<CustomMsg>, i: nat)
    requires i <= |msgs|
    ensures |Samples(msgs[..i])| <= |Samples(msgs)|
    ensures Samples(msgs[..i]) == Samples(msgs)[..|Samples(msgs[..i])|]
  {
    if i < |msgs| {
      var prev := msgs[..|msgs| - 1];
      assert prev[..i] == msgs[..i];
      SamplesPrefix(prev, i);
    } else {
      assert msgs[..i] == msgs;
    }
  }

  /** A prefix of an ordered stream is ordered. */
  lemma OrderedPrefix(pts: seq<CloudPoint>, n: nat)
    requires n <= |pts| && Ordered(pts)
    ensures Ordered(pts[..n])
  {
  }

  /** One message further along a stream: the prefixes are ordered, the next
      message may be given to the state the prefix leads to, and the longer
      prefix leads to the state one `Ingest` further. */
  lemma RunPrefixStep(msgs: seq<CustomMsg>, i: nat, w: nat, frame: string)
    requires w > 0 && i < |msgs| && Ordered(Samples(msgs))
    ensures Ordered(Samples(msgs[..i])) && Ordered(Samples(msgs[..i + 1]))
    ensures IngestReady(Run(msgs[..i], w, frame), msgs[i])
    ensures Run(msgs[..i + 1], w, frame) == Ingest(Run(msgs[..i], w, frame), msgs[i], w, frame)
  {
    var prev := msgs[..i];
    var next := msgs[..i + 1];
    assert Ordered(Samples(next)) by {
      SamplesPrefix(msgs, i + 1);
      OrderedPrefix(Samples(msgs), |Samples(next)|);
    }
    assert next[..i] == prev && next[i] == msgs[i];
    assert Samples(next) == Samples(prev) + MsgSamples(msgs[i]);
    OrderedBefore(Samples(prev), msgs[i]);
    ReadyNext(Samples(prev), msgs[i], Run(prev, w, frame));
  }

  /** The aggregator end to end: the clouds written for a stream, trailing
      flush included, are non-empty, have strictly increasing stamps on the
      grid anchored at the first accepted point, keep every offset within the
      width, and laid end to end give back exactly the accepted input points
      in input order. */
  lemma AggregateCorrect(msgs: seq<CustomMsg>, w: nat, frame: string)
    requires w > 0 && Ordered(Samples(msgs))
    ensures var out := Finish(Run(msgs, w, frame)).out;
      && ValidOutput(out, w)
      && Flatten(out) == Samples(msgs)
      && (Samples(msgs) != [] ==>
            forall i | 0 <= i < |out| :: OnGrid(out[i].stampNs, Samples(msgs)[0].timeNs, w))
      && (Samples(msgs) == [] ==> out == [])
  {
    RunInvariant(msgs, w, frame);
    var a := if Samples(msgs) != [] then Samples(msgs)[0].timeNs else 0;
    FinishPreserves(Run(msgs, w, frame), w, a);
  }

  /** Each written point lands in the one window of the grid that holds its
      absolute time: any grid window containing that time is the window its
      cloud is stamped with. */
  lemma PointInItsWindow(msgs: seq<CustomMsg>, w: nat, frame: string, i: nat, j: nat, y: nat)
    requires w > 0 && Ordered(Samples(msgs)) && Samples(msgs) != []
    requires var out := Finish(Run(msgs, w, frame)).out;
      && i < |out| && j < |out[i].points|
      && OnGrid(y, Samples(msgs)[0].timeNs, w)
      && y <= out[i].stampNs + out[i].points[j].timeNs < y + w
    ensures y == Finish(Run(msgs, w, frame)).out[i].stampNs
  {
    AggregateCorrect(msgs, w, frame);
    var out := Finish(Run(msgs, w, frame)).out;
    assert CloudFits(out[i], w);
    GridWindowUnique(y, out[i].stampNs, Samples(msgs)[0].timeNs, w, out[i].stampNs + out[i].points[j].timeNs);
  }
}
