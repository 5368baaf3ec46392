/**
 * The windowing logic of the aggregator, stated on values. A `Window` is the
 * whole state the source keeps in file-scope globals (the active flag, the
 * window start, the seven point buffers) together with the clouds written to
 * the output topic so far. Each step of the source's main loop is one
 * function here; the class in aggregator.dfy is proved to follow them.
 */
module Windows {
  import opened Livox

  /** The frame label the trailing flush stamps on its cloud, whatever frame
      the caller configured. */
  const DefaultFrame: string := "livox_frame"

  /** One point of an output cloud, with the seven PointCloud2 fields x, y, z,
      intensity, tag, line and time. `timeNs` is the offset from the cloud's
      stamp in nanoseconds; `intensity` is the input reflectivity. */
  datatype CloudPoint = CloudPoint(
    x: Float32, y: Float32, z: Float32,
    intensity: byte,
    tag: byte,
    line: byte,
    timeNs: nat)

  /** One PointCloud2 written to the output topic: height 1, width `|points|`,
      header stamp `stampNs`, header frame `frameId`. */
  datatype Cloud = Cloud(stampNs: nat, frameId: string, points: seq<CloudPoint>)

  /** The aggregator state: `window_active`, `win_start_ns` (the window end is
      always `start` plus the window width), the points buffered for the open
      window, and every cloud written so far. */
  datatype Window = Window(active: bool, start: nat, buffer: seq<CloudPoint>, out: seq<Cloud>)

  /** The state before the first message: no window, nothing buffered or written. */
  const Initial: Window := Window(false, 0, [], [])

  /** The output point for input point `p` of `msg`, timed relative to `base`. */
  function Sample(msg: CustomMsg, p: CustomPoint, base: nat): (r: CloudPoint)
    requires base <= PointTime(msg, p)
    ensures base + r.timeNs == PointTime(msg, p)
    ensures r.x == p.x && r.y == p.y && r.z == p.z
    ensures r.intensity == p.reflectivity && r.tag == p.tag && r.line == p.line
  {
    CloudPoint(p.x, p.y, p.z, p.reflectivity, p.tag, p.line, PointTime(msg, p) - base)
  }

  /** `flush_window`: nothing when no window is open or the buffer is empty;
      otherwise write one cloud stamped with the window start and clear the buffer. */
  function Flush(s: Window, frame: string): (r: Window)
    ensures r.active == s.active && r.start == s.start
    ensures s.active ==> r.buffer == []
    ensures s.out <= r.out && |r.out| <= |s.out| + 1
  {
    if !s.active || s.buffer == [] then s
    else s.(buffer := [], out := s.out + [Cloud(s.start, frame, s.buffer)])
  }

  /** One turn of a catch-up loop: flush, then move the window one width on. */
  function Advance(s: Window, w: nat, frame: string): (r: Window)
    ensures r.active == s.active && r.start == s.start + w
    ensures s.active ==> r.buffer == []
    ensures s.out <= r.out && |r.out| <= |s.out| + 1
  {
    Flush(s, frame).(start := s.start + w)
  }

  /** The catch-up loop: advance while `t` lies at or beyond the window end. */
  function CatchUp(s: Window, t: nat, w: nat, frame: string): (r: Window)
    requires w > 0
    ensures r.active == s.active && s.start <= r.start
    ensures s.start <= t ==> r.start <= t < r.start + w
    decreases t - s.start
  {
    if t < s.start + w then s else CatchUp(Advance(s, w, frame), t, w, frame)
  }

  /** Catch up to point `p`, then append it with its offset from the window start. */
  function AddPoint(s: Window, msg: CustomMsg, p: CustomPoint, w: nat, frame: string): (r: Window)
    requires w > 0 && s.start <= PointTime(msg, p)
    ensures r.active == s.active && s.start <= r.start
    ensures r.start <= PointTime(msg, p) < r.start + w
  {
    var c := CatchUp(s, PointTime(msg, p), w, frame);
    c.(buffer := c.buffer + [Sample(msg, p, c.start)])
  }

  /** The points of `msg` from index `i` on can be appended without the window
      start ever passing one of them. */
  ghost predicate ReadyAt(s: Window, msg: CustomMsg, i: nat) {
    i <= |msg.points| && NonDecreasing(msg) &&
    (i < |msg.points| ==> s.start <= PointTime(msg, msg.points[i]))
  }

  /** The per-point loop of the main loop, from point `i` to the end of `msg`. */
  function AddPointsFrom(s: Window, msg: CustomMsg, i: nat, w: nat, frame: string): (r: Window)
    requires w > 0 && ReadyAt(s, msg, i)
    ensures r.active == s.active && s.start <= r.start
    ensures i < |msg.points| ==> r.start <= LastTime(msg) < r.start + w
    decreases |msg.points| - i
  {
    if i == |msg.points| then s
    else AddPointsFrom(AddPoint(s, msg, msg.points[i], w, frame), msg, i + 1, w, frame)
  }

  /** What the main loop needs of a message it is given: a skipped message
      needs nothing; otherwise its points are in time order and the first
      one does not lie before the open window. */
  ghost predicate IngestReady(s: Window, msg: CustomMsg) {
    Skipped(msg) ||
    (NonDecreasing(msg) && (s.active ==> s.start <= PointTime(msg, msg.points[0])))
  }

  /** The body of the main loop for one in-topic `CustomMsg`: skip an empty
      one; open the window at the first point if none is open; catch up to
      the first point; then add every point in turn. */
  function Ingest(s: Window, msg: CustomMsg, w: nat, frame: string): (r: Window)
    requires w > 0 && IngestReady(s, msg)
    ensures !Skipped(msg) ==> r.active && r.start <= LastTime(msg) < r.start + w
  {
    if Skipped(msg) then s
    else
      var first := PointTime(msg, msg.points[0]);
      var a := if s.active then s else s.(active := true, start := first);
      AddPointsFrom(CatchUp(a, first, w, frame), msg, 0, w, frame)
  }

  /** The trailing flush after the last message, with the fixed frame label. */
  function Finish(s: Window): (r: Window)
    ensures r.active == s.active && r.start == s.start
    ensures s.active ==> r.buffer == []
    ensures s.out <= r.out && |r.out| <= |s.out| + 1
    ensures r.out != s.out ==> r.out[|s.out|].frameId == DefaultFrame
  {
    if s.active && s.buffer != [] then Flush(s, DefaultFrame) else s
  }

  /** Every point of `msg`, with its absolute timestamp. */
  function PointSamples(msg: CustomMsg): (r: seq<CloudPoint>)
    ensures |r| == |msg.points|
  {
    seq(|msg.points|, j requires 0 <= j < |msg.points| => Sample(msg, msg.points[j], 0))
  }

  /** The points of `msg` the aggregator takes in, with absolute timestamps. */
  function MsgSamples(msg: CustomMsg): seq<CloudPoint> {
    if Skipped(msg) then [] else PointSamples(msg)
  }

  /** The points of a whole message stream, in input order, with absolute timestamps. */
  function Samples(msgs: seq<CustomMsg>): seq<CloudPoint> {
    if msgs == [] then [] else Samples(msgs[..|msgs| - 1]) + MsgSamples(msgs[|msgs| - 1])
  }

  /** The timestamps of `pts` never decrease. */
  ghost predicate Ordered(pts: seq<CloudPoint>) {
    forall i, j | 0 <= i < j < |pts| :: pts[i].timeNs <= pts[j].timeNs
  }

  /** The part of an ordered stream before message `m` is ordered. */
  lemma OrderedBefore(before: seq<CloudPoint>, m: CustomMsg)
    requires Ordered(before + MsgSamples(m))
    ensures Ordered(before)
  {
    var all := before + MsgSamples(m);
    forall i, j | 0 <= i < j < |before| ensures before[i].timeNs <= before[j].timeNs {
      assert all[i] == before[i] && all[j] == before[j];
    }
  }

  /** In an ordered stream, message `m` can be given to any state whose
      window start is at most the last timestamp before it. */
  lemma ReadyNext(before: seq<CloudPoint>, m: CustomMsg, s: Window)
    requires Ordered(before + MsgSamples(m))
    requires s.active ==> before != [] && s.start <= before[|before| - 1].timeNs
    ensures IngestReady(s, m)
  {
    var all := before + MsgSamples(m);
    if !Skipped(m) {
      forall i, j | 0 <= i < j < |m.points|
        ensures PointTime(m, m.points[i]) <= PointTime(m, m.points[j])
      {
        assert all[|before| + i].timeNs <= all[|before| + j].timeNs;
      }
      if before != [] {
        assert all[|before| - 1].timeNs <= all[|before|].timeNs;
      }
    }
  }

  /** One step of the main loop keeps what `Run` promises: the window is open
      exactly when some point was accepted, and then the last accepted
      timestamp lies in it. */
  lemma IngestStep(before: seq<CloudPoint>, m: CustomMsg, s: Window, w: nat, frame: string)
    requires w > 0 && Ordered(before + MsgSamples(m))
    requires (s.active <==> before != []) && (!s.active ==> s == Initial)
    requires s.active ==> s.start <= before[|before| - 1].timeNs < s.start + w
    ensures IngestReady(s, m)
    ensures var r := Ingest(s, m, w, frame); var all := before + MsgSamples(m);
      && (r.active <==> all != [])
      && (!r.active ==> r == Initial)
      && (r.active ==> r.start <= all[|all| - 1].timeNs < r.start + w)
  {
    ReadyNext(before, m, s);
    var all := before + MsgSamples(m);
    if Skipped(m) {
      assert all == before;
    } else {
      assert all[|all| - 1] == PointSamples(m)[|m.points| - 1];
    }
  }

  /** The whole main loop over a stream of in-topic messages, before the
      trailing flush. */
  function Run(msgs: seq<CustomMsg>, w: nat, frame: string): (r: Window)
    requires w > 0 && Ordered(Samples(msgs))
    ensures r.active <==> Samples(msgs) != []
    ensures !r.active ==> r == Initial
    ensures r.active ==>
      var all := Samples(msgs); r.start <= all[|all| - 1].timeNs < r.start + w
  {
    if msgs == [] then Initial
    else
      var prev := msgs[..|msgs| - 1];
      var m := msgs[|msgs| - 1];
      OrderedBefore(Samples(prev), m);
      var s := Run(prev, w, frame);
      IngestStep(Samples(prev), m, s, w, frame);
      assert Samples(msgs) == Samples(prev) + MsgSamples(m);
      Ingest(s, m, w, frame)
  }

  /** The clouds of `out` laid end to end, each point timed absolutely again. */
  function Flatten(out: seq<Cloud>): seq<CloudPoint> {
    if out == [] then []
    else
      var c := out[|out| - 1];
      Flatten(out[..|out| - 1]) + Shift(c.points, c.stampNs)
  }

  /** `pts` with every relative time turned back into an absolute one. */
  function Shift(pts: seq<CloudPoint>, base: nat): (r: seq<CloudPoint>)
    ensures |r| == |pts|
  {
    seq(|pts|, j requires 0 <= j < |pts| => pts[j].(timeNs := base + pts[j].timeNs))
  }

  /** Every point the state holds, written or buffered, in order and with
      absolute timestamps. */
  function Recovered(s: Window): seq<CloudPoint> {
    Flatten(s.out) + Shift(s.buffer, s.start)
  }

  /** A cloud as the aggregator writes it: not empty, every offset within the width. */
  ghost predicate CloudFits(c: Cloud, w: nat) {
    c.points != [] && forall j | 0 <= j < |c.points| :: c.points[j].timeNs < w
  }

  /** What the output topic holds: fitting clouds with strictly increasing stamps. */
  ghost predicate ValidOutput(out: seq<Cloud>, w: nat) {
    (forall i | 0 <= i < |out| :: CloudFits(out[i], w)) &&
    (forall i, j | 0 <= i < j < |out| :: out[i].stampNs < out[j].stampNs)
  }

  /** The invariant of the running aggregator: the output is valid, every
      written cloud lies before the open window, every buffered offset lies
      within the width, and nothing is held before a window opens. */
  ghost predicate WellFormed(s: Window, w: nat) {
    ValidOutput(s.out, w) &&
    (!s.active ==> s.buffer == [] && s.out == []) &&
    (forall j | 0 <= j < |s.buffer| :: s.buffer[j].timeNs < w) &&
    (forall i | 0 <= i < |s.out| :: s.out[i].stampNs < s.start)
  }

  /** `x` is a window boundary of the grid anchored at `a`: `a` plus a whole
      number of widths `w`. */
  ghost predicate OnGrid(x: nat, a: nat, w: nat)
    decreases x
  {
    x == a || (w > 0 && x >= a + w && OnGrid(x - w, a, w))
  }

  /** The open window and every written cloud sit on the grid anchored at `a`. */
  ghost predicate Phased(s: Window, a: nat, w: nat) {
    s.active ==>
      OnGrid(s.start, a, w) &&
      forall i | 0 <= i < |s.out| :: OnGrid(s.out[i].stampNs, a, w)
  }
}
