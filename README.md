# livox_bag_aggregate: the streaming time-window aggregator

`livox_bag_aggregate` reads Livox `CustomMsg` lidar messages from a ROS bag.
It re-bins their points into fixed-width, contiguous, half-open time windows
`[start, start + window_ns)` and writes one `PointCloud2` per non-empty window
to an output bag. The first window is anchored at the absolute timestamp of
the first accepted point. Every later window starts where the previous one
ended. A window that receives no points writes nothing. After the last
message, a trailing flush writes what is still buffered.

This project models that aggregator in Dafny and proves what it promises.

- `livox.dfy` (module `Livox`): the input records. It defines `CustomPoint`,
  `CustomMsg`, the absolute point time `timebase + offset_time`, and the
  empty-message test.
- `windows.dfy` (module `Windows`): every step of the main loop as a function
  on a `Window` value. A `Window` holds the active flag, the window start, the
  buffered points and the clouds written so far. The module also defines the
  whole run `Run`, the stream of accepted points `Samples`, and the invariants
  (`WellFormed`, `ValidOutput`, `OnGrid`, `Phased`).
- `properties.dfy` (module `WindowProperties`): lemmas about those functions.
  Each step keeps the invariant and loses no point. A catch-up across empty
  windows writes at most one cloud. The end-to-end correctness of the whole
  run, trailing flush included, is proved here.
- `aggregator.dfy` (module `Aggregate`): the imperative program.
  - Class `Aggregator` has the file-scope globals as its fields: the seven
    index-aligned buffers as `seq`s, `win_start_ns`, `win_end_ns` and
    `window_active`.
  - The output topic is the append-only field `written`.
  - `ClearBuffers` is a method whose contract states the new fields
    directly: all seven buffers empty, everything else unchanged.
  - `FlushWindow`, the two catch-up `while` loops (`CatchUp`), the per-point
    `push_back` block (`AppendPoint`), the per-message body of the main loop
    (`Ingest`) and the trailing flush (`Finish`) are methods. Each is proved
    to leave the state its function in `Windows` gives.
  - The module-level method `Aggregate` is the main loop over a message
    stream. Its postcondition is the end-to-end property.
- `scenario.dfy` (module `Scenario`): a concrete run with the program's
  width of 100,000,000 ns. Five points, with an empty message among them,
  give three clouds.

Timestamps are unbounded naturals in nanoseconds. The relative time stored
for a point is the integer offset `t_ns - win_start_ns`. Coordinates are
opaque 32-bit patterns that are copied, not computed. Intensity is kept as
the `uint8` reflectivity it is converted from. The model requires that
accepted point timestamps never decrease across the stream (`Ordered`).

Windows advance additively from the first point's timestamp, not from a
multiple of the width. With points at 1000, 50,000,000, 150,000,000,
151,000,000 and 400,000,000 ns, the windows start at 1000, 100,001,000,
200,001,000 and 300,001,000. The last point lies in
[300,001,000, 400,001,000), so it is stored at offset 99,999,000 ns, not
near 0. The window at 200,001,000 gets no point and writes nothing.
`Scenario.ScenarioOutput` states the three clouds the code writes.

## Model

| member | source | states |
|---|---|---|
| Aggregate.Aggregator.constructor | src/livox_bag_aggregate.cpp:16-20 | A new aggregator has empty buffers, no active window and both bounds 0, and satisfies the object invariant |
| Aggregate.Aggregator.ClearBuffers | src/livox_bag_aggregate.cpp:22-25 | All seven buffers become empty; the window fields and the written clouds are unchanged |
| Aggregate.Aggregator.FlushWindow | src/livox_bag_aggregate.cpp:33-73 | Inactive window or empty buffer: nothing happens. Otherwise exactly one cloud is appended, stamped with the window start, holding the buffered points in buffer order, and the buffers end empty. The active flag and both bounds are unchanged |
| Aggregate.Aggregator.CatchUp | src/livox_bag_aggregate.cpp:151-156 | The catch-up loop terminates, keeps the object invariant (end = start + width) and leaves the state that `Windows.CatchUp` gives |
| Aggregate.Aggregator.AppendPoint | src/livox_bag_aggregate.cpp:158-166 | Given start <= t < end, one point is pushed to each of the seven buffers (they stay aligned), with offset t - start, which is below the width; the window start is unchanged |
| Aggregate.Aggregator.AddPoints | src/livox_bag_aggregate.cpp:147-167 | The per-point loop leaves the state `Windows.AddPointsFrom` gives from point 0 and keeps the object invariant |
| Aggregate.Aggregator.Ingest | src/livox_bag_aggregate.cpp:128-167 | One message leaves the state `Windows.Ingest` gives and keeps the object invariant; a message with point_num 0 or no points changes nothing |
| Aggregate.Aggregator.Finish | src/livox_bag_aggregate.cpp:170-174 | The trailing flush leaves the state `Windows.Finish` gives, with all buffers empty and the written clouds still a valid output; the active flag and both window bounds are unchanged. It is the last step of a run: the object invariant is not kept, since the new cloud's stamp is the window start |
| Aggregate.Aggregate | src/livox_bag_aggregate.cpp:110-174 | For an ordered stream, the written clouds are those of `Finish(Run(..))`. They are non-empty, keep every offset within the width, have strictly increasing stamps on the grid anchored at the first point, and laid end to end give back every accepted point once, in input order |
| Aggregate.ZipSnoc | src/livox_bag_aggregate.cpp:158-165 | Pushing one value onto each of the seven buffers appends exactly one point to the buffered sequence |
| Windows.Sample | src/livox_bag_aggregate.cpp:158-165 | The stored point copies x, y, z, tag and line, takes reflectivity as intensity, and its offset added back to the window start gives the point's absolute time |
| Windows.Flush | src/livox_bag_aggregate.cpp:33-73 | `flush_window` on values: the active flag and the start are kept, an open window's buffer ends empty, and at most one cloud is appended to the output, which keeps what was written before |
| Windows.Advance | src/livox_bag_aggregate.cpp:141-144 | One turn of a catch-up loop: the start moves one width on, the active flag is kept, an open window's buffer ends empty, and at most one cloud is appended |
| Windows.Finish | src/livox_bag_aggregate.cpp:171-174 | The trailing flush on values: the window is kept, an open window's buffer ends empty, and at most one cloud is appended, labelled "livox_frame" |
| Windows.CatchUp | src/livox_bag_aggregate.cpp:140-145 | Advancing while t >= end terminates; when t is not before the start, it ends with t inside the window; the active flag is kept and the start never moves back |
| Windows.AddPoint | src/livox_bag_aggregate.cpp:150-166 | After catching up to a point not before the window, the point lies in [start, start + width) |
| Windows.AddPointsFrom | src/livox_bag_aggregate.cpp:147-167 | When points are left, the last point of the message ends up inside the window |
| Windows.Ingest | src/livox_bag_aggregate.cpp:128-167 | After a message with points, a window is active and holds its last point |
| Windows.IngestStep | src/livox_bag_aggregate.cpp:128-137 | The window is active exactly when some point has been accepted; before that the state is the initial one, so only the first message with points anchors the window |
| Windows.Run | src/livox_bag_aggregate.cpp:115-168 | The main loop over an ordered stream: the window is active exactly when a point was accepted, and then the last accepted point lies in it |
| Windows.ReadyNext | src/livox_bag_aggregate.cpp:130-148 | In an ordered stream, each message's points are non-decreasing and its first point is not before the open window |
| WindowProperties.AppendKeepsWellFormed | src/livox_bag_aggregate.cpp:158-165 | Appending a point whose offset is below the width keeps the running invariant |
| WindowProperties.GridStep | src/livox_bag_aggregate.cpp:143-144 | One advance moves a window boundary to the next boundary of the same grid |
| WindowProperties.GridTrans | src/livox_bag_aggregate.cpp:154-155 | A boundary of a grid anchored at a boundary of grid a is a boundary of grid a |
| WindowProperties.GridAtLeastAnchor | src/livox_bag_aggregate.cpp:133-135 | No boundary lies before the anchor |
| WindowProperties.GridWindowUnique | src/livox_bag_aggregate.cpp:143-144 | On one grid, at most one window contains a given time: two grid windows that both contain it coincide |
| WindowProperties.GridWindowExists | src/livox_bag_aggregate.cpp:151-156 | A time at or after a grid boundary lies in some window of that grid; with `GridWindowUnique`, every time at or after the anchor lies in exactly one |
| WindowProperties.AdvancePreserves | src/livox_bag_aggregate.cpp:141-144 | One advance appends exactly one cloud (the buffer, stamped with the old start) when points are buffered and none otherwise, loses no point, empties the buffer, moves the start by one width, keeps the invariant and keeps the grid |
| WindowProperties.CatchUpPreserves | src/livox_bag_aggregate.cpp:151-156 | A catch-up loses no point, keeps the invariant and the grid, lands on a boundary of the grid at the old start, and leaves t in the window |
| WindowProperties.CatchUpQuiet | src/livox_bag_aggregate.cpp:37-38 | With no window or an empty buffer, a catch-up writes nothing and buffers nothing |
| WindowProperties.CatchUpEmitsAtMostOne | src/livox_bag_aggregate.cpp:140-145 | A catch-up crossing any number of windows writes at most one cloud: the buffered points stamped with the old start; the empty windows in the gap write nothing. Without crossing, nothing changes |
| WindowProperties.AddPointPreserves | src/livox_bag_aggregate.cpp:150-166 | Adding a point adds exactly that point to the recovered stream and keeps the invariant and the grid |
| WindowProperties.AddPointsFromPreserves | src/livox_bag_aggregate.cpp:147-167 | The per-point loop adds exactly the message's remaining points, in order, and keeps the invariant and the grid |
| WindowProperties.IngestPreserves | src/livox_bag_aggregate.cpp:128-167 | One message adds exactly its accepted points, in order; keeps the invariant; a first message anchors the grid at its first point; a later one never re-anchors it |
| WindowProperties.RunInvariant | src/livox_bag_aggregate.cpp:115-168 | Before the trailing flush, written and buffered points together are the accepted stream, the state is well formed and on the grid of the first point |
| WindowProperties.FinishPreserves | src/livox_bag_aggregate.cpp:170-174 | The trailing flush writes one more cloud exactly when points are buffered, stamped with the window start, under "livox_frame"; no windows beyond it |
| WindowProperties.SamplesPrefix | src/livox_bag_aggregate.cpp:115-128 | The points accepted from the first i messages are a prefix of those of the whole stream |
| WindowProperties.OrderedPrefix | src/livox_bag_aggregate.cpp:147-148 | A prefix of an ordered stream is ordered |
| WindowProperties.RunPrefixStep | src/livox_bag_aggregate.cpp:115-168 | Running one more message is one more `Ingest`, and that message is fit to be ingested |
| WindowProperties.AggregateCorrect | src/livox_bag_aggregate.cpp:128-174 | The clouds of a whole run are non-empty and fit the width, have strictly increasing stamps on the first point's grid, hold every accepted point once in input order, and are none for a stream with no points |
| WindowProperties.PointInItsWindow | src/livox_bag_aggregate.cpp:150-165 | Every written point lands in the one window of the grid that holds its absolute time: any grid window containing that time is the one its cloud is stamped with |
| Scenario.StreamSamples | src/livox_bag_aggregate.cpp:128-148 | The example stream's accepted points, empty message skipped, with their absolute times, in order |
| Scenario.FirstMessage | src/livox_bag_aggregate.cpp:130-137 | The first message opens the window at its first point, 1000, and buffers both points |
| Scenario.ThirdMessage | src/livox_bag_aggregate.cpp:140-166 | The third message writes the first window, then the second, skips one empty window, and buffers its last point at offset 99,999,000 |
| Scenario.ScenarioOutput | src/livox_bag_aggregate.cpp:108-174 | With the width 100,000,000 ns, the example writes three clouds, not five, stamped 1000, 100,001,000 and 300,001,000, the last under "livox_frame" |

## Left out

- Argument parsing, bag open and close, the error exit codes and the final
  report (`src/livox_bag_aggregate.cpp:75-113`, `:176-181`): I/O setup. The
  model takes the in-topic messages as a sequence and returns the clouds.
- The IMU pass-through and the topic and type filter
  (`src/livox_bag_aggregate.cpp:116-126`): message routing done before the
  aggregator. The model receives only in-topic `CustomMsg` records.
- The `PointCloud2` field layout, `PointCloud2Modifier` and the field
  iterators (`src/livox_bag_aggregate.cpp:43`, `:46-63`): library
  serialisation. A cloud is a stamp, a frame and a sequence of points.
- Floating point: `agg_secs * 1e9` is the constant 100,000,000 in
  `Scenario`. `static_cast<float>(reflectivity)` is kept as the byte it is
  cast from. The relative time is kept in integer nanoseconds, not as seconds
  in a `float`. Coordinates are 32-bit patterns copied unchanged. What is
  lost: the `float` time of `src/livox_bag_aggregate.cpp:164-165` rounds, so
  offsets of 99,999,998 and 99,999,999 ns are stored as `0.1f`, the `float`
  nearest the 0.1 s width. The proved bound "offset below the width" holds in
  nanoseconds but not for the stored `float`.
- `reserve_for` (`src/livox_bag_aggregate.cpp:27-31`): it changes only
  vector capacity.
- Integer widths: `offset_time` and `point_num` are `uint32_t` and
  `timebase`, `t_ns`, `win_start_ns` and `win_end_ns` are `uint64_t`. The
  model uses unbounded naturals. So it does not capture the wrap of
  `timebase + offset_time` (`src/livox_bag_aggregate.cpp:130`, `:148`), of
  `win_end_ns` near the top of the range (`:135`, `:144`, `:155`), or of
  `t_ns - win_start_ns` for a point before the window (`:164`).
- Aggregate.Aggregate: requires the accepted timestamps to be non-decreasing
  across the stream (`Ordered`). The source does not demand this. A point
  that steps back but stays at or after the open window's start is buffered
  normally: after 50,000,000 in the window [1000, 100,001,000), a point at
  20,000,000 is stored at offset 19,999,000. A point before the window's
  start makes `t_ns - win_start_ns` wrap `uint64_t`. `Ordered` excludes both
  cases. Windows.Ingest and Aggregate.Aggregator.Ingest likewise require
  non-decreasing points within a message, and a first point not before an
  open window.
- The counters `msg_count`, `pt_count` and `out_clouds`
  (`src/livox_bag_aggregate.cpp:113`, `:127`, `:142`, `:153`, `:166`,
  `:173`): they only feed the final report.
