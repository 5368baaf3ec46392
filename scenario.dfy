/**
 * A worked run with the source's window width of 100,000,000 ns: five points
 * at 1000, 50,000,000, 150,000,000, 151,000,000 and 400,000,000 ns, with an
 * empty message among them. The windows are anchored at 1000, so the last
 * point falls in the window [300,001,000, 400,001,000), two widths after the
 * second cloud's stamp 100,001,000; the one empty window in between, at
 * 200,001,000, writes nothing.
 */
module Scenario {
  import opened Livox
  import opened Windows

  /** `agg_secs * 1e9` with `agg_secs == 0.1`. */
  const Width: nat := 100_000_000

  const Zero: Float32 := Float32(0)

  function In(offset: nat): CustomPoint {
    CustomPoint(offset, Zero, Zero, Zero, 0, 0, 0)
  }

  function Out(offset: nat): CloudPoint {
    CloudPoint(Zero, Zero, Zero, 0, 0, 0, offset)
  }

  /** Two points; an empty message; three points. */
  function Stream(): seq<CustomMsg> {
    [ CustomMsg(0, 2, [In(1000), In(50_000_000)]),
      CustomMsg(120_000_000, 0, []),
      CustomMsg(150_000_000, 3, [In(0), In(1_000_000), In(250_000_000)]) ]
  }

  lemma StreamSamples()
    ensures Samples(Stream()) ==
      [Out(1000), Out(50_000_000), Out(150_000_000), Out(151_000_000), Out(400_000_000)]
    ensures Ordered(Samples(Stream()))
  {
    var m := Stream();
    assert m[..2][..1] == m[..1];
    assert m[..1][..0] == [];
    assert m[..3] == m;
    assert PointSamples(m[0]) == [Out(1000), Out(50_000_000)];
    assert PointSamples(m[2]) == [Out(150_000_000), Out(151_000_000), Out(400_000_000)];
    assert Samples(m[..1]) == PointSamples(m[0]);
    assert Samples(m[..2]) == Samples(m[..1]);
    assert Samples(m) == Samples(m[..2]) + PointSamples(m[2]);
    var all := Samples(m);
    assert all[0].timeNs == 1000 && all[1].timeNs == 50_000_000 && all[2].timeNs == 150_000_000;
    assert all[3].timeNs == 151_000_000 && all[4].timeNs == 400_000_000;
    forall i, j | 0 <= i < j < |all| ensures all[i].timeNs <= all[j].timeNs {
      assert all[i].timeNs <= all[i + 1].timeNs;
      if i + 1 < j {
        assert all[i + 1].timeNs <= all[j].timeNs by {
          if i + 2 < j { assert all[i + 2].timeNs <= all[j].timeNs; }
        }
      }
    }
  }

  /** The first message opens the window at 1000 and buffers both points. */
  lemma FirstMessage()
    ensures Ingest(Initial, Stream()[0], Width, "lidar") == Window(true, 1000, [Out(0), Out(49_999_000)], [])
  {
    var m := Stream()[0];
    assert m == CustomMsg(0, 2, [In(1000), In(50_000_000)]);
    assert NonDecreasing(m);
    var a := Window(true, 1000, [], []);
    assert CatchUp(a, 1000, Width, "lidar") == a;
    var b := Window(true, 1000, [Out(0)], []);
    assert m.points[0] == In(1000) && m.points[1] == In(50_000_000);
    assert Sample(m, In(1000), 1000) == Out(0);
    assert [] + [Out(0)] == [Out(0)];
    assert AddPoint(a, m, m.points[0], Width, "lidar") == b;
    var c := Window(true, 1000, [Out(0), Out(49_999_000)], []);
    assert CatchUp(b, 50_000_000, Width, "lidar") == b;
    assert AddPoint(b, m, m.points[1], Width, "lidar") == c;
    assert AddPointsFrom(c, m, 2, Width, "lidar") == c;
    assert AddPointsFrom(b, m, 1, Width, "lidar") == c;
    assert AddPointsFrom(a, m, 0, Width, "lidar") == c;
  }

  /** The third message: its first point closes the first window; its last
      point closes the second and crosses one empty window. */
  lemma ThirdMessage()
    ensures Ingest(Window(true, 1000, [Out(0), Out(49_999_000)], []), Stream()[2], Width, "lidar") ==
      Window(true, 300_001_000, [Out(99_999_000)],
        [ Cloud(1000, "lidar", [Out(0), Out(49_999_000)]),
          Cloud(100_001_000, "lidar", [Out(49_999_000), Out(50_999_000)]) ])
  {
    var m := Stream()[2];
    var s := Window(true, 1000, [Out(0), Out(49_999_000)], []);
    var c1 := Cloud(1000, "lidar", [Out(0), Out(49_999_000)]);
    var c2 := Cloud(100_001_000, "lidar", [Out(49_999_000), Out(50_999_000)]);
    var a := Window(true, 100_001_000, [], [c1]);
    assert Advance(s, Width, "lidar") == a;
    assert CatchUp(a, 150_000_000, Width, "lidar") == a;
    assert CatchUp(s, 150_000_000, Width, "lidar") == a;
    var b := Window(true, 100_001_000, [Out(49_999_000)], [c1]);
    assert CatchUp(a, 150_000_000, Width, "lidar") == a;
    assert AddPoint(a, m, m.points[0], Width, "lidar") == b;
    var c := Window(true, 100_001_000, [Out(49_999_000), Out(50_999_000)], [c1]);
    assert CatchUp(b, 151_000_000, Width, "lidar") == b;
    assert AddPoint(b, m, m.points[1], Width, "lidar") == c;
    var d := Window(true, 200_001_000, [], [c1, c2]);
    var e := Window(true, 300_001_000, [], [c1, c2]);
    assert Advance(c, Width, "lidar") == d;
    assert Advance(d, Width, "lidar") == e;
    assert CatchUp(e, 400_000_000, Width, "lidar") == e;
    assert CatchUp(d, 400_000_000, Width, "lidar") == e;
    assert CatchUp(c, 400_000_000, Width, "lidar") == e;
    var f := Window(true, 300_001_000, [Out(99_999_000)], [c1, c2]);
    assert AddPoint(c, m, m.points[2], Width, "lidar") == f;
    assert AddPointsFrom(f, m, 3, Width, "lidar") == f;
    assert AddPointsFrom(c, m, 2, Width, "lidar") == f;
    assert AddPointsFrom(b, m, 1, Width, "lidar") == f;
  }

  /** Three clouds, not five: two points stamped 1000, two stamped
      100,001,000, and one stamped 300,001,000 at offset 99,999,000 with the
      trailing flush's fixed frame label. */
  lemma ScenarioOutput()
    ensures Ordered(Samples(Stream()))
    ensures Finish(Run(Stream(), Width, "lidar")).out ==
      [ Cloud(1000, "lidar", [Out(0), Out(49_999_000)]),
        Cloud(100_001_000, "lidar", [Out(49_999_000), Out(50_999_000)]),
        Cloud(300_001_000, DefaultFrame, [Out(99_999_000)]) ]
  {
    StreamSamples();
    var m := Stream();
    assert m[..2][..1] == m[..1];
    assert m[..1][..0] == [];
    assert m[..3] == m;
    FirstMessage();
    ThirdMessage();
    var s1 := Run(m[..1], Width, "lidar");
    assert s1 == Ingest(Initial, m[0], Width, "lidar");
    var s2 := Run(m[..2], Width, "lidar");
    assert s2 == s1;
    assert Run(m, Width, "lidar") == Ingest(s2, m[2], Width, "lidar");
  }
}
