/**
 * The input records of the aggregator: Livox `CustomMsg` messages as they are
 * read from the input bag, already filtered to the input topic.
 */
module Livox {

  /** An unsigned 8-bit integer (`uint8_t`). */
  newtype byte = x: int | 0 <= x < 256

  /** A 32-bit float. The aggregator only copies these values from input to
      output, so the model keeps the bit pattern and nothing else. */
  datatype Float32 = Float32(bits: bv32)

  /** One point of a `CustomMsg`. `offsetTime` is the point's offset in
      nanoseconds from the message's `timebase`. */
  datatype CustomPoint = CustomPoint(
    offsetTime: nat,
    x: Float32, y: Float32, z: Float32,
    reflectivity: byte,
    tag: byte,
    line: byte)

  /** A `CustomMsg`: a base timestamp in nanoseconds, the declared point count
      and the points themselves. */
  datatype CustomMsg = CustomMsg(timebase: nat, pointNum: nat, points: seq<CustomPoint>)

  /** The absolute timestamp of a point of `msg`, in nanoseconds. */
  function PointTime(msg: CustomMsg, p: CustomPoint): nat {
    msg.timebase + p.offsetTime
  }

  /** The absolute timestamp of the last point of `msg`. */
  function LastTime(msg: CustomMsg): nat
    requires |msg.points| > 0
  {
    PointTime(msg, msg.points[|msg.points| - 1])
  }

  /** A message the aggregator ignores: no declared points or an empty point list. */
  predicate Skipped(msg: CustomMsg) {
    msg.pointNum == 0 || |msg.points| == 0
  }

  /** The points of `msg` come in non-decreasing time order. */
  ghost predicate NonDecreasing(msg: CustomMsg) {
    forall i, j | 0 <= i < j < |msg.points| ::
      PointTime(msg, msg.points[i]) <= PointTime(msg, msg.points[j])
  }
}
