/** One decoded six-axis motion reading, as the dictionaries the notification handler builds. */
module Samples {
  import opened Clock

  /**
   * A Python `float`. Nothing in the modelled code computes with the values,
   * so they are kept as reals and only compared for equality.
   */
  type Num = real

  /** `{'timestamp', 'accel_x', 'accel_y', 'accel_z', 'gyro_x', 'gyro_y', 'gyro_z'}`. */
  datatype Sample = Sample(
    timestamp: Instant,
    accel_x: Num, accel_y: Num, accel_z: Num,
    gyro_x: Num, gyro_y: Num, gyro_z: Num)

  /** The axis keys in the order the sensor sends them. */
  const AxisNames: seq<string> := ["accel_x", "accel_y", "accel_z", "gyro_x", "gyro_y", "gyro_z"]

  /** The six readings of a sample, in wire order. */
  function Axes(s: Sample): seq<Num> {
    [s.accel_x, s.accel_y, s.accel_z, s.gyro_x, s.gyro_y, s.gyro_z]
  }

  /** The value stored under the axis key `name`. */
  function AxisNamed(s: Sample, name: string): Num
    requires name in AxisNames
  {
    if name == "accel_x" then s.accel_x
    else if name == "accel_y" then s.accel_y
    else if name == "accel_z" then s.accel_z
    else if name == "gyro_x" then s.gyro_x
    else if name == "gyro_y" then s.gyro_y
    else s.gyro_z
  }

  /** Builds a sample from six readings taken at `t`, field `i` going to the `i`-th axis key. */
  function FromAxes(t: Instant, v: seq<Num>): (s: Sample)
    requires |v| == 6
    ensures s.timestamp == t
    ensures Axes(s) == v
    ensures forall i :: 0 <= i < 6 ==> AxisNamed(s, AxisNames[i]) == v[i]
  {
    Sample(t, v[0], v[1], v[2], v[3], v[4], v[5])
  }
}
