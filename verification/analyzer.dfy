/**
 * The live analyser page, `tennis_app.py`: the rolling chart buffer that keeps
 * the newest `MAX_DATA_POINTS` rows, and the serial reader that turns one
 * `x,y,z` line into three accelerations.
 */
module Analyzer {
  import opened Wrappers
  import opened Text
  import opened Samples
  import opened Decoder
  import opened BoundedQueue

  const MaxDataPoints: nat := 50

  /** One row of `chart_data`: the columns `Accel_X`, `Accel_Y`, `Accel_Z`. */
  datatype ChartRow = ChartRow(accelX: Num, accelY: Num, accelZ: Num)

  /**
   * `update_chart_data`: append the new row, then keep only the newest
   * `MAX_DATA_POINTS` rows when there are more.
   */
  function UpdateChartData(prior: seq<ChartRow>, x: Num, y: Num, z: Num): (r: seq<ChartRow>)
    ensures |r| <= MaxDataPoints
    ensures |r| > 0 && r[|r| - 1] == ChartRow(x, y, z)
    ensures |prior| + 1 <= MaxDataPoints ==> r == prior + [ChartRow(x, y, z)]
    ensures |prior| + 1 > MaxDataPoints ==>
      |r| == MaxDataPoints && forall i :: 0 <= i < MaxDataPoints - 1 ==> r[i] == prior[|prior| - MaxDataPoints + 1 + i]
  {
    var updated := prior + [ChartRow(x, y, z)];
    if |updated| > MaxDataPoints then updated[|updated| - MaxDataPoints..] else updated
  }

  /**
   * On a buffer that is within its bound, one update is one drop-oldest push
   * into a queue of capacity 50: the chart window and the sample queue are the
   * same structure.
   */
  lemma ChartUpdateIsDropOldestPush(prior: seq<ChartRow>, x: Num, y: Num, z: Num)
    requires |prior| <= MaxDataPoints
    ensures UpdateChartData(prior, x, y, z) == PushDropOldest(Queue(prior, MaxDataPoints), ChartRow(x, y, z)).0.items
  {
  }

  /** The chart after one update per incoming row, in order. */
  function UpdateAll(chart: seq<ChartRow>, rows: seq<ChartRow>): seq<ChartRow>
    decreases |rows|
  {
    if |rows| == 0 then chart
    else UpdateAll(UpdateChartData(chart, rows[0].accelX, rows[0].accelY, rows[0].accelZ), rows[1..])
  }

  /** However many rows arrive, the chart shows exactly the newest 50 of everything seen. */
  lemma {:induction false} ChartShowsNewest(chart: seq<ChartRow>, rows: seq<ChartRow>)
    requires |chart| <= MaxDataPoints
    ensures UpdateAll(chart, rows) == LastN(chart + rows, MaxDataPoints)
    decreases |rows|
  {
    if |rows| > 0 {
      var r0 := rows[0];
      var next := UpdateChartData(chart, r0.accelX, r0.accelY, r0.accelZ);
      assert UpdateAll(chart, rows) == UpdateAll(next, rows[1..]);
      UpdateIsLastN(chart, r0);
      assert |next| <= MaxDataPoints;
      ChartShowsNewest(next, rows[1..]);
      LastNOfSuffix(chart + [r0], rows[1..], MaxDataPoints);
      AppendHead(chart, rows);
    }
  }

  lemma AppendHead<T>(a: seq<T>, s: seq<T>)
    requires |s| > 0
    ensures (a + [s[0]]) + s[1..] == a + s
  {
    assert s == [s[0]] + s[1..];
  }

  lemma UpdateIsLastN(chart: seq<ChartRow>, row: ChartRow)
    ensures UpdateChartData(chart, row.accelX, row.accelY, row.accelZ) == LastN(chart + [row], MaxDataPoints)
  {
  }

  /** Trimming to the newest `n` before appending more changes nothing about the newest `n` after. */
  lemma LastNOfSuffix<T>(a: seq<T>, b: seq<T>, n: nat)
    ensures LastN(LastN(a, n) + b, n) == LastN(a + b, n)
  {
    if |a| > n {
      var k := |a| - n;
      assert a + b == a[..k] + (a[k..] + b);
      assert (a + b)[k..] == a[k..] + b;
    }
  }

  /**
   * `read_esp32_data`: with bytes waiting, one line is read, decoded as UTF-8,
   * stripped and split on commas; exactly three fields that all parse give the
   * triple in x, y, z order. Nothing waiting, a wrong field count, bad UTF-8 or
   * a field `float()` rejects all give None.
   */
  function ReadEsp32Data(inWaiting: nat, line: seq<uint8>, codec: Codec): (r: Option<(Num, Num, Num)>)
    ensures inWaiting == 0 ==> r.None?
    ensures inWaiting > 0 && codec.utf8(line).None? ==> r.None?
    ensures r.Some? <==>
      && inWaiting > 0 && codec.utf8(line).Some?
      && Count(Strip(codec.utf8(line).value), ',') == 2
      && forall i :: 0 <= i < 3 ==> codec.parse(Fields(codec.utf8(line).value)[i]).Some?
    ensures r.Some? ==>
      var f := Fields(codec.utf8(line).value);
      && codec.parse(f[0]) == Some(r.value.0)
      && codec.parse(f[1]) == Some(r.value.1)
      && codec.parse(f[2]) == Some(r.value.2)
  {
    if inWaiting == 0 then None
    else
      match codec.utf8(line)
      case None => None
      case Some(text) =>
        match DecodeText(text, 3, codec.parse)
        case Success(vs) => Some((vs[0], vs[1], vs[2]))
        case Failure(_) => None
  }

  /** A line the ESP32 prints from three readings reads back as those readings. */
  lemma SerialLineRoundTrip(inWaiting: nat, line: seq<uint8>, x: Num, y: Num, z: Num,
                            format: Num -> string, codec: Codec)
    requires inWaiting > 0
    requires RoundTrips(format, codec.parse)
    requires codec.utf8(line) == Some(EncodeText([x, y, z], format))
    ensures ReadEsp32Data(inWaiting, line, codec) == Some((x, y, z))
  {
    DecodeEncodeText([x, y, z], format, codec.parse);
  }

  /** A six-reading BLE frame arriving on the serial port is not mistaken for an acceleration triple. */
  lemma BleFrameRejectedOnSerial(inWaiting: nat, line: seq<uint8>, values: seq<Num>,
                                 format: Num -> string, codec: Codec)
    requires |values| == 6
    requires RoundTrips(format, codec.parse)
    requires codec.utf8(line) == Some(EncodeText(values, format))
    ensures ReadEsp32Data(inWaiting, line, codec).None?
  {
    WrongArityRejected(values, 3, format, codec.parse);
  }
}
