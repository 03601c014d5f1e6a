/**
 * `save_data_to_csv` without the file system: the file name built from the
 * save-time clock reading and the two category labels, the path under the data
 * folder, the header, and one row per sample in order.
 */
module DataManager {
  import opened Text
  import opened Clock
  import opened Samples
  import opened Wrappers
  import opened Decoder

  /** The default of `DATA_FOLDER`. */
  const DefaultDataFolder: string := "data"

  /** The CSV columns, in the order they are written. */
  const Header: seq<string> := ["timestamp", "accel_x", "accel_y", "accel_z", "gyro_x", "gyro_y", "gyro_z"]

  /** `{timestamp}_{main}_{sub}.csv` with the `%Y%m%d_%H%M%S` stamp of the save time. */
  function FileName(now: Instant, main: string, sub: string): (r: string)
    ensures |r| == 21 + |main| + |sub|
    ensures r[..15] == FileStamp(now) && r[15] == '_'
    ensures r[|r| - 4..] == ".csv"
  {
    FileStamp(now) + "_" + main + "_" + sub + ".csv"
  }

  /**
   * With labels free of underscores, splitting the name (less `.csv`) on `_`
   * gives back the date, the time and both labels.
   */
  lemma FileNameFields(now: Instant, main: string, sub: string)
    requires '_' !in main && '_' !in sub
    ensures var name := FileName(now, main, sub);
      Split(name[..|name| - 4], '_') == [FileStamp(now)[..8], FileStamp(now)[9..], main, sub]
  {
    var stamp := FileStamp(now);
    var date, time := stamp[..8], stamp[9..];
    var tail := main + "_" + sub;
    FileNameLayout(now, main, sub);
    SplitNoSeparator(sub, '_');
    SplitAfterField(main, sub, '_');
    SplitAfterField(time, tail, '_');
    SplitAfterField(date, time + "_" + tail, '_');
  }

  /** The name less `.csv`, grouped field by field; the stamp's digit groups hold no `_`. */
  lemma FileNameLayout(now: Instant, main: string, sub: string)
    ensures var stamp := FileStamp(now);
      var name := FileName(now, main, sub);
      && '_' !in stamp[..8] && '_' !in stamp[9..]
      && name[..|name| - 4] == stamp[..8] + "_" + (stamp[9..] + "_" + (main + "_" + sub))
  {
    var stamp := FileStamp(now);
    assert AllDigits(stamp[..8]) && AllDigits(stamp[9..]);
    assert stamp == stamp[..8] + "_" + stamp[9..];
  }

  /** Python's `os.path.join(folder, name)` on a POSIX system. */
  function JoinPath(folder: string, name: string): (r: string)
    ensures |r| >= |name| && r[|r| - |name|..] == name
    ensures (|name| == 0 || name[0] != '/') ==>
      r[..|r| - |name|] == (if folder == "" || folder[|folder| - 1] == '/' then folder else folder + "/")
  {
    if |name| > 0 && name[0] == '/' then name
    else if folder == "" || folder[|folder| - 1] == '/' then folder + name
    else folder + "/" + name
  }

  /** A file name without `/` is the last component of the joined path. */
  lemma JoinPathLastComponent(folder: string, name: string)
    requires '/' !in name
    ensures var parts := Split(JoinPath(folder, name), '/');
      parts[|parts| - 1] == name
  {
    SplitNoSeparator(name, '/');
    var path := JoinPath(folder, name);
    if folder == "" {
      assert path == name;
    } else {
      var prefix := if folder[|folder| - 1] == '/' then folder[..|folder| - 1] else folder;
      assert path == prefix + ['/'] + name;
      SplitAtSeparator(prefix, name, '/');
    }
  }

  /** A CSV cell before Python's csv module renders it. */
  datatype Cell = TextCell(text: string) | NumberCell(value: Num)

  /** The dict handed to `writer.writerow` for one sample. */
  function RowDict(s: Sample): map<string, Cell>
  {
    map[
      "timestamp" := TextCell(IsoFormat(s.timestamp)),
      "accel_x" := NumberCell(s.accel_x), "accel_y" := NumberCell(s.accel_y),
      "accel_z" := NumberCell(s.accel_z), "gyro_x" := NumberCell(s.gyro_x),
      "gyro_y" := NumberCell(s.gyro_y), "gyro_z" := NumberCell(s.gyro_z)]
  }

  /** `csv.DictWriter`: the dict's values laid out in `fieldnames` order. */
  function DictRow(row: map<string, Cell>, fieldnames: seq<string>): seq<Cell>
    requires forall k :: 0 <= k < |fieldnames| ==> fieldnames[k] in row
  {
    seq(|fieldnames|, k requires 0 <= k < |fieldnames| => row[fieldnames[k]])
  }

  /**
   * The written row of one sample: the ISO timestamp under `timestamp` and, in
   * every other column, the sample's reading of the same name.
   */
  function Row(s: Sample): (r: seq<Cell>)
    ensures |r| == |Header|
    ensures r[0] == TextCell(IsoFormat(s.timestamp))
    ensures forall k :: 1 <= k < |Header| ==> Header[k] in AxisNames && r[k] == NumberCell(AxisNamed(s, Header[k]))
  {
    DictRow(RowDict(s), Header)
  }

  /** `for row in data: writer.writerow(...)`: one row per sample, in input order. */
  function Rows(data: seq<Sample>): (rows: seq<seq<Cell>>)
    ensures |rows| == |data|
    ensures forall i :: 0 <= i < |data| ==> rows[i] == Row(data[i])
  {
    if |data| == 0 then [] else [Row(data[0])] + Rows(data[1..])
  }

  /** Everything `save_data_to_csv` decides about the file it writes. */
  datatype CsvFile = CsvFile(path: string, header: seq<string>, rows: seq<seq<Cell>>)

  function SaveDataToCsv(data: seq<Sample>, main: string, sub: string, now: Instant, folder: string): (f: CsvFile)
    ensures f.header == Header
    ensures f.path == JoinPath(folder, FileName(now, main, sub))
    ensures |f.rows| == |data|
    ensures forall i :: 0 <= i < |data| ==> f.rows[i] == Row(data[i])
  {
    CsvFile(JoinPath(folder, FileName(now, main, sub)), Header, Rows(data))
  }

  /**
   * From wire to file: the column named after an axis holds exactly what
   * `float()` made of that axis's field in the frame the sample came from.
   */
  lemma DecodedSampleRow(frame: seq<uint8>, now: Instant, codec: Codec, k: nat)
    requires Decode(frame, now, codec).Success?
    requires 1 <= k < |Header|
    ensures var row := Row(Decode(frame, now, codec).value);
      && row[0] == TextCell(IsoFormat(now))
      && row[k] == NumberCell(codec.parse(Fields(codec.utf8(frame).value)[k - 1]).value)
  {
    assert Header[k] == AxisNames[k - 1];
  }
}
