/**
 * The notification handler's parsing: bytes to text, `strip()`, `split(',')`,
 * a field-count check, then `float()` on each field in order. Both the BLE path
 * (six fields) and the serial path (three fields) use it.
 */
module Decoder {
  import opened Wrappers
  import opened Text
  import opened Clock
  import opened Samples

  type uint8 = b: int | 0 <= b < 256

  /**
   * The two library calls the decoder depends on and this model does not define:
   * `bytes.decode('utf-8')` (`None` for invalid UTF-8) and `float()` (`None` for a ValueError).
   */
  datatype Codec = Codec(utf8: seq<uint8> -> Option<string>, parse: string -> Option<Num>)

  /** Why a frame produced no sample; the handler logs and drops every one of them. */
  datatype DecodeError = Encoding | FieldCount(found: nat) | NumberFormat(field: nat)

  /** The fields a piece of text splits into once stripped. */
  function Fields(text: string): seq<string> {
    Split(Strip(text), ',')
  }

  /**
   * Parses every field in order; the first field that does not parse stops the
   * whole conversion, as the first raising `float()` abandons the dict literal.
   */
  function ParseAll(fields: seq<string>, parse: string -> Option<Num>): (r: Result<seq<Num>, nat>)
    ensures r.Success? ==>
      && |r.value| == |fields|
      && forall i :: 0 <= i < |fields| ==> parse(fields[i]) == Some(r.value[i])
    ensures r.Failure? ==>
      && r.error < |fields|
      && parse(fields[r.error]).None?
      && forall i :: 0 <= i < r.error ==> parse(fields[i]).Some?
  {
    if |fields| == 0 then Success([])
    else
      match parse(fields[0])
      case None => Failure(0)
      case Some(x) =>
        match ParseAll(fields[1..], parse)
        case Success(xs) => Success([x] + xs)
        case Failure(k) => Failure(k + 1)
  }

  /** Decodes text expected to hold exactly `n` comma-separated numbers. */
  function DecodeText(text: string, n: nat, parse: string -> Option<Num>): (r: Result<seq<Num>, DecodeError>)
    ensures r.Failure? ==> !r.error.Encoding?
    ensures (r.Failure? && r.error.FieldCount?) <==> Count(Strip(text), ',') + 1 != n
    ensures r.Failure? && r.error.FieldCount? ==> r.error.found == Count(Strip(text), ',') + 1
    ensures r.Failure? && r.error.NumberFormat? ==>
      && r.error.field < n
      && parse(Fields(text)[r.error.field]).None?
      && forall i :: 0 <= i < r.error.field ==> parse(Fields(text)[i]).Some?
    ensures r.Success? <==>
      && Count(Strip(text), ',') + 1 == n
      && forall i :: 0 <= i < n ==> parse(Fields(text)[i]).Some?
    ensures r.Success? ==>
      && |r.value| == n
      && forall i :: 0 <= i < n ==> parse(Fields(text)[i]) == Some(r.value[i])
  {
    var parts := Fields(text);
    if |parts| != n then Failure(FieldCount(|parts|))
    else
      match ParseAll(parts, parse)
      case Success(values) => Success(values)
      case Failure(k) => Failure(NumberFormat(k))
  }

  /**
   * The BLE notification payload to a sample stamped `now`: all six fields are
   * converted before a sample exists, so a frame yields a whole sample or nothing.
   */
  function Decode(frame: seq<uint8>, now: Instant, codec: Codec): (r: Result<Sample, DecodeError>)
    ensures (r.Failure? && r.error.Encoding?) <==> codec.utf8(frame).None?
    ensures r.Success? ==>
      && codec.utf8(frame).Some?
      && r.value.timestamp == now
      && Count(Strip(codec.utf8(frame).value), ',') == 5
      && forall i :: 0 <= i < 6 ==>
           codec.parse(Fields(codec.utf8(frame).value)[i]) == Some(AxisNamed(r.value, AxisNames[i]))
    ensures codec.utf8(frame).Some? ==>
      (r.Success? <==> DecodeText(codec.utf8(frame).value, 6, codec.parse).Success?)
  {
    match codec.utf8(frame)
    case None => Failure(Encoding)
    case Some(text) =>
      match DecodeText(text, 6, codec.parse)
      case Success(values) => Success(FromAxes(now, values))
      case Failure(e) => Failure(e)
  }

  /** `format` writes numbers in a form `parse` reads back, with no comma and no space at either end. */
  ghost predicate RoundTrips(format: Num -> string, parse: string -> Option<Num>) {
    forall x: Num {:trigger format(x)} ::
      && parse(format(x)) == Some(x)
      && ',' !in format(x)
      && |format(x)| > 0
      && !IsSpace(format(x)[0])
      && !IsSpace(format(x)[|format(x)| - 1])
  }

  /** What a sensor sends: the numbers in order, joined with commas. */
  function EncodeText(values: seq<Num>, format: Num -> string): string
    requires |values| >= 1
  {
    Join(seq(|values|, i requires 0 <= i < |values| => format(values[i])), ',')
  }

  lemma {:induction false} JoinEnds(parts: seq<string>, sep: char)
    requires |parts| >= 1 && |parts[0]| > 0 && |parts[|parts| - 1]| > 0
    ensures var j := Join(parts, sep);
      |j| > 0 && j[0] == parts[0][0] && j[|j| - 1] == parts[|parts| - 1][|parts[|parts| - 1]| - 1]
  {
    if |parts| > 1 {
      JoinEndsTail(parts, sep);
    }
  }

  lemma {:induction false} JoinEndsTail(parts: seq<string>, sep: char)
    requires |parts| > 1 && |parts[|parts| - 1]| > 0
    ensures var j := Join(parts, sep);
      |j| > 0 && j[|j| - 1] == parts[|parts| - 1][|parts[|parts| - 1]| - 1]
    decreases |parts|
  {
    var tail := Join(parts[1..], sep);
    if |parts| > 2 {
      JoinEndsTail(parts[1..], sep);
    }
    assert Join(parts, sep) == parts[0] + [sep] + tail;
  }

  lemma RoundTripsAt(format: Num -> string, parse: string -> Option<Num>, x: Num)
    requires RoundTrips(format, parse)
    ensures parse(format(x)) == Some(x) && ',' !in format(x)
    ensures |format(x)| > 0 && !IsSpace(format(x)[0]) && !IsSpace(format(x)[|format(x)| - 1])
  {
  }

  /** The encoded fields, once stripped and split, are exactly the formatted numbers. */
  lemma FieldsOfEncoding(values: seq<Num>, format: Num -> string, parse: string -> Option<Num>)
    requires |values| >= 1
    requires RoundTrips(format, parse)
    ensures Fields(EncodeText(values, format)) == seq(|values|, i requires 0 <= i < |values| => format(values[i]))
  {
    var parts := seq(|values|, i requires 0 <= i < |values| => format(values[i]));
    var text := Join(parts, ',');
    RoundTripsAt(format, parse, values[0]);
    RoundTripsAt(format, parse, values[|values| - 1]);
    JoinEnds(parts, ',');
    StripTrimmed(text);
    forall k | 0 <= k < |parts|
      ensures ',' !in parts[k]
    {
      RoundTripsAt(format, parse, values[k]);
    }
    SplitJoin(parts, ',');
  }

  /** Decoding what a sensor sent gives back exactly the numbers it sent. */
  lemma DecodeEncodeText(values: seq<Num>, format: Num -> string, parse: string -> Option<Num>)
    requires |values| >= 1
    requires RoundTrips(format, parse)
    ensures DecodeText(EncodeText(values, format), |values|, parse) == Success(values)
  {
    var parts := seq(|values|, i requires 0 <= i < |values| => format(values[i]));
    var text := EncodeText(values, format);
    FieldsOfEncoding(values, format, parse);
    forall i | 0 <= i < |parts|
      ensures parse(parts[i]) == Some(values[i])
    {
      RoundTripsAt(format, parse, values[i]);
    }
    var r := DecodeText(text, |values|, parse);
    assert r.Success?;
    assert r.value == values;
  }

  /** Text carrying any other number of fields than expected is rejected for its field count. */
  lemma WrongArityRejected(values: seq<Num>, n: nat, format: Num -> string, parse: string -> Option<Num>)
    requires |values| >= 1 && n != |values|
    requires RoundTrips(format, parse)
    ensures DecodeText(EncodeText(values, format), n, parse) == Failure(FieldCount(|values|))
  {
    FieldsOfEncoding(values, format, parse);
  }

  /** A frame carrying a sample's six readings decodes to that sample, re-stamped with the receive time. */
  lemma DecodeEncodeSample(s: Sample, frame: seq<uint8>, now: Instant, format: Num -> string, codec: Codec)
    requires RoundTrips(format, codec.parse)
    requires codec.utf8(frame) == Some(EncodeText(Axes(s), format))
    ensures Decode(frame, now, codec) == Success(s.(timestamp := now))
  {
    DecodeEncodeText(Axes(s), format, codec.parse);
  }

  /** The samples a series of frames (each with its receive time) decodes to, in arrival order; undecodable frames contribute nothing. */
  function DecodeAll(frames: seq<(seq<uint8>, Instant)>, codec: Codec): (r: seq<Sample>)
    ensures |r| <= |frames|
  {
    if |frames| == 0 then []
    else
      var rest := DecodeAll(frames[1..], codec);
      match Decode(frames[0].0, frames[0].1, codec)
      case Success(x) => [x] + rest
      case Failure(_) => rest
  }
}
