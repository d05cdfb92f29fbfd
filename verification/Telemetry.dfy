/** Telemetry and summary payloads of remote nodes, with values as the raw
    integers on the wire (the source divides them by a per-kind constant).  The parser
    is the exact inverse of a printer. */
module RemotePayloads {
  import opened Protocol
  import opened Words
  import opened Bytes

  const MAX_REMOTE_PAYLOAD: nat := 176
  const MIN_POLYLINE: nat := 8

  datatype Fault =
    | TooLarge(actual: nat)
    | Truncated
    | Malformed
    | UnknownType(code: nat)

  datatype Parsed<+T> = Good(value: T) | Bad(fault: Fault)

  // ---- kinds ------------------------------------------------------------------------

  datatype Kind =
    | DigitalInput | DigitalOutput | AnalogInput | AnalogOutput | GenericSensor
    | Luminosity | Presence | Temperature | RelativeHumidity | Accelerometer
    | BarometricPressure | Voltage | Current | Frequency | Percentage | Altitude
    | Concentration | Power | Distance | Energy | Direction | UnixTime | Gyrometer
    | Colour | Gps | Switch | Polyline

  function Code(k: Kind): byte {
    match k
    case DigitalInput => 0
    case DigitalOutput => 1
    case AnalogInput => 2
    case AnalogOutput => 3
    case GenericSensor => 100
    case Luminosity => 101
    case Presence => 102
    case Temperature => 103
    case RelativeHumidity => 104
    case Accelerometer => 113
    case BarometricPressure => 115
    case Voltage => 116
    case Current => 117
    case Frequency => 118
    case Percentage => 120
    case Altitude => 121
    case Concentration => 125
    case Power => 128
    case Distance => 130
    case Energy => 131
    case Direction => 132
    case UnixTime => 133
    case Gyrometer => 134
    case Colour => 135
    case Gps => 136
    case Switch => 142
    case Polyline => 240
  }

  function FromCode(c: byte): Option<Kind> {
    if c < 104 then LowCode(c) else if c < 125 then MiddleCode(c) else HighCode(c)
  }

  function LowCode(c: byte): Option<Kind> {
    if c == 0 then Some(DigitalInput) else if c == 1 then Some(DigitalOutput)
    else if c == 2 then Some(AnalogInput) else if c == 3 then Some(AnalogOutput)
    else if c == 100 then Some(GenericSensor) else if c == 101 then Some(Luminosity)
    else if c == 102 then Some(Presence) else if c == 103 then Some(Temperature)
    else None
  }

  function MiddleCode(c: byte): Option<Kind> {
    if c == 104 then Some(RelativeHumidity) else if c == 113 then Some(Accelerometer)
    else if c == 115 then Some(BarometricPressure) else if c == 116 then Some(Voltage)
    else if c == 117 then Some(Current) else if c == 118 then Some(Frequency)
    else if c == 120 then Some(Percentage) else if c == 121 then Some(Altitude)
    else None
  }

  function HighCode(c: byte): Option<Kind> {
    if c == 125 then Some(Concentration) else if c == 128 then Some(Power)
    else if c == 130 then Some(Distance) else if c == 131 then Some(Energy)
    else if c == 132 then Some(Direction) else if c == 133 then Some(UnixTime)
    else if c == 134 then Some(Gyrometer) else if c == 135 then Some(Colour)
    else if c == 136 then Some(Gps) else if c == 142 then Some(Switch)
    else if c == 240 then Some(Polyline) else None
  }

  lemma FromCodeIsExact(c: byte, k: Kind)
    ensures FromCode(c) == Some(k) <==> Code(k) == c
  {
    hide LowCode, MiddleCode, HighCode, Code;
    if c < 104 { LowCodeIsExact(c, k); } else if c < 125 { MiddleCodeIsExact(c, k); } else { HighCodeIsExact(c, k); }
  }

  lemma LowCodeIsExact(c: byte, k: Kind)
    requires c < 104
    ensures LowCode(c) == Some(k) <==> Code(k) == c
  {}

  lemma MiddleCodeIsExact(c: byte, k: Kind)
    requires 104 <= c < 125
    ensures MiddleCode(c) == Some(k) <==> Code(k) == c
  {}

  lemma HighCodeIsExact(c: byte, k: Kind)
    requires 125 <= c
    ensures HighCode(c) == Some(k) <==> Code(k) == c
  {}

  /** Width in bytes, number of values and sign of a record. */
  datatype Layout = Layout(width: nat, count: nat, signed: bool)

  /** Telemetry records carry one reading, with one or three components; summary records
      carry minimum, maximum and average, with widths and signs of their own. */
  datatype Format = Telemetry | Summary

  function TelemetryLayout(k: Kind): Option<Layout> {
    match k
    case DigitalInput | DigitalOutput | Presence | RelativeHumidity | Percentage | Switch => Some(Layout(1, 1, false))
    case AnalogInput | AnalogOutput | Temperature | Current | Altitude => Some(Layout(2, 1, true))
    case Luminosity | BarometricPressure | Voltage | Concentration | Power | Direction => Some(Layout(2, 1, false))
    case GenericSensor | Frequency | Distance | Energy | UnixTime => Some(Layout(4, 1, false))
    case Accelerometer | Gyrometer => Some(Layout(2, 3, true))
    case Gps => Some(Layout(3, 3, true))
    case Colour => Some(Layout(1, 3, false))
    case Polyline => None
  }

  function SummaryLayout(k: Kind): Option<Layout> {
    match k
    case DigitalInput | DigitalOutput | Presence | Percentage | Switch => Some(Layout(1, 3, false))
    case AnalogInput | AnalogOutput | Temperature | Altitude => Some(Layout(2, 3, true))
    case Luminosity | RelativeHumidity | BarometricPressure | Voltage | Current => Some(Layout(2, 3, false))
    case Concentration | Power | Direction => Some(Layout(2, 3, false))
    case GenericSensor | Frequency | Distance | Energy | UnixTime => Some(Layout(4, 3, false))
    case Accelerometer | Gyrometer | Colour | Gps | Polyline => None
  }

  /** Which kinds are signed, how many values they have and how wide those are. */
  lemma TelemetryTable(k: Kind)
    ensures TelemetryLayout(k).None? <==> k == Polyline
    ensures k != Polyline ==>
      var l := TelemetryLayout(k).value;
      && (l.signed <==>
            k in {AnalogInput, AnalogOutput, Temperature, Current, Altitude, Accelerometer, Gyrometer, Gps})
      && l.count == (if k in {Accelerometer, Gyrometer, Gps, Colour} then 3 else 1)
      && l.width == (if k in {DigitalInput, DigitalOutput, Presence, RelativeHumidity, Percentage, Switch, Colour}
                     then 1
                     else if k == Gps then 3
                     else if k in {GenericSensor, Frequency, Distance, Energy, UnixTime} then 4
                     else 2)
  {}

  lemma SummaryTable(k: Kind)
    ensures SummaryLayout(k).None? <==> k in {Accelerometer, Gyrometer, Colour, Gps, Polyline}
    ensures SummaryLayout(k).Some? ==>
      var l := SummaryLayout(k).value;
      && (l.signed <==> k in {AnalogInput, AnalogOutput, Temperature, Altitude})
      && l.count == 3
      && l.width == (if k in {DigitalInput, DigitalOutput, Presence, Percentage, Switch} then 1
                     else if k in {GenericSensor, Frequency, Distance, Energy, UnixTime} then 4
                     else 2)
  {}

  lemma LowKindBytes()
    ensures Code(DigitalInput) == 0 && Code(DigitalOutput) == 1 && Code(AnalogInput) == 2 && Code(AnalogOutput) == 3
    ensures Code(GenericSensor) == 100 && Code(Luminosity) == 101 && Code(Presence) == 102 && Code(Temperature) == 103
  {}

  lemma MiddleKindBytes()
    ensures Code(RelativeHumidity) == 104 && Code(Accelerometer) == 113 && Code(BarometricPressure) == 115
    ensures Code(Voltage) == 116 && Code(Current) == 117 && Code(Frequency) == 118
    ensures Code(Percentage) == 120 && Code(Altitude) == 121
  {}

  lemma HighKindBytes()
    ensures Code(Concentration) == 125 && Code(Power) == 128 && Code(Distance) == 130 && Code(Energy) == 131
    ensures Code(Direction) == 132 && Code(UnixTime) == 133
  {}

  lemma HighestKindBytes()
    ensures Code(Gyrometer) == 134 && Code(Colour) == 135 && Code(Gps) == 136 && Code(Switch) == 142
    ensures Code(Polyline) == 240
  {}

  /** A summary exists for every scalar kind, and its fields are encoded as in telemetry
      except for the width of humidity and the sign of current. */
  lemma SummaryTableAgainstTelemetry(k: Kind)
    ensures SummaryLayout(k).None? <==> k == Polyline || TelemetryLayout(k).value.count == 3
    ensures SummaryLayout(k).Some? ==>
      var s, t := SummaryLayout(k).value, TelemetryLayout(k).value;
      && s.count == 3 && t.count == 1
      && (s.width == t.width <==> k != RelativeHumidity)
      && (s.signed == t.signed <==> k != Current)
  {}

  function LayoutOf(f: Format, k: Kind): (l: Option<Layout>)
    ensures l.Some? ==> 1 <= l.value.width <= 4 && k != Polyline
  {
    if f == Telemetry then TelemetryLayout(k) else SummaryLayout(k)
  }

  // ---- runs of equally wide values -----------------------------------------------------

  function ReadValues(signed: bool, w: nat, b: bytes, count: nat): (vs: seq<int>)
    requires |b| == w * count
    ensures |vs| == count
    decreases count
  {
    if count == 0 then []
    else
      assert w * count == w + w * (count - 1);
      [Interpret(signed, w, ReadBE(b[..w]))] + ReadValues(signed, w, b[w..], count - 1)
  }

  ghost predicate AllInRange(signed: bool, w: nat, vs: seq<int>) { forall v <- vs :: InRange(signed, w, v) }

  function PrintValues(signed: bool, w: nat, vs: seq<int>): (b: bytes)
    requires forall v <- vs :: InRange(signed, w, v)
    ensures |b| == w * |vs|
  {
    if vs == [] then []
    else
      assert w * |vs| == w + w * |vs[1..]|;
      assert InRange(signed, w, vs[0]);
      WriteBE(Wire(signed, w, vs[0]), w) + PrintValues(signed, w, vs[1..])
  }

  lemma {:induction false} ReadPrintedValues(signed: bool, w: nat, vs: seq<int>)
    requires AllInRange(signed, w, vs)
    ensures ReadValues(signed, w, PrintValues(signed, w, vs), |vs|) == vs
  {
    if vs != [] {
      hide ReadBE, WriteBE, Pow256;
      var b := PrintValues(signed, w, vs);
      var first := Wire(signed, w, vs[0]);
      assert Interpret(signed, w, first) == vs[0] && ReadBE(WriteBE(first, w)) == first by {
        InterpretWire(signed, w, vs[0]);
        BigEndianBack(first, w);
      }
      assert b[..w] == WriteBE(first, w) && b[w..] == PrintValues(signed, w, vs[1..]);
      assert w * |vs| == w + w * (|vs| - 1);
      assert vs == [vs[0]] + vs[1..];
      ReadPrintedValues(signed, w, vs[1..]);
    }
  }

  lemma {:induction false} PrintReadValues(signed: bool, w: nat, b: bytes, count: nat)
    requires w > 0 && |b| == w * count
    ensures AllInRange(signed, w, ReadValues(signed, w, b, count))
    ensures PrintValues(signed, w, ReadValues(signed, w, b, count)) == b
    decreases count
  {
    if count > 0 {
      var v := ReadBE(b[..w]);
      assert v < Pow256(w) && WriteBE(v, w) == b[..w] by { BigEndian(b[..w]); }
      WireInterpret(signed, w, v);
      assert w * count == w + w * (count - 1);
      PrintReadValues(signed, w, b[w..], count - 1);
      PrintReadStep(signed, w, b, count);
    }
  }

  lemma PrintReadStep(signed: bool, w: nat, b: bytes, count: nat)
    requires count > 0 && |b| == w * count && w <= |b| && |b[w..]| == w * (count - 1)
    requires var x := Interpret(signed, w, ReadBE(b[..w]));
      InRange(signed, w, x) && WriteBE(Wire(signed, w, x), w) == b[..w]
    requires AllInRange(signed, w, ReadValues(signed, w, b[w..], count - 1))
    requires PrintValues(signed, w, ReadValues(signed, w, b[w..], count - 1)) == b[w..]
    ensures AllInRange(signed, w, ReadValues(signed, w, b, count))
    ensures PrintValues(signed, w, ReadValues(signed, w, b, count)) == b
  {
    var vs := ReadValues(signed, w, b, count);
    assert vs[1..] == ReadValues(signed, w, b[w..], count - 1);
    assert b == b[..w] + b[w..];
  }

  // ---- records ---------------------------------------------------------------------------

  datatype Record =
    | Values(channel: byte, kind: Kind, values: seq<int>)
    | Path(channel: byte, raw: bytes)

  ghost predicate Valid(f: Format, r: Record) {
    r.channel != 0 &&
    match r
    case Values(_, k, vs) =>
      LayoutOf(f, k).Some? && |vs| == LayoutOf(f, k).value.count &&
      AllInRange(LayoutOf(f, k).value.signed, LayoutOf(f, k).value.width, vs)
    case Path(_, raw) =>
      f == Telemetry && MIN_POLYLINE <= |raw| && raw[0] as nat == |raw|
  }

  ghost function Print(f: Format, r: Record): (b: bytes)
    requires Valid(f, r)
    ensures |b| >= 2 && b[0] != 0
  {
    match r
    case Values(channel, k, vs) =>
      [channel, Code(k)] + PrintValues(LayoutOf(f, k).value.signed, LayoutOf(f, k).value.width, vs)
    case Path(channel, raw) => [channel, Code(Polyline)] + raw
  }

  /** One record at the head of `b`, with the number of bytes it takes. */
  function ParseRecord(f: Format, b: bytes): (p: Parsed<(Record, nat)>)
    requires b != [] && b[0] != 0
    ensures p.Good? ==> 2 <= p.value.1 <= |b|
  {
    if |b| < 2 then Bad(Truncated)
    else match FromCode(b[1])
      case None => Bad(UnknownType(b[1] as nat))
      case Some(k) => if f == Telemetry && k == Polyline then ParsePath(b) else ParseValues(f, k, b)
  }

  function ParsePath(b: bytes): (p: Parsed<(Record, nat)>)
    requires |b| >= 2
    ensures p.Good? ==> 2 <= p.value.1 <= |b|
  {
    if |b| < 3 then Bad(Truncated)
    else
      var size := b[2] as nat;
      if size < MIN_POLYLINE then Bad(Malformed)
      else if 2 + size > |b| then Bad(Truncated)
      else Good((Path(b[0], b[2..2 + size]), 2 + size))
  }

  function ParseValues(f: Format, k: Kind, b: bytes): (p: Parsed<(Record, nat)>)
    requires |b| >= 2
    ensures p.Good? ==> 2 <= p.value.1 <= |b|
  {
    match LayoutOf(f, k)
    case None => Bad(Malformed)
    case Some(l) =>
      var end := 2 + l.width * l.count;
      if end > |b| then Bad(Truncated)
      else Good((Values(b[0], k, ReadValues(l.signed, l.width, b[2..end], l.count)), end))
  }

  lemma ParsePrintedValues(f: Format, r: Record, rest: bytes)
    requires Valid(f, r) && r.Values?
    ensures ParseValues(f, r.kind, Print(f, r) + rest) == Good((r, |Print(f, r)|))
  {
    hide LayoutOf, PrintValues, ReadValues, Code;
    var b := Print(f, r) + rest;
    var l := LayoutOf(f, r.kind).value;
    assert b[2..2 + l.width * l.count] == PrintValues(l.signed, l.width, r.values);
    ReadPrintedValues(l.signed, l.width, r.values);
  }

  lemma ParsePrintedRecord(f: Format, r: Record, rest: bytes)
    requires Valid(f, r)
    ensures ParseRecord(f, Print(f, r) + rest) == Good((r, |Print(f, r)|))
  {
    hide ParseValues, LayoutOf, PrintValues, AllInRange, FromCode;
    var k := if r.Values? then r.kind else Polyline;
    FromCodeIsExact(Code(k), k);
    var b := Print(f, r) + rest;
    assert b[1] == Code(k);
    if r.Values? {
      ParsePrintedValues(f, r, rest);
    } else {
      assert b[2] == r.raw[0] && b[2..2 + |r.raw|] == r.raw;
    }
  }

  lemma ParsedPathIsPrinted(b: bytes)
    requires |b| >= 2 && b[0] != 0 && b[1] == Code(Polyline) && ParsePath(b).Good?
    ensures var (r, n) := ParsePath(b).value; Valid(Telemetry, r) && Print(Telemetry, r) == b[..n]
  {
    hide LayoutOf, PrintValues, AllInRange;
    var size := b[2] as nat;
    assert b[2..2 + size][0] == b[2];
    assert b[..2 + size] == [b[0], b[1]] + b[2..2 + size];
  }

  lemma ParsedValuesArePrinted(f: Format, k: Kind, b: bytes)
    requires |b| >= 2 && b[0] != 0 && b[1] == Code(k) && ParseValues(f, k, b).Good?
    ensures var (r, n) := ParseValues(f, k, b).value; Valid(f, r) && Print(f, r) == b[..n]
  {
    hide LayoutOf, PrintValues, ReadValues, AllInRange, Code;
    var l := LayoutOf(f, k).value;
    var end := 2 + l.width * l.count;
    PrintReadValues(l.signed, l.width, b[2..end], l.count);
    assert b[..end] == [b[0], b[1]] + b[2..end];
  }

  lemma ParsedRecordIsPrinted(f: Format, b: bytes)
    requires b != [] && b[0] != 0 && ParseRecord(f, b).Good?
    ensures var (r, n) := ParseRecord(f, b).value; Valid(f, r) && Print(f, r) == b[..n]
  {
    hide ParsePath, ParseValues, FromCode, Code, Valid, Print;
    var k := FromCode(b[1]).value;
    FromCodeIsExact(b[1], k);
    if f == Telemetry && k == Polyline {
      ParsedPathIsPrinted(b);
    } else {
      ParsedValuesArePrinted(f, k, b);
    }
  }

  /** Why a record is refused, by its bytes. */
  lemma RecordFaults(f: Format, b: bytes)
    requires b != [] && b[0] != 0
    ensures |b| == 1 ==> ParseRecord(f, b) == Bad(Truncated)
    ensures |b| >= 2 && (forall k :: Code(k) != b[1]) ==> ParseRecord(f, b) == Bad(UnknownType(b[1] as nat))
    ensures |b| >= 2 && f == Summary && b[1] in {113, 134, 135, 136, 240} ==> ParseRecord(f, b) == Bad(Malformed)
    ensures |b| == 2 && f == Telemetry && b[1] == 240 ==> ParseRecord(f, b) == Bad(Truncated)
    ensures |b| >= 3 && f == Telemetry && b[1] == 240 ==>
      ParseRecord(f, b) == if b[2] < 8 then Bad(Malformed)
                           else if 2 + b[2] as nat > |b| then Bad(Truncated)
                           else Good((Path(b[0], b[2..2 + b[2] as nat]), 2 + b[2] as nat))
  {
    hide ReadValues;
    if |b| >= 2 && FromCode(b[1]).Some? { FromCodeIsExact(b[1], FromCode(b[1]).value); }
  }

  lemma ShortRecordIsTruncated(f: Format, k: Kind, b: bytes)
    requires |b| >= 2 && b[0] != 0 && b[1] == Code(k) && LayoutOf(f, k).Some?
    requires |b| < 2 + LayoutOf(f, k).value.width * LayoutOf(f, k).value.count
    ensures ParseRecord(f, b) == Bad(Truncated)
  {
    hide LayoutOf, FromCode;
    FromCodeIsExact(b[1], k);
  }

  // ---- lists of records, ended by zero padding -----------------------------------------------

  predicate AllZero(b: bytes) { forall x <- b :: x == 0 }

  ghost function ParseRecords(f: Format, b: bytes): Parsed<seq<Record>> {
    if b == [] then Good([])
    else if b[0] == 0 then if AllZero(b) then Good([]) else Bad(Malformed)
    else match ParseRecord(f, b)
      case Bad(fault) => Bad(fault)
      case Good((r, n)) => Prepend(r, ParseRecords(f, b[n..]))
  }

  function Prepend(r: Record, rest: Parsed<seq<Record>>): Parsed<seq<Record>> {
    if rest.Good? then Good([r] + rest.value) else rest
  }

  ghost predicate AllValid(f: Format, rs: seq<Record>) { forall r <- rs :: Valid(f, r) }

  ghost function PrintRecords(f: Format, rs: seq<Record>): bytes
    requires AllValid(f, rs)
  {
    if rs == [] then []
    else
      assert Valid(f, rs[0]);
      Print(f, rs[0]) + PrintRecords(f, rs[1..])
  }

  lemma {:induction false} ParsePrinted(f: Format, rs: seq<Record>, padding: bytes)
    requires AllValid(f, rs) && AllZero(padding)
    ensures ParseRecords(f, PrintRecords(f, rs) + padding) == Good(rs)
  {
    hide Print, Valid, ParseRecord;
    if rs == [] {
      assert PrintRecords(f, rs) + padding == padding;
      assert padding != [] ==> padding[0] in padding;
    } else {
      assert Valid(f, rs[0]);
      var first, rest := Print(f, rs[0]), PrintRecords(f, rs[1..]) + padding;
      var b := PrintRecords(f, rs) + padding;
      assert b == first + rest;
      ParsePrintedRecord(f, rs[0], rest);
      assert b[|first|..] == rest;
      assert ParseRecords(f, b) == Prepend(rs[0], ParseRecords(f, rest));
      ParsePrinted(f, rs[1..], padding);
      assert rs == [rs[0]] + rs[1..];
    }
  }

  lemma {:induction false} ParsedIsPrinted(f: Format, b: bytes) returns (padding: bytes)
    requires ParseRecords(f, b).Good?
    ensures var rs := ParseRecords(f, b).value; AllValid(f, rs) && b == PrintRecords(f, rs) + padding
    ensures AllZero(padding)
  {
    hide Print, Valid, ParseRecord;
    if b == [] || b[0] == 0 {
      padding := b;
    } else {
      var (r, n) := ParseRecord(f, b).value;
      ParsedRecordIsPrinted(f, b);
      padding := ParsedIsPrinted(f, b[n..]);
      var rest := ParseRecords(f, b[n..]).value;
      var rs := ParseRecords(f, b).value;
      assert rs[1..] == rest;
      assert b == b[..n] + b[n..];
    }
  }

  /** The records `rs`, printed, then zeros to the end. */
  ghost predicate Encodes(f: Format, b: bytes, rs: seq<Record>) {
    AllValid(f, rs) && PrintRecords(f, rs) <= b && AllZero(b[|PrintRecords(f, rs)|..])
  }

  /** The parser is exactly the inverse of the printer: a buffer is accepted if and only if
      it is a printed list and zero padding, and then the list is that one. */
  lemma ParsedExactlyIfEncodes(f: Format, b: bytes, rs: seq<Record>)
    ensures ParseRecords(f, b) == Good(rs) <==> Encodes(f, b, rs)
  {
    hide ParseRecords, PrintRecords, AllValid;
    if Encodes(f, b, rs) {
      var n := |PrintRecords(f, rs)|;
      ParsePrinted(f, rs, b[n..]);
      assert b == PrintRecords(f, rs) + b[n..];
    }
    if ParseRecords(f, b) == Good(rs) {
      var padding := ParsedIsPrinted(f, b);
      assert b[|PrintRecords(f, rs)|..] == padding;
    }
  }

  // ---- payloads -----------------------------------------------------------------------------------

  ghost function TelemetryPayload(b: bytes): Parsed<seq<Record>> {
    if |b| > MAX_REMOTE_PAYLOAD then Bad(TooLarge(|b|)) else ParseRecords(Telemetry, b)
  }

  ghost function SummaryPayload(b: bytes): Parsed<(nat, seq<Record>)> {
    if |b| > MAX_REMOTE_PAYLOAD then Bad(TooLarge(|b|))
    else if |b| < 4 then Bad(Truncated)
    else match ParseRecords(Summary, b[4..])
      case Bad(fault) => Bad(fault)
      case Good(rs) => Good((ReadLE(b[..4]), rs))
  }

  /** Why a payload is refused as a whole. */
  lemma PayloadFaults(b: bytes)
    ensures |b| > 176 ==> TelemetryPayload(b) == Bad(TooLarge(|b|)) && SummaryPayload(b) == Bad(TooLarge(|b|))
    ensures |b| < 4 ==> SummaryPayload(b) == Bad(Truncated)
    ensures 0 < |b| <= 176 && b[0] == 0 && (exists x <- b :: x != 0) ==> TelemetryPayload(b) == Bad(Malformed)
    ensures 4 < |b| <= 176 && b[4] == 0 && (exists x <- b[4..] :: x != 0) ==> SummaryPayload(b) == Bad(Malformed)
  {
    hide ParseRecord;
  }

  lemma TelemetryExactlyIfPrinted(b: bytes, rs: seq<Record>)
    ensures TelemetryPayload(b) == Good(rs) <==> |b| <= MAX_REMOTE_PAYLOAD && Encodes(Telemetry, b, rs)
  {
    ParsedExactlyIfEncodes(Telemetry, b, rs);
  }

  lemma SummaryExactlyIfPrinted(b: bytes, clock: nat, rs: seq<Record>)
    ensures SummaryPayload(b) == Good((clock, rs)) <==>
      && 4 <= |b| <= MAX_REMOTE_PAYLOAD && clock < Pow256(4)
      && b[..4] == WriteLE(clock, 4) && Encodes(Summary, b[4..], rs)
  {
    hide ParseRecords, Encodes, Pow256, ReadLE, WriteLE;
    if 4 <= |b| {
      ParsedExactlyIfEncodes(Summary, b[4..], rs);
      LittleEndian(b[..4]);
      if clock < Pow256(4) { LittleEndianBack(clock, 4); }
    }
  }

  // ---- payloads of one record -------------------------------------------------------------------------

  /** One record of any kind but the polyline reads its values by its layout. */
  lemma {:induction false} OneRecordParses(k: Kind, b: bytes)
    requires k != Polyline && |b| >= 2 && b[0] != 0 && b[1] == Code(k)
    requires var l := TelemetryLayout(k).value; |b| == 2 + l.width * l.count <= MAX_REMOTE_PAYLOAD
    ensures var l := TelemetryLayout(k).value;
            TelemetryPayload(b) == Good([Values(b[0], k, ReadValues(l.signed, l.width, b[2..], l.count))])
  {
    hide TelemetryLayout, ReadValues, FromCode, Code;
    FromCodeIsExact(b[1], k);
    TelemetryTable(k);
    var l := TelemetryLayout(k).value;
    var record := Values(b[0], k, ReadValues(l.signed, l.width, b[2..], l.count));
    assert b[2..|b|] == b[2..] && b[|b|..] == [];
    assert ParseRecord(Telemetry, b) == Good((record, |b|));
    assert ParseRecords(Telemetry, b) == Prepend(record, ParseRecords(Telemetry, b[|b|..]));
    assert [record] + [] == [record];
  }

  /** Two's complement of three bytes. */
  function Signed24(x: byte, y: byte, z: byte): int {
    var v := 65536 * x + 256 * y + z;
    if v >= 0x80_0000 then v - 0x100_0000 else v
  }

  lemma Signed24Value(b: bytes)
    requires |b| == 3
    ensures Interpret(true, 3, ReadBE(b)) == Signed24(b[0], b[1], b[2])
  {
    ReadBEUnrolled(b);
    Powers();
  }

  /** A position of any nine bytes: latitude, longitude and altitude, each signed. */
  lemma {:induction false} PositionParses(b: bytes)
    requires |b| == 11 && b[0] != 0 && b[1] == 136
    ensures TelemetryPayload(b) ==
            Good([Values(b[0], Gps,
                         [Signed24(b[2], b[3], b[4]), Signed24(b[5], b[6], b[7]), Signed24(b[8], b[9], b[10])])])
  {
    hide TelemetryPayload, ReadValues, ReadBE, Interpret, Signed24;
    var body := b[2..];
    assert TelemetryLayout(Gps) == Some(Layout(3, 3, true)) && Code(Gps) == 136;
    OneRecordParses(Gps, b);
    ThreeValues(true, 3, body);
    assert body[0..3] == [b[2], b[3], b[4]] && body[3..6] == [b[5], b[6], b[7]] && body[6..9] == [b[8], b[9], b[10]];
    Signed24Value([b[2], b[3], b[4]]);
    Signed24Value([b[5], b[6], b[7]]);
    Signed24Value([b[8], b[9], b[10]]);
  }

  // ---- the loops of the parsers ---------------------------------------------------------------------

  lemma ReadBEUnrolled(b: bytes)
    requires 1 <= |b| <= 4
    ensures |b| == 1 ==> ReadBE(b) == b[0] as nat
    ensures |b| == 2 ==> ReadBE(b) == 256 * b[0] as nat + b[1] as nat
    ensures |b| == 3 ==> ReadBE(b) == 65536 * b[0] as nat + 256 * b[1] as nat + b[2] as nat
    ensures |b| == 4 ==>
      ReadBE(b) == 16777216 * b[0] as nat + 65536 * b[1] as nat + 256 * b[2] as nat + b[3] as nat
  {
    var front := b[..|b| - 1];
    if |b| > 1 { ReadBEUnrolled(front); }
  }

  lemma Powers()
    ensures Pow256(1) == 0x100 && Pow256(2) == 0x1_0000 && Pow256(3) == 0x100_0000 && Pow256(4) == 0x1_0000_0000
  {
    assert Pow256(2) == 256 * Pow256(1);
    assert Pow256(3) == 256 * Pow256(2);
    assert Pow256(4) == 256 * Pow256(3);
  }

  /** One value at `cursor`, read byte by byte; 24-bit values are sign-extended by mask. */
  method DecodeValue(payload: bytes, cursor: nat, width: nat, signed: bool) returns (r: Parsed<int>)
    ensures !(1 <= width <= 4) ==> r == Bad(Malformed)
    ensures 1 <= width <= 4 && cursor + width > |payload| ==> r == Bad(Truncated)
    ensures 1 <= width <= 4 && cursor + width <= |payload| ==>
      r == Good(Interpret(signed, width, ReadBE(payload[cursor..cursor + width])))
  {
    hide ReadI24, ReadBE, Pow256;
    if width < 1 || width > 4 { return Bad(Malformed); }
    if cursor + width > |payload| { return Bad(Truncated); }
    Powers();
    ReadBEUnrolled(payload[cursor..cursor + width]);
    if width == 1 {
      var v := payload[cursor] as int;
      r := Good(if signed && v >= 0x80 then v - 0x100 else v);
    } else if width == 2 {
      var v := 256 * payload[cursor] as int + payload[cursor + 1] as int;
      r := Good(if signed && v >= 0x8000 then v - 0x1_0000 else v);
    } else if width == 3 {
      var v := 65536 * payload[cursor] as int + 256 * payload[cursor + 1] as int + payload[cursor + 2] as int;
      ReadI24IsSigned(payload[cursor], payload[cursor + 1], payload[cursor + 2]);
      r := Good(if signed then ReadI24(payload[cursor], payload[cursor + 1], payload[cursor + 2]) else v);
    } else {
      var v := 16777216 * payload[cursor] as int + 65536 * payload[cursor + 1] as int
      + 256 * payload[cursor + 2] as int + payload[cursor + 3] as int;
      r := Good(if signed && v >= 0x8000_0000 then v - 0x1_0000_0000 else v);
    }
  }

  lemma ReadValuesStep(signed: bool, w: nat, b: bytes, count: nat)
    requires count > 0 && |b| == w * count
    ensures w <= |b| && |b[w..]| == w * (count - 1)
    ensures ReadValues(signed, w, b, count) ==
            [Interpret(signed, w, ReadBE(b[..w]))] + ReadValues(signed, w, b[w..], count - 1)
  {
    assert w * count == w + w * (count - 1);
  }

  method DecodeValues(payload: bytes, cursor: nat, l: Layout) returns (r: Parsed<seq<int>>)
    requires 1 <= l.width <= 4
    ensures cursor + l.width * l.count > |payload| ==> r == Bad(Truncated)
    ensures cursor + l.width * l.count <= |payload| ==>
      r == Good(ReadValues(l.signed, l.width, payload[cursor..cursor + l.width * l.count], l.count))
  {
    hide ReadBE, Interpret, ReadValues;
    var end := cursor + l.width * l.count;
    if end > |payload| { return Bad(Truncated); }
    ghost var whole := ReadValues(l.signed, l.width, payload[cursor..end], l.count);
    var values, at := [], cursor;
    ghost var left := l.count;
    assert payload[at..end] == payload[cursor..end];
    while at < end
      invariant cursor <= at <= end && |payload[at..end]| == l.width * left
      invariant whole == values + ReadValues(l.signed, l.width, payload[at..end], left)
      decreases end - at
    {
      if left == 0 { assert false; }
      ghost var rest := payload[at..end];
      ReadValuesStep(l.signed, l.width, rest, left);
      assert rest[..l.width] == payload[at..at + l.width] && rest[l.width..] == payload[at + l.width..end];
      var v := DecodeValue(payload, at, l.width, l.signed);
      values, at, left := values + [v.value], at + l.width, left - 1;
    }
    assert left == 0 by { if left > 0 { ReadValuesStep(l.signed, l.width, payload[at..end], left); } }
    assert |ReadValues(l.signed, l.width, payload[at..end], left)| == 0;
    assert whole == values;
    r := Good(values);
  }

  /** The telemetry record at `cursor` and its length. */
  method NextSample(payload: bytes, cursor: nat) returns (r: Parsed<(Record, nat)>)
    requires cursor < |payload| && payload[cursor] != 0
    ensures r == ParseRecord(Telemetry, payload[cursor..])
  {
    hide ReadValues, FromCode;
    ghost var rest := payload[cursor..];
    var channel := payload[cursor];
    if cursor + 1 >= |payload| { return Bad(Truncated); }
    assert payload[cursor + 1] == rest[1];
    var kind := FromCode(payload[cursor + 1]);
    if kind == None { return Bad(UnknownType(payload[cursor + 1] as nat)); }
    if kind.value == Polyline {
      if cursor + 2 >= |payload| { return Bad(Truncated); }
      var size := payload[cursor + 2] as nat;
      if size < MIN_POLYLINE { return Bad(Malformed); }
      var end := cursor + 2 + size;
      if end > |payload| { return Bad(Truncated); }
      assert payload[cursor + 2..end] == rest[2..2 + size];
      return Good((Path(channel, payload[cursor + 2..end]), 2 + size));
    }
    var l := TelemetryLayout(kind.value).value;
    var values := DecodeValues(payload, cursor + 2, l);
    if values.Bad? { return Bad(values.fault); }
    var n := 2 + l.width * l.count;
    assert payload[cursor + 2..cursor + n] == rest[2..n];
    r := Good((Values(channel, kind.value, values.value), n));
  }

  lemma ThreeValues(signed: bool, w: nat, b: bytes)
    requires |b| == w * 3
    ensures ReadValues(signed, w, b, 3) == [
              Interpret(signed, w, ReadBE(b[0..w])),
              Interpret(signed, w, ReadBE(b[w..2 * w])),
              Interpret(signed, w, ReadBE(b[2 * w..3 * w]))]
  {
    hide ReadBE, Interpret;
    assert b[..w] == b[0..w];
    assert b[w..][..w] == b[w..2 * w];
    assert b[w..][w..] == b[2 * w..];
    assert b[2 * w..][..w] == b[2 * w..3 * w];
  }

  /** The summary record at `cursor`: minimum, maximum and average, read in turn. */
  method NextSummary(payload: bytes, cursor: nat) returns (r: Parsed<(Record, nat)>)
    requires cursor < |payload| && payload[cursor] != 0
    ensures r == ParseRecord(Summary, payload[cursor..])
  {
    hide ReadValues, ReadBE, Interpret, FromCode, SummaryLayout;
    ghost var rest := payload[cursor..];
    var channel := payload[cursor];
    if cursor + 1 >= |payload| { return Bad(Truncated); }
    assert payload[cursor + 1] == rest[1];
    var kind := FromCode(payload[cursor + 1]);
    if kind == None { return Bad(UnknownType(payload[cursor + 1] as nat)); }
    var layout := LayoutOf(Summary, kind.value);
    if layout == None { return Bad(Malformed); }
    var w, signed := layout.value.width, layout.value.signed;
    SummaryHasThree(kind.value);
    var at := cursor + 2;
    var minimum := DecodeValue(payload, at, w, signed);
    if minimum.Bad? { return Bad(minimum.fault); }
    var maximum := DecodeValue(payload, at + w, w, signed);
    if maximum.Bad? { return Bad(maximum.fault); }
    var average := DecodeValue(payload, at + 2 * w, w, signed);
    if average.Bad? { return Bad(average.fault); }
    ghost var body := payload[at..at + 3 * w];
    assert rest == payload[cursor..|payload|];
    Subslice(payload, cursor, |payload|, 2, 2 + w * 3);
    Subslice(payload, at, at + 3 * w, 0, w);
    Subslice(payload, at, at + 3 * w, w, 2 * w);
    Subslice(payload, at, at + 3 * w, 2 * w, 3 * w);
    ThreeValues(signed, w, body);
    r := Good((Values(channel, kind.value, [minimum.value, maximum.value, average.value]), 2 + w * 3));
  }

  lemma Subslice(b: bytes, from: nat, to: nat, i: nat, j: nat)
    requires from <= to <= |b| && i <= j && from + j <= to
    ensures b[from..to][i..j] == b[from + i..from + j]
  {
    var slice := b[from..to];
    forall k | 0 <= k < j - i ensures slice[i..j][k] == b[from + i..from + j][k] {
      assert slice[i..j][k] == slice[i + k] == b[from + i + k];
    }
  }

  lemma SummaryHasThree(k: Kind)
    ensures SummaryLayout(k).Some? ==> SummaryLayout(k).value.count == 3
  {}

  ghost function Onto(rs: seq<Record>, rest: Parsed<seq<Record>>): Parsed<seq<Record>> {
    if rest.Good? then Good(rs + rest.value) else rest
  }

  lemma OntoNothing(p: Parsed<seq<Record>>)
    ensures Onto([], p) == p
  {
    if p.Good? { assert [] + p.value == p.value; }
  }

  lemma ParseEnd(f: Format, rs: seq<Record>, b: bytes)
    requires b == [] || b[0] == 0
    ensures Onto(rs, ParseRecords(f, b)) == if b == [] || AllZero(b[1..]) then Good(rs) else Bad(Malformed)
  {
    assert rs + [] == rs;
    if b != [] {
      assert b[0] in b && forall x <- b[1..] :: x in b;
      forall x | x in b && x !in b[1..] ensures x == 0 {}
    }
  }

  lemma ParseStep(f: Format, rs: seq<Record>, b: bytes)
    requires b != [] && b[0] != 0
    ensures var p := ParseRecord(f, b);
      Onto(rs, ParseRecords(f, b)) ==
      if p.Bad? then Bad(p.fault) else Onto(rs + [p.value.0], ParseRecords(f, b[p.value.1..]))
  {
    hide ParseRecord;
    var p := ParseRecord(f, b);
    if p.Good? {
      var rest := ParseRecords(f, b[p.value.1..]);
      assert ParseRecords(f, b) == Prepend(p.value.0, rest);
      assert rest.Good? ==> rs + ([p.value.0] + rest.value) == rs + [p.value.0] + rest.value;
    }
  }

  method ParseTelemetryPayload(payload: bytes) returns (r: Parsed<seq<Record>>)
    ensures r == TelemetryPayload(payload)
    ensures |payload| == 11 && payload[0] != 0 && payload[1] == 136 ==>
              r == Good([Values(payload[0], Gps, [
                Signed24(payload[2], payload[3], payload[4]),
                Signed24(payload[5], payload[6], payload[7]),
                Signed24(payload[8], payload[9], payload[10])])])
  {
    hide ParseRecords, ParseRecord, Signed24;
    if |payload| == 11 && payload[0] != 0 && payload[1] == 136 { PositionParses(payload); }
    if |payload| > MAX_REMOTE_PAYLOAD { return Bad(TooLarge(|payload|)); }
    var cursor, readings := 0, [];
    assert payload[cursor..] == payload;
    OntoNothing(ParseRecords(Telemetry, payload));
    while cursor < |payload|
      invariant cursor <= |payload|
      invariant ParseRecords(Telemetry, payload) == Onto(readings, ParseRecords(Telemetry, payload[cursor..]))
    {
      if payload[cursor] == 0 {
        ParseEnd(Telemetry, readings, payload[cursor..]);
        assert payload[cursor..][1..] == payload[cursor + 1..];
        return if AllZero(payload[cursor + 1..]) then Good(readings) else Bad(Malformed);
      }
      ParseStep(Telemetry, readings, payload[cursor..]);
      var sample := NextSample(payload, cursor);
      if sample.Bad? { return Bad(sample.fault); }
      var (record, n) := sample.value;
      assert payload[cursor..][n..] == payload[cursor + n..];
      cursor, readings := cursor + n, readings + [record];
    }
    ParseEnd(Telemetry, readings, payload[cursor..]);
    r := Good(readings);
  }

  method ParseSummaryPayload(payload: bytes) returns (r: Parsed<(nat, seq<Record>)>)
    ensures r == SummaryPayload(payload)
  {
    hide ParseRecords, ParseRecord;
    if |payload| > MAX_REMOTE_PAYLOAD { return Bad(TooLarge(|payload|)); }
    if |payload| < 4 { return Bad(Truncated); }
    var clock := payload[0] as nat + 256 * payload[1] as nat + 65536 * payload[2] as nat + 16777216 * payload[3] as nat;
    assert clock == ReadLE(payload[..4]) by { ReadLE4(payload[..4]); }
    var cursor, entries := 4, [];
    OntoNothing(ParseRecords(Summary, payload[4..]));
    while cursor < |payload|
      invariant cursor <= |payload|
      invariant ParseRecords(Summary, payload[4..]) == Onto(entries, ParseRecords(Summary, payload[cursor..]))
    {
      if payload[cursor] == 0 {
        ParseEnd(Summary, entries, payload[cursor..]);
        assert payload[cursor..][1..] == payload[cursor + 1..];
        return if AllZero(payload[cursor + 1..]) then Good((clock, entries)) else Bad(Malformed);
      }
      ParseStep(Summary, entries, payload[cursor..]);
      var entry := NextSummary(payload, cursor);
      if entry.Bad? { return Bad(entry.fault); }
      var (record, n) := entry.value;
      assert payload[cursor..][n..] == payload[cursor + n..];
      cursor, entries := cursor + n, entries + [record];
    }
    ParseEnd(Summary, entries, payload[cursor..]);
    r := Good((clock, entries));
  }

  lemma ReadLE4(b: bytes)
    requires |b| == 4
    ensures ReadLE(b) == b[0] as nat + 256 * b[1] as nat + 65536 * b[2] as nat + 16777216 * b[3] as nat
  {
    assert b[1..][1..] == b[2..] && b[2..][1..] == b[3..];
    assert ReadLE(b[3..]) == b[3] as nat;
    assert ReadLE(b[2..]) == b[2] as nat + 256 * ReadLE(b[3..]);
    assert ReadLE(b[1..]) == b[1] as nat + 256 * ReadLE(b[2..]);
  }

  // ---- scaled readings --------------------------------------------------------------------------------

  /** What a raw value is divided by. */
  function Multiplier(f: Format, k: Kind, component: nat): real {
    if f == Telemetry then
      match k
      case Gps => if component < 2 then 10000.0 else 100.0
      case AnalogInput | AnalogOutput | Voltage | Gyrometer => 100.0
      case Temperature | BarometricPressure => 10.0
      case RelativeHumidity => 2.0
      case Accelerometer | Current | Distance | Energy => 1000.0
      case _ => 1.0
    else
      match k
      case Current | Distance | Energy => 1000.0
      case Voltage | AnalogInput | AnalogOutput => 100.0
      case Temperature | BarometricPressure | RelativeHumidity => 10.0
      case _ => 1.0
  }

  lemma MultiplierTable(k: Kind, component: nat)
    ensures Multiplier(Telemetry, k, component) ==
            if k == Gps then (if component < 2 then 10000.0 else 100.0)
            else if k in {AnalogInput, AnalogOutput, Voltage, Gyrometer} then 100.0
            else if k in {Temperature, BarometricPressure} then 10.0
            else if k == RelativeHumidity then 2.0
            else if k in {Accelerometer, Current, Distance, Energy} then 1000.0
            else 1.0
    ensures Multiplier(Summary, k, component) ==
            if k in {Current, Distance, Energy} then 1000.0
            else if k in {Voltage, AnalogInput, AnalogOutput} then 100.0
            else if k in {Temperature, BarometricPressure, RelativeHumidity} then 10.0
            else 1.0
  {}

  datatype Reading = Reading(channel: byte, kind: Kind, values: seq<real>, raw: Option<bytes>)

  /** A rounding of the reals to floating-point numbers with a relative error of at most
      2^-53, as division of IEEE 754 binary64 numbers has. */
  ghost predicate Rounds(round: real -> real) {
    forall x: real :: Abs(round(x) - x) <= Abs(x) / 9007199254740992.0
  }

  function Abs(x: real): real { if x < 0.0 then -x else x }

  function Scaled(f: Format, r: Record, round: real -> real): Reading {
    match r
    case Values(channel, k, vs) =>
      Reading(channel, k, seq(|vs|, i requires 0 <= i < |vs| => round(vs[i] as real / Multiplier(f, k, i))), None)
    case Path(channel, raw) => Reading(channel, Polyline, [], Some(raw))
  }

  lemma QuotientIsBounded(x: int, m: real)
    requires -0x1_0000_0000 <= x <= 0x1_0000_0000 && 1.0 <= m
    ensures Abs(x as real / m) <= 4294967296.0
  {
    var q := x as real / m;
    assert q * m == x as real;
    AtMostTimes(Abs(q), 1.0, m);
    assert Abs(q) * m == Abs(x as real);
  }

  lemma QuotientsAreApart(x: int, y: int, m: real)
    requires x < y && 1.0 <= m <= 10000.0
    ensures y as real / m - x as real / m >= 0.0001
  {
    var gap := y as real / m - x as real / m;
    assert gap * m == y as real - x as real;
    if gap < 0.0001 {
      if gap < 0.0 { AtMostTimes(-gap, 0.0, m); } else { AtMostTimes(gap, m, 10000.0); }
    }
  }

  lemma AtMostTimes(a: real, m: real, n: real)
    requires 0.0 <= a && m <= n
    ensures a * m <= a * n
  {}

  /** Different raw values are so far apart that rounding cannot join their quotients. */
  lemma DivisionIsInjective(x: int, y: int, m: real, round: real -> real)
    requires -0x1_0000_0000 <= x < y <= 0x1_0000_0000 && 1.0 <= m <= 10000.0 && Rounds(round)
    ensures round(x as real / m) < round(y as real / m)
  {
    QuotientIsBounded(x, m);
    QuotientIsBounded(y, m);
    QuotientsAreApart(x, y, m);
    var q, r := x as real / m, y as real / m;
    assert Abs(round(q) - q) <= Abs(q) / 9007199254740992.0;
    assert Abs(round(r) - r) <= Abs(r) / 9007199254740992.0;
  }

  lemma RawBounds(f: Format, k: Kind, v: int)
    requires LayoutOf(f, k).Some? && InRange(LayoutOf(f, k).value.signed, LayoutOf(f, k).value.width, v)
    ensures -0x1_0000_0000 <= v <= 0x1_0000_0000
  {
    hide TelemetryLayout, SummaryLayout;
    Powers();
  }

  /** Scaling and rounding lose nothing: the reading determines the record. */
  lemma ScalingIsLossless(f: Format, r: Record, s: Record, round: real -> real)
    requires Valid(f, r) && Valid(f, s) && Rounds(round) && Scaled(f, r, round) == Scaled(f, s, round)
    ensures r == s
  {
    hide LayoutOf, InRange, Rounds;
    if r.Values? && s.Values? {
      var vs, ws := Scaled(f, r, round).values, Scaled(f, s, round).values;
      assert |vs| == |r.values| && |ws| == |s.values|;
      forall i | 0 <= i < |r.values| ensures r.values[i] == s.values[i] {
        var m := Multiplier(f, r.kind, i);
        assert vs[i] == round(r.values[i] as real / m) && ws[i] == round(s.values[i] as real / m);
        RawBounds(f, r.kind, r.values[i]);
        RawBounds(f, r.kind, s.values[i]);
        if r.values[i] < s.values[i] { DivisionIsInjective(r.values[i], s.values[i], m, round); }
        if s.values[i] < r.values[i] { DivisionIsInjective(s.values[i], r.values[i], m, round); }
      }
    }
  }
}
