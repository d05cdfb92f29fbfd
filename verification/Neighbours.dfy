/** Neighbour pages of remote nodes: a signed total and result count, then fixed-size
    entries whose key prefix has the length the caller asked for. */
module NeighbourPages {
  import opened Bytes
  import opened RemotePayloads

  /** `snr` is the raw signed byte, in quarter decibels. */
  datatype Entry = Entry(prefix: bytes, secs: nat, snr: int)

  datatype Page = Page(total: nat, results: nat, entries: seq<Entry>)

  // ---- entries ---------------------------------------------------------------------

  ghost predicate ValidEntry(n: nat, e: Entry) {
    |e.prefix| == n && e.secs < Pow256(4) && InRange(true, 1, e.snr)
  }

  ghost function PrintEntry(n: nat, e: Entry): (b: bytes)
    requires ValidEntry(n, e)
    ensures |b| == n + 5
  {
    e.prefix + WriteLE(e.secs, 4) + WriteBE(Wire(true, 1, e.snr), 1)
  }

  function ReadEntry(n: nat, b: bytes): Entry
    requires |b| == n + 5
  {
    Entry(b[..n], ReadLE(b[n..n + 4]), Interpret(true, 1, ReadBE(b[n + 4..])))
  }

  lemma ReadPrintedEntry(n: nat, e: Entry)
    requires ValidEntry(n, e)
    ensures ReadEntry(n, PrintEntry(n, e)) == e
  {
    hide ReadLE, WriteLE, ReadBE, WriteBE, Pow256, Interpret, Wire, InRange;
    var b := PrintEntry(n, e);
    assert b[..n] == e.prefix && b[n..n + 4] == WriteLE(e.secs, 4);
    assert b[n + 4..] == WriteBE(Wire(true, 1, e.snr), 1);
    LittleEndianBack(e.secs, 4);
    InterpretWire(true, 1, e.snr);
    BigEndianBack(Wire(true, 1, e.snr), 1);
  }

  lemma PrintReadEntry(n: nat, b: bytes)
    requires |b| == n + 5
    ensures ValidEntry(n, ReadEntry(n, b)) && PrintEntry(n, ReadEntry(n, b)) == b
  {
    hide ReadLE, WriteLE, ReadBE, WriteBE, Pow256, Interpret, Wire, InRange;
    LittleEndian(b[n..n + 4]);
    BigEndian(b[n + 4..]);
    WireInterpret(true, 1, ReadBE(b[n + 4..]));
    assert b == b[..n] + b[n..n + 4] + b[n + 4..];
  }

  function ReadEntries(n: nat, b: bytes, count: nat): (es: seq<Entry>)
    requires |b| == (n + 5) * count
    ensures |es| == count
    decreases count
  {
    if count == 0 then []
    else
      assert (n + 5) * count == (n + 5) + (n + 5) * (count - 1);
      [ReadEntry(n, b[..n + 5])] + ReadEntries(n, b[n + 5..], count - 1)
  }

  ghost predicate AllValidEntries(n: nat, es: seq<Entry>) { forall e <- es :: ValidEntry(n, e) }

  ghost function PrintEntries(n: nat, es: seq<Entry>): (b: bytes)
    requires AllValidEntries(n, es)
    ensures |b| == (n + 5) * |es|
  {
    if es == [] then []
    else
      assert (n + 5) * |es| == (n + 5) + (n + 5) * |es[1..]|;
      assert ValidEntry(n, es[0]);
      PrintEntry(n, es[0]) + PrintEntries(n, es[1..])
  }

  lemma {:induction false} ReadPrintedEntries(n: nat, es: seq<Entry>)
    requires AllValidEntries(n, es)
    ensures ReadEntries(n, PrintEntries(n, es), |es|) == es
  {
    hide ReadEntry, PrintEntry, ValidEntry;
    if es != [] {
      assert ValidEntry(n, es[0]);
      var b := PrintEntries(n, es);
      assert b[..n + 5] == PrintEntry(n, es[0]) && b[n + 5..] == PrintEntries(n, es[1..]);
      ReadPrintedEntry(n, es[0]);
      ReadPrintedEntries(n, es[1..]);
      assert es == [es[0]] + es[1..];
    }
  }

  lemma EntryStep(n: nat, b: bytes, count: nat)
    requires count > 0 && |b| == (n + 5) * count
    ensures n + 5 <= |b| && |b[n + 5..]| == (n + 5) * (count - 1)
    ensures ReadEntries(n, b, count) == [ReadEntry(n, b[..n + 5])] + ReadEntries(n, b[n + 5..], count - 1)
  {
    assert (n + 5) * count == (n + 5) + (n + 5) * (count - 1);
  }

  lemma {:induction false} PrintReadEntries(n: nat, b: bytes, count: nat)
    requires |b| == (n + 5) * count
    ensures AllValidEntries(n, ReadEntries(n, b, count)) && PrintEntries(n, ReadEntries(n, b, count)) == b
    decreases count
  {
    hide ReadEntry, PrintEntry, ValidEntry;
    if count > 0 {
      EntryStep(n, b, count);
      PrintReadEntry(n, b[..n + 5]);
      PrintReadEntries(n, b[n + 5..], count - 1);
      var es := ReadEntries(n, b, count);
      assert es[0] == ReadEntry(n, b[..n + 5]) && es[1..] == ReadEntries(n, b[n + 5..], count - 1);
      assert b == b[..n + 5] + b[n + 5..];
    }
  }

  // ---- pages ------------------------------------------------------------------------

  ghost predicate ValidPage(n: nat, page: Page) {
    && 1 <= n <= 32
    && page.results == |page.entries| <= page.total < 0x8000
    && AllValidEntries(n, page.entries)
  }

  ghost function PrintPage(n: nat, page: Page): bytes
    requires ValidPage(n, page)
  {
    WriteLE(page.total, 2) + WriteLE(page.results, 2) + PrintEntries(n, page.entries)
  }

  function PagePayload(b: bytes, n: byte): Parsed<Page> {
    if |b| > MAX_REMOTE_PAYLOAD then Bad(TooLarge(|b|))
    else if !(1 <= n <= 32) then Bad(Malformed)
    else if |b| < 4 then Bad(Truncated)
    else
      var total, results := AsSigned(ReadLE(b[..2]), 2), AsSigned(ReadLE(b[2..4]), 2);
      if total < 0 || results < 0 then Bad(Malformed)
      else if results > total then Bad(Malformed)
      else if 4 + results * (n as nat + 5) != |b| then Bad(Malformed)
      else Good(Page(total, results, ReadEntries(n as nat, b[4..], results)))
  }

  /** The layout of an entry, byte by byte: key prefix, seconds with the low byte first,
      signed quality. */
  lemma EntryLayout(n: nat, b: bytes)
    requires |b| == n + 5
    ensures var e := ReadEntry(n, b);
            && e.prefix == b[..n]
            && e.secs == b[n] as nat + 256 * b[n + 1] as nat + 65536 * b[n + 2] as nat + 16777216 * b[n + 3] as nat
            && e.snr == if b[n + 4] >= 0x80 then b[n + 4] as int - 0x100 else b[n + 4] as int
  {
    hide ReadLE, ReadBE;
    ReadLE4(b[n..n + 4]);
    ReadBEUnrolled(b[n + 4..]);
    Powers();
  }

  /** Why a page is refused. */
  lemma PageFaults(b: bytes, n: byte)
    ensures |b| > 176 ==> PagePayload(b, n) == Bad(TooLarge(|b|))
    ensures |b| <= 176 && (n == 0 || n > 32) ==> PagePayload(b, n) == Bad(Malformed)
    ensures |b| < 4 && 1 <= n <= 32 ==> PagePayload(b, n) == Bad(Truncated)
    ensures 4 <= |b| <= 176 && 1 <= n <= 32 ==>
              var total, results := b[0] as nat + 256 * b[1] as nat, b[2] as nat + 256 * b[3] as nat;
              (PagePayload(b, n).Bad? <==>
                 total >= 0x8000 || results >= 0x8000 || results > total || |b| != 4 + results * (n as nat + 5)) &&
              (PagePayload(b, n).Bad? ==> PagePayload(b, n) == Bad(Malformed)) &&
              (PagePayload(b, n).Good? ==>
                 PagePayload(b, n).value.total == total && PagePayload(b, n).value.results == results)
  {
    hide ReadEntries;
    if |b| >= 4 {
      Pair(b[..2]);
      Pair(b[2..4]);
    }
  }

  lemma Pair(b: bytes)
    requires |b| == 2
    ensures var v := b[0] as nat + 256 * b[1] as nat;
            ReadLE(b) == v && AsSigned(ReadLE(b), 2) == if v >= 0x8000 then v - 0x1_0000 else v
  {
    Powers();
    assert b[1..][1..] == [];
    assert ReadLE(b[1..]) == b[1] as nat;
  }

  lemma CountRoundTrip(b: bytes, v: nat)
    requires |b| == 2 && v < 0x8000
    ensures AsSigned(ReadLE(b), 2) == v <==> b == WriteLE(v, 2)
  {
    Powers();
    LittleEndian(b);
    LittleEndianBack(v, 2);
  }

  /** A payload is accepted exactly when it is a valid page, printed, of allowed size. */
  lemma PageExactlyIfPrinted(b: bytes, n: byte, page: Page)
    ensures PagePayload(b, n) == Good(page) <==>
            ValidPage(n as nat, page) && |b| <= MAX_REMOTE_PAYLOAD && b == PrintPage(n as nat, page)
  {
    if ValidPage(n as nat, page) && |b| <= MAX_REMOTE_PAYLOAD && b == PrintPage(n as nat, page) {
      PrintedPageParses(b, n, page);
    }
    if PagePayload(b, n) == Good(page) {
      ParsedPageIsPrinted(b, n, page);
    }
  }

  lemma PrintedPageParses(b: bytes, n: byte, page: Page)
    requires ValidPage(n as nat, page) && |b| <= MAX_REMOTE_PAYLOAD && b == PrintPage(n as nat, page)
    ensures PagePayload(b, n) == Good(page)
  {
    hide ReadLE, WriteLE, AsSigned, ReadEntries, PrintEntries, AllValidEntries;
    assert b[..2] == WriteLE(page.total, 2) && b[2..4] == WriteLE(page.results, 2);
    assert b[4..] == PrintEntries(n as nat, page.entries);
    CountRoundTrip(b[..2], page.total);
    CountRoundTrip(b[2..4], page.results);
    ReadPrintedEntries(n as nat, page.entries);
  }

  lemma ParsedPageIsPrinted(b: bytes, n: byte, page: Page)
    requires PagePayload(b, n) == Good(page)
    ensures ValidPage(n as nat, page) && |b| <= MAX_REMOTE_PAYLOAD && b == PrintPage(n as nat, page)
  {
    hide ReadLE, WriteLE, ReadEntries, PrintEntries, AllValidEntries, AsSigned;
    SignedBound(ReadLE(b[..2]), b[..2]);
    CountRoundTrip(b[..2], page.total);
    CountRoundTrip(b[2..4], page.results);
    PrintReadEntries(n as nat, b[4..], page.results);
    assert b == b[..2] + b[2..4] + b[4..];
  }

  lemma SignedBound(v: nat, b: bytes)
    requires |b| == 2 && v == ReadLE(b)
    ensures AsSigned(v, 2) < 0x8000
  {
    Powers();
    LittleEndian(b);
  }

  // ---- the loop of the parser ----------------------------------------------------------

  method ParseNeighbourPage(payload: bytes, prefixLength: byte) returns (r: Parsed<Page>)
    ensures r == PagePayload(payload, prefixLength)
  {
    hide ReadEntries, ReadEntry, ReadLE, AsSigned;
    if |payload| > MAX_REMOTE_PAYLOAD { return Bad(TooLarge(|payload|)); }
    if !(1 <= prefixLength <= 32) { return Bad(Malformed); }
    if |payload| < 4 { return Bad(Truncated); }
    var total, results := AsSigned(ReadLE(payload[..2]), 2), AsSigned(ReadLE(payload[2..4]), 2);
    if total < 0 || results < 0 { return Bad(Malformed); }
    if results > total { return Bad(Malformed); }
    var n := prefixLength as nat;
    var size := n + 5;
    if 4 + results * size != |payload| { return Bad(Malformed); }
    var entries := DecodeEntries(payload, n, results);
    r := Good(Page(total, results, entries));
  }

  method DecodeEntries(payload: bytes, n: nat, count: nat) returns (entries: seq<Entry>)
    requires |payload| >= 4 && |payload[4..]| == (n + 5) * count
    ensures entries == ReadEntries(n, payload[4..], count)
  {
    hide ReadEntries, ReadEntry;
    var size, cursor := n + 5, 4;
    entries := [];
    for i := 0 to count
      invariant 4 <= cursor <= |payload| && |payload[cursor..]| == (n + 5) * (count - i)
      invariant ReadEntries(n, payload[4..], count) == entries + ReadEntries(n, payload[cursor..], count - i)
    {
      ghost var rest := payload[cursor..];
      EntryStep(n, rest, count - i);
      assert rest[..size] == payload[cursor..cursor + size] && rest[size..] == payload[cursor + size..];
      var entry := NextEntry(payload, cursor, n);
      entries, cursor := entries + [entry], cursor + size;
    }
    assert |ReadEntries(n, payload[cursor..], 0)| == 0;
  }

  method NextEntry(payload: bytes, cursor: nat, n: nat) returns (e: Entry)
    requires cursor + n + 5 <= |payload|
    ensures e == ReadEntry(n, payload[cursor..cursor + n + 5])
  {
    hide ReadBE, ReadLE;
    var prefixEnd := cursor + n;
    var secs := payload[prefixEnd] as nat + 256 * payload[prefixEnd + 1] as nat
    + 65536 * payload[prefixEnd + 2] as nat + 16777216 * payload[prefixEnd + 3] as nat;
    var snr := payload[prefixEnd + 4] as int;
    ghost var b := payload[cursor..cursor + n + 5];
    assert b[n..n + 4] == payload[prefixEnd..prefixEnd + 4] && b[n + 4..] == [payload[prefixEnd + 4]];
    ReadLE4(b[n..n + 4]);
    ReadBEUnrolled(b[n + 4..]);
    Powers();
    assert b[..n] == payload[cursor..prefixEnd];
    e := Entry(payload[cursor..prefixEnd], secs, if snr >= 0x80 then snr - 0x100 else snr);
  }
}
