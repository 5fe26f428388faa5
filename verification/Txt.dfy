/** The packed TXT record codec: length-prefixed `key[=value]` entries, as in
    sections 6.1 and 6.4 of RFC 6763. Keys are kept as the bytes on the wire;
    decoding them to text is a parameter of the lookup. */
module Txt {
  import opened Seqs

  newtype byte = x: int | 0 <= x < 256
  type bytes = seq<byte>

  const EQUALS: byte := 61

  datatype TxtRecord = TxtRecord(key: bytes, value: Option<bytes>)

  // ---- One entry ----

  function ParseEntry(entry: bytes): TxtRecord {
    match Position(entry, EQUALS)
    case Some(pos) => TxtRecord(entry[..pos], Some(entry[pos + 1..]))
    case None => TxtRecord(entry, None)
  }

  function Print(r: TxtRecord): bytes {
    match r.value
    case Some(v) => r.key + [EQUALS] + v
    case None => r.key
  }

  /** `entry` is `key`, or `key=value`, with the first `=` doing the separating. */
  ghost predicate Splits(entry: bytes, key: bytes, value: Option<bytes>) {
    && '=' as int as byte !in key
    && entry == match value case Some(v) => key + ['=' as int as byte] + v case None => key
  }

  lemma {:induction false} ParseEntrySplits(entry: bytes, key: bytes, value: Option<bytes>)
    ensures ParseEntry(entry) == TxtRecord(key, value) <==> Splits(entry, key, value)
  {
    var pos := Position(entry, EQUALS);
    if pos.Some? {
      assert entry == entry[..pos.value] + [EQUALS] + entry[pos.value + 1..];
    }
    if Splits(entry, key, value) && value.Some? {
      assert entry[|key|] == EQUALS;
      assert forall i :: 0 <= i < |key| ==> entry[i] == key[i];
      assert entry[|key| + 1..] == value.value;
    }
  }

  lemma {:induction false} PrintParsed(entry: bytes)
    ensures Print(ParseEntry(entry)) == entry && EQUALS !in ParseEntry(entry).key
  {
    ParseEntrySplits(entry, ParseEntry(entry).key, ParseEntry(entry).value);
  }

  lemma {:induction false} ParsePrinted(r: TxtRecord)
    ensures ParseEntry(Print(r)) == r <==> EQUALS !in r.key
  {
    ParseEntrySplits(Print(r), r.key, r.value);
  }

  // ---- The packed buffer ----

  /** At most the first 255 bytes. */
  function Clip(entry: bytes): (r: bytes)
    ensures r <= entry && |r| == if |entry| <= 255 then |entry| else 255
  {
    if |entry| > 255 then entry[..255] else entry
  }

  function Frame(entry: bytes): bytes {
    [|Clip(entry)| as byte] + Clip(entry)
  }

  function Encode(entries: seq<bytes>): bytes {
    if entries == [] then [] else Frame(entries[0]) + Encode(entries[1..])
  }

  /** An entry yields one record, unless it is empty. */
  function Yield(entry: bytes): seq<TxtRecord> {
    if entry == [] then [] else [ParseEntry(entry)]
  }

  /** What a well-framed buffer must decode to: its non-empty entries. */
  function Expected(entries: seq<bytes>): seq<TxtRecord> {
    if entries == [] then [] else Yield(Clip(entries[0])) + Expected(entries[1..])
  }

  /** A tail with no complete entry: nothing, or a prefix that promises too much. */
  predicate Truncated(tail: bytes) {
    tail == [] || 1 + tail[0] as int > |tail|
  }

  /** The length of the first complete entry with its prefix. */
  function Span(buf: bytes): (r: nat)
    requires !Truncated(buf)
    ensures 1 <= r <= |buf|
  {
    1 + buf[0] as int
  }

  function Parse(buf: bytes): seq<TxtRecord> {
    if Truncated(buf) then []
    else Yield(buf[1..Span(buf)]) + Parse(buf[Span(buf)..])
  }

  /** The wire format, both ways: a length byte, then that many bytes; a length that
      reaches beyond the end ends the decoding, and a zero length yields nothing. */
  lemma {:induction false} WireFormat(entry: bytes, rest: bytes)
    requires |entry| <= 255
    ensures Encode([entry]) == [|entry| as byte] + entry
    ensures Parse([|entry| as byte] + entry + rest) == (if entry == [] then [] else [ParseEntry(entry)]) + Parse(rest)
    ensures Parse([]) == []
    ensures forall n: byte :: n as int > |rest| ==> Parse([n] + rest) == []
  {
    assert Clip(entry) == entry;
    ParseFrame(entry, rest);
    EncodeCons(entry, []);
    assert [entry] + [] == [entry];
    assert Frame(entry) + [] == Frame(entry);
  }

  method ParseTxtBuffer(buf: bytes) returns (records: seq<TxtRecord>)
    ensures records == Parse(buf)
  {
    hide Parse;
    records := [];
    var i := 0;
    assert buf[0..] == buf;
    while i < |buf|
      invariant 0 <= i <= |buf|
      invariant records + Parse(buf[i..]) == Parse(buf)
    {
      var len := buf[i] as int;
      ParseAt(records, buf, i, len);
      i := i + 1;
      if i + len > |buf| {
        break;
      }
      if len > 0 {
        records := records + [ParseEntry(buf[i..i + len])];
      }
      i := i + len;
    }
    ParseNone(buf);
  }

  /** One turn of the decoding loop, `done` being the records so far. */
  lemma {:induction false} ParseAt(done: seq<TxtRecord>, buf: bytes, i: nat, len: nat)
    requires i < |buf| && len == buf[i] as int
    ensures i + 1 + len > |buf| ==> done + Parse(buf[i..]) == done
    ensures i + 1 + len <= |buf| ==>
              (if len > 0 then done + [ParseEntry(buf[i + 1..i + 1 + len])] else done) + Parse(buf[i + 1 + len..])
              == done + Parse(buf[i..])
  {
    if i + 1 + len > |buf| {
      assert Parse(buf[i..]) == [];
    } else {
      ParseHere(buf, i, len);
      Regroup(done, Yield(buf[i + 1..i + 1 + len]), Parse(buf[i + 1 + len..]));
    }
  }

  lemma {:induction false} ParseHere(buf: bytes, i: nat, len: nat)
    requires i < |buf| && len == buf[i] as int && i + 1 + len <= |buf|
    ensures Parse(buf[i..]) == Yield(buf[i + 1..i + 1 + len]) + Parse(buf[i + 1 + len..])
  {
    var here := buf[i..];
    assert here[1..Span(here)] == buf[i + 1..i + 1 + len];
    assert here[Span(here)..] == buf[i + 1 + len..];
  }

  lemma {:induction false} ParseNone(buf: bytes)
    ensures Parse(buf[|buf|..]) == []
  {
  }

  method EncodeEntries(entries: seq<bytes>) returns (buf: bytes, expected: seq<TxtRecord>)
    ensures buf == Encode(entries) && expected == Expected(entries)
    ensures Parse(buf) == expected
  {
    hide Encode, Expected, ParseEntry;
    buf, expected := [], [];
    EncodeNone();
    assert entries[..0] == [];
    for i := 0 to |entries|
      invariant buf == Encode(entries[..i]) && expected == Expected(entries[..i])
    {
      EncodeAt(entries, i);
      var entry := Clip(entries[i]);
      buf := buf + [|entry| as byte];
      buf := buf + entry;
      if entry != [] {
        expected := expected + [ParseEntry(entry)];
      }
    }
    assert entries[..|entries|] == entries;
    RoundTrip(entries);
  }

  lemma {:induction false} EncodeNone()
    ensures Encode([]) == [] && Expected([]) == []
  {
  }

  /** One turn of the encoding loop. */
  lemma {:induction false} EncodeAt(entries: seq<bytes>, i: nat)
    requires i < |entries|
    ensures Encode(entries[..i + 1]) == Encode(entries[..i]) + [|Clip(entries[i])| as byte] + Clip(entries[i])
    ensures Expected(entries[..i + 1]) == Expected(entries[..i]) + Yield(Clip(entries[i]))
  {
    assert entries[..i + 1] == entries[..i] + [entries[i]];
    EncodeSnoc(entries[..i], entries[i]);
  }

  lemma {:induction false} EncodeSnoc(entries: seq<bytes>, entry: bytes)
    ensures Encode(entries + [entry]) == Encode(entries) + [|Clip(entry)| as byte] + Clip(entry)
    ensures Expected(entries + [entry]) == Expected(entries) + Yield(Clip(entry))
  {
    if entries != [] {
      assert (entries + [entry])[1..] == entries[1..] + [entry];
      EncodeSnoc(entries[1..], entry);
    }
  }

  // ---- Framing is unambiguous ----

  /** The complete entries of a buffer, the empty ones included. */
  function Entries(buf: bytes): seq<bytes> {
    if Truncated(buf) then []
    else
      [buf[1..Span(buf)]] + Entries(buf[Span(buf)..])
  }

  /** What follows the last complete entry. */
  function Tail(buf: bytes): (r: bytes)
    ensures Truncated(r)
  {
    if Truncated(buf) then buf else Tail(buf[Span(buf)..])
  }

  function CountEmpty(entries: seq<bytes>): nat {
    if entries == [] then 0 else (if entries[0] == [] then 1 else 0) + CountEmpty(entries[1..])
  }

  ghost predicate Fits(entries: seq<bytes>) {
    forall i :: 0 <= i < |entries| ==> |entries[i]| <= 255
  }

  /** Every buffer is some entries and a truncated tail, and decodes to exactly
      the records of those entries. */
  lemma {:induction false} Framing(buf: bytes)
    ensures Fits(Entries(buf))
    ensures buf == Encode(Entries(buf)) + Tail(buf)
    ensures Parse(buf) == Expected(Entries(buf))
  {
    hide Encode, Expected;
    if Truncated(buf) {
      EncodeNone();
    } else {
      var entry, rest := buf[1..Span(buf)], buf[Span(buf)..];
      Framing(rest);
      FirstFrame(buf);
      EncodeCons(entry, Entries(rest));
      Regroup(Frame(entry), Encode(Entries(rest)), Tail(rest));
    }
  }

  lemma {:induction false} FirstFrame(buf: bytes)
    requires !Truncated(buf)
    ensures buf == Frame(buf[1..Span(buf)]) + buf[Span(buf)..] && Clip(buf[1..Span(buf)]) == buf[1..Span(buf)]
  {
  }

  lemma {:induction false} EncodeCons(entry: bytes, entries: seq<bytes>)
    ensures Encode([entry] + entries) == Frame(entry) + Encode(entries)
    ensures Expected([entry] + entries) == Yield(Clip(entry)) + Expected(entries)
    ensures CountEmpty([entry] + entries) == (if entry == [] then 1 else 0) + CountEmpty(entries)
  {
    assert ([entry] + entries)[1..] == entries;
  }

  lemma {:induction false} EntriesFrame(entry: bytes, rest: bytes)
    ensures Entries(Frame(entry) + rest) == [Clip(entry)] + Entries(rest) && Tail(Frame(entry) + rest) == Tail(rest)
  {
    FrameThen(entry, rest);
  }

  /** ... and there is only one way to cut it so. */
  lemma {:induction false} FramingUnique(entries: seq<bytes>, tail: bytes)
    requires Fits(entries) && Truncated(tail)
    ensures Entries(Encode(entries) + tail) == entries && Tail(Encode(entries) + tail) == tail
  {
    if entries == [] {
      assert Encode(entries) + tail == tail;
    } else {
      var first, rest := entries[0], entries[1..];
      Regroup(Frame(first), Encode(rest), tail);
      EntriesFrame(first, Encode(rest) + tail);
      FramingUnique(rest, tail);
      assert entries == [first] + rest;
    }
  }

  lemma {:induction false} FrameThen(entry: bytes, rest: bytes)
    ensures var buf := Frame(entry) + rest;
            !Truncated(buf) && buf[1..Span(buf)] == Clip(entry) && buf[Span(buf)..] == rest
  {
  }

  // ---- Round trip and composition ----

  lemma {:induction false} ParseFrame(entry: bytes, rest: bytes)
    ensures Parse(Frame(entry) + rest) == Yield(Clip(entry)) + Parse(rest)
  {
    FrameThen(entry, rest);
  }

  /** Whatever follows complete entries is decoded as if it stood alone. */
  lemma {:induction false} ParseConcat(entries: seq<bytes>, tail: bytes)
    ensures Parse(Encode(entries) + tail) == Expected(entries) + Parse(tail)
  {
    if entries == [] {
      assert Encode(entries) + tail == tail;
    } else {
      var first, rest := entries[0], entries[1..];
      Regroup(Frame(first), Encode(rest), tail);
      ParseFrame(first, Encode(rest) + tail);
      ParseConcat(rest, tail);
      Regroup(Yield(Clip(first)), Expected(rest), Parse(tail));
    }
  }

  lemma {:induction false} RoundTrip(entries: seq<bytes>)
    ensures Parse(Encode(entries)) == Expected(entries)
  {
    ParseConcat(entries, []);
    assert Encode(entries) + [] == Encode(entries);
  }

  lemma {:induction false} Compositional(entries: seq<bytes>, tail: bytes)
    ensures Parse(Encode(entries) + tail) == Parse(Encode(entries)) + Parse(tail)
  {
    ParseConcat(entries, tail);
    RoundTrip(entries);
  }

  // ---- Canonical form ----

  function PrintAll(records: seq<TxtRecord>): (r: seq<bytes>)
    ensures |r| == |records| && forall i :: 0 <= i < |r| ==> r[i] == Print(records[i])
  {
    if records == [] then [] else [Print(records[0])] + PrintAll(records[1..])
  }

  function Canonical(buf: bytes): bytes {
    Encode(PrintAll(Parse(buf)))
  }

  /** A record some buffer can carry. */
  ghost predicate Carriable(r: TxtRecord) {
    EQUALS !in r.key && 1 <= |Print(r)| <= 255
  }

  lemma {:induction false} ParsedIsCarriable(buf: bytes)
    ensures forall i :: 0 <= i < |Parse(buf)| ==> Carriable(Parse(buf)[i])
  {
    if !Truncated(buf) {
      var next := Span(buf);
      PrintParsed(buf[1..next]);
      ParsedIsCarriable(buf[next..]);
    }
  }

  lemma {:induction false} YieldPrinted(r: TxtRecord)
    requires Carriable(r)
    ensures Yield(Clip(Print(r))) == [r]
  {
    ParsePrinted(r);
  }

  lemma {:induction false} ExpectedOfPrinted(records: seq<TxtRecord>)
    requires forall i :: 0 <= i < |records| ==> Carriable(records[i])
    ensures Expected(PrintAll(records)) == records
  {
    if records != [] {
      var first, rest := records[0], records[1..];
      YieldPrinted(first);
      ExpectedOfPrinted(rest);
      var printed := PrintAll(records);
      assert printed[0] == Print(first) && printed[1..] == PrintAll(rest);
      assert records == [first] + rest;
    }
  }

  /** Exactly the lists of carriable records are ever decoded. */
  lemma {:induction false} DecodableIffCarriable(records: seq<TxtRecord>)
    ensures (exists buf :: Parse(buf) == records) <==> forall i :: 0 <= i < |records| ==> Carriable(records[i])
  {
    if forall i :: 0 <= i < |records| ==> Carriable(records[i]) {
      ExpectedOfPrinted(records);
      RoundTrip(PrintAll(records));
    }
    forall buf | Parse(buf) == records
      ensures forall i :: 0 <= i < |records| ==> Carriable(records[i])
    {
      ParsedIsCarriable(buf);
    }
  }

  /** Re-encoding decodes to the same records and drops nothing but zero-length
      entries and the truncated tail, byte for byte. */
  lemma {:induction false} CanonicalForm(buf: bytes)
    ensures Parse(Canonical(buf)) == Parse(buf)
    ensures |Canonical(buf)| + CountEmpty(Entries(buf)) + |Tail(buf)| == |buf|
    ensures Canonical(buf) == buf <==> CountEmpty(Entries(buf)) == 0 && Tail(buf) == []
  {
    ParsedIsCarriable(buf);
    ExpectedOfPrinted(Parse(buf));
    RoundTrip(PrintAll(Parse(buf)));
    Accounting(buf);
  }

  lemma {:induction false} Accounting(buf: bytes)
    ensures |Canonical(buf)| + CountEmpty(Entries(buf)) + |Tail(buf)| == |buf|
    ensures CountEmpty(Entries(buf)) == 0 && Tail(buf) == [] ==> Canonical(buf) == buf
  {
    hide Canonical, Entries, CountEmpty, Tail;
    if Truncated(buf) {
      NothingComplete(buf);
    } else {
      Accounting(buf[Span(buf)..]);
      AccountFor(buf);
    }
  }

  lemma {:induction false} NothingComplete(buf: bytes)
    requires Truncated(buf)
    ensures Canonical(buf) == [] && CountEmpty(Entries(buf)) == 0 && Tail(buf) == buf
  {
  }

  /** What the first complete entry adds. */
  lemma {:induction false} AccountFor(buf: bytes)
    requires !Truncated(buf)
    ensures var entry, rest := buf[1..Span(buf)], buf[Span(buf)..];
            && buf == Frame(entry) + rest && Tail(buf) == Tail(rest)
            && Canonical(buf) == (if entry == [] then [] else Frame(entry)) + Canonical(rest)
            && CountEmpty(Entries(buf)) == (if entry == [] then 1 else 0) + CountEmpty(Entries(rest))
  {
    hide Encode, PrintAll, CountEmpty;
    var entry, rest := buf[1..Span(buf)], buf[Span(buf)..];
    FirstFrame(buf);
    PrintedYield(entry, Parse(rest));
    EncodeCons(entry, Entries(rest));
  }

  lemma {:induction false} PrintedYield(entry: bytes, records: seq<TxtRecord>)
    ensures Encode(PrintAll(Yield(entry) + records))
         == (if entry == [] then [] else Frame(entry)) + Encode(PrintAll(records))
  {
    if entry == [] {
      assert Yield(entry) + records == records;
    } else {
      PrintParsed(entry);
      assert (Yield(entry) + records)[1..] == records;
      assert PrintAll(Yield(entry) + records) == [entry] + PrintAll(records);
      assert ([entry] + PrintAll(records))[1..] == PrintAll(records);
    }
  }

  // ---- Truncation and size limits ----

  lemma {:induction false} TruncationMonotone(buf: bytes, n: nat)
    requires n <= |buf|
    ensures Parse(buf[..n]) <= Parse(buf)
  {
    var cut := buf[..n];
    if !Truncated(cut) {
      var next := Span(buf);
      var rest := buf[next..];
      TruncationMonotone(rest, n - next);
      assert cut[1..next] == buf[1..next] && cut[next..] == rest[..n - next];
      assert Parse(cut) == Yield(buf[1..next]) + Parse(rest[..n - next]);
    }
  }

  lemma {:induction false} SizeLimits(buf: bytes)
    ensures |Parse(buf)| <= |buf| / 2
    ensures forall r :: r in Parse(buf) && r.value.Some? ==> |r.value.value| <= 254
  {
    ParsedIsCarriable(buf);
    CanonicalForm(buf);
    EncodedSize(PrintAll(Parse(buf)));
    assert forall r :: r in Parse(buf) && r.value.Some? ==> |Print(r)| == |r.key| + 1 + |r.value.value|;
  }

  lemma {:induction false} EncodedSize(entries: seq<bytes>)
    requires forall i :: 0 <= i < |entries| ==> entries[i] != []
    ensures |Encode(entries)| >= 2 * |entries|
  {
    if entries != [] {
      EncodedSize(entries[1..]);
    }
  }

  // ---- DiscoveredService::txt ----

  /** The value of the first record whose decoded key is `key`. */
  function Lookup(lossy: bytes -> string, records: seq<TxtRecord>, key: string): Option<bytes> {
    if records == [] then None
    else if lossy(records[0].key) == key then records[0].value
    else Lookup(lossy, records[1..], key)
  }

  /** A non-empty wire entry carrying `key`. */
  ghost predicate Carries(lossy: bytes -> string, entry: bytes, key: string) {
    Clip(entry) != [] && exists k, v :: Splits(Clip(entry), k, v) && lossy(k) == key
  }

  /** Lookup agrees with the wire: the first entry carrying the key decides, even
      when it is key-only and a later entry has a value; no entry, no value. */
  lemma {:induction false} LookupAgreesWithWire(lossy: bytes -> string, entries: seq<bytes>, key: string, i: nat)
    requires i <= |entries|
    requires forall j :: 0 <= j < i ==> !Carries(lossy, entries[j], key)
    ensures i == |entries| ==> Lookup(lossy, Parse(Encode(entries)), key) == None
    ensures i < |entries| && Carries(lossy, entries[i], key) ==>
              exists k :: lossy(k) == key && Splits(Clip(entries[i]), k, Lookup(lossy, Parse(Encode(entries)), key))
  {
    RoundTrip(entries);
    if i == 0 {
      if entries != [] && Carries(lossy, entries[0], key) {
        var clipped := Clip(entries[0]);
        var k, v :| Splits(clipped, k, v) && lossy(k) == key;
        ParseEntrySplits(clipped, k, v);
        assert Expected(entries)[0] == TxtRecord(k, v);
      }
    } else {
      RoundTrip(entries[1..]);
      LookupAgreesWithWire(lossy, entries[1..], key, i - 1);
      LookupSkips(lossy, Clip(entries[0]), Expected(entries[1..]), key);
    }
  }

  lemma {:induction false} LookupSkips(lossy: bytes -> string, entry: bytes, records: seq<TxtRecord>, key: string)
    requires |entry| <= 255 && !Carries(lossy, entry, key)
    ensures Lookup(lossy, Yield(entry) + records, key) == Lookup(lossy, records, key)
  {
    if entry == [] {
      assert Yield(entry) + records == records;
    } else {
      var r := ParseEntry(entry);
      ParseEntrySplits(entry, r.key, r.value);
      assert Clip(entry) == entry && Splits(Clip(entry), r.key, r.value);
      assert lossy(r.key) != key;
      assert (Yield(entry) + records)[0] == r && (Yield(entry) + records)[1..] == records;
    }
  }
}
