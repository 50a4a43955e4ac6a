/** The mailbox record format of internal/bus/record.go: the encoder, the torn-tail tolerant
    parser, and the functions they are proved against. */
module Codec {
  import opened Text

  /** A timestamp is represented by its canonical UTC text. */
  datatype Record = Record(
    seqNo: int,
    id: int,
    from: string,
    fromRole: string,
    to: string,
    kind: string,
    inReplyTo: Option<int>,
    ts: string,
    dedup: Option<string>,
    body: Bytes)

  datatype ParseError =
    | BadHeaderLine
    | MissingField(name: string)
    | BadSeq
    | BadId
    | BadLen
    | MissingBlankLine
    | BadTimestamp
    | BadInReplyTo

  datatype Outcome<+T> = Good(value: T) | Bad(error: ParseError)

  /** The result of parsing one record; next counts the bytes the record occupies. */
  datatype Parsed = Complete(rec: Record, next: nat) | Incomplete | Malformed(error: ParseError)

  datatype ParseResult =
    | Parses(records: seq<Record>, consumed: nat, tailComplete: bool)
    | Fails(error: ParseError)

  // ---- Timestamps ----

  /** The shape YYYY-MM-DDThh:mm:ssZ (the UTC date-time of section 5.6 of RFC 3339). */
  predicate IsTimestamp(s: string) {
    && |s| == 20
    && s[4] == '-' && s[7] == '-' && s[10] == 'T' && s[13] == ':' && s[16] == ':' && s[19] == 'Z'
    && (forall i :: 0 <= i < 19 && i != 4 && i != 7 && i != 10 && i != 13 && i != 16 ==> IsDigit(s[i]))
  }

  lemma TimestampIsOneLine(s: string)
    requires IsTimestamp(s)
    ensures OneLine(s)
  {
    forall i | 0 <= i < |s| ensures s[i] != '\n' {
      assert i < 19 && i != 4 && i != 7 && i != 10 && i != 13 && i != 16 ==> IsDigit(s[i]);
    }
  }

  // ---- Header lines, shared with the registry log ----

  function Line(k: string, v: string): string {
    k + ": " + v
  }

  function LinesOf(pairs: seq<(string, string)>): seq<string> {
    seq(|pairs|, i requires 0 <= i < |pairs| => Line(pairs[i].0, pairs[i].1))
  }

  /** Header lines as bytes: every line is closed by a newline. */
  function Render(pairs: seq<(string, string)>): Bytes {
    if pairs == [] then "" else Line(pairs[0].0, pairs[0].1) + "\n" + Render(pairs[1..])
  }

  lemma RenderNothing()
    ensures Render([]) == ""
  {
  }

  lemma {:induction false} RenderAppend(pairs: seq<(string, string)>, k: string, v: string)
    ensures Render(pairs + [(k, v)]) == Render(pairs) + Line(k, v) + "\n"
  {
    var all := pairs + [(k, v)];
    if pairs == [] {
      assert all[1..] == [];
    } else {
      assert all[1..] == pairs[1..] + [(k, v)];
      RenderAppend(pairs[1..], k, v);
    }
  }

  /** Collects the key/value lines, later lines overriding earlier ones; None on a line that is
      not a key, ": " and a value. */
  function FieldMap(lines: seq<string>, acc: map<string, string>): Option<map<string, string>> {
    if lines == [] then Some(acc)
    else
      match Cut(lines[0])
      case None => None
      case Some(kv) => if kv.0 == "" then None else FieldMap(lines[1..], acc[kv.0 := kv.1])
  }

  /** The lines before the first empty one. */
  function UntilBlank(lines: seq<string>): seq<string> {
    if lines == [] || lines[0] == "" then [] else [lines[0]] + UntilBlank(lines[1..])
  }

  // ---- Encoding ----

  const RECORD_FIELDS: seq<string> :=
    ["seq", "id", "from", "from_role", "to", "kind", "in_reply_to", "ts", "dedup_id", "len"]

  function ReplyText(r: Option<int>): string {
    match r
    case None => "-"
    case Some(n) => Itoa(n)
  }

  function DedupText(d: Option<string>): string {
    if d.Some? && d.value != "" then d.value else "-"
  }

  function HeaderPairs(r: Record): (ps: seq<(string, string)>)
    ensures |ps| == |RECORD_FIELDS|
    ensures forall i :: 0 <= i < |ps| ==> ps[i].0 == RECORD_FIELDS[i]
  {
    [("seq", Itoa(r.seqNo)), ("id", Itoa(r.id)), ("from", r.from), ("from_role", r.fromRole), ("to", r.to),
     ("kind", r.kind), ("in_reply_to", ReplyText(r.inReplyTo)), ("ts", r.ts), ("dedup_id", DedupText(r.dedup)),
     ("len", Itoa(|r.body|))]
  }

  function Encoding(r: Record): Bytes {
    Render(HeaderPairs(r)) + "---\n" + r.body + "\n\n"
  }

  function EncodeAll(rs: seq<Record>): Bytes {
    if rs == [] then "" else Encoding(rs[0]) + EncodeAll(rs[1..])
  }

  method WriteLine(b: Bytes, ghost pairs: seq<(string, string)>, ghost k: nat, key: string, v: string)
    returns (out: Bytes)
    requires k < |pairs| && pairs[k] == (key, v) && b == Render(pairs[..k])
    ensures out == Render(pairs[..k + 1])
  {
    assert pairs[..k + 1] == pairs[..k] + [(key, v)];
    RenderAppend(pairs[..k], key, v);
    out := b + key + ": " + v + "\n";
    assert out == b + Line(key, v) + "\n";
  }

  method Encode(r: Record) returns (b: Bytes)
    ensures b == Encoding(r)
  {
    hide Itoa, Render;
    ghost var ps := HeaderPairs(r);
    RenderNothing();
    b := "";
    assert ps[..0] == [] && ps[..10] == ps;
    b := WriteLine(b, ps, 0, "seq", Itoa(r.seqNo));
    b := WriteLine(b, ps, 1, "id", Itoa(r.id));
    b := WriteLine(b, ps, 2, "from", r.from);
    b := WriteLine(b, ps, 3, "from_role", r.fromRole);
    b := WriteLine(b, ps, 4, "to", r.to);
    b := WriteLine(b, ps, 5, "kind", r.kind);
    if r.inReplyTo.Some? {
      b := WriteLine(b, ps, 6, "in_reply_to", Itoa(r.inReplyTo.value));
    } else {
      b := WriteLine(b, ps, 6, "in_reply_to", "-");
    }
    b := WriteLine(b, ps, 7, "ts", r.ts);
    if r.dedup.Some? && r.dedup.value != "" {
      b := WriteLine(b, ps, 8, "dedup_id", r.dedup.value);
    } else {
      b := WriteLine(b, ps, 8, "dedup_id", "-");
    }
    b := WriteLine(b, ps, 9, "len", Itoa(|r.body|));
    b := b + "---\n";
    b := b + r.body;
    b := b + "\n\n";
  }

  // ---- Parsing ----

  /** Length of the header lines before the first standalone "---" line, or before an unfinished
      line or the end of the data. */
  function HeaderLen(rest: Bytes): (n: nat)
    ensures n <= |rest|
    decreases |rest|
  {
    var e := Find(rest, '\n');
    if e == |rest| || rest[..e] == "---" then 0 else e + 1 + HeaderLen(rest[e + 1..])
  }

  predicate SeparatorAt(rest: Bytes, i: nat) {
    i + 4 <= |rest| && rest[i..i + 4] == "---\n"
  }

  /** The first required field the header lacks. */
  function FirstMissing(fields: map<string, string>, names: seq<string>): (name: Option<string>)
    ensures name.None? ==> forall n :: n in names ==> n in fields
  {
    if names == [] then None
    else if names[0] !in fields then Some(names[0])
    else FirstMissing(fields, names[1..])
  }

  predicate HasAllFields(fields: map<string, string>) {
    forall n :: n in RECORD_FIELDS ==> n in fields
  }

  datatype Header = Header(fields: map<string, string>, seqNo: int, id: int, length: nat)

  /** Everything parseOneRecord decides from the header lines alone. */
  function ParseHeader(header: Bytes): (h: Outcome<Header>)
    ensures h.Good? ==> HasAllFields(h.value.fields)
  {
    match FieldMap(UntilBlank(Split(header, '\n')), map[])
    case None => Bad(BadHeaderLine)
    case Some(fields) =>
      match FirstMissing(fields, RECORD_FIELDS)
      case Some(n) => Bad(MissingField(n))
      case None =>
        assert forall i :: 0 <= i < |RECORD_FIELDS| ==> RECORD_FIELDS[i] in fields;
        assert RECORD_FIELDS[0] in fields && RECORD_FIELDS[1] in fields && RECORD_FIELDS[9] in fields;
        match Atoi(fields["seq"])
        case None => Bad(BadSeq)
        case Some(s) =>
          match Atoi(fields["id"])
          case None => Bad(BadId)
          case Some(i) =>
            match Atoi(fields["len"])
            case None => Bad(BadLen)
            case Some(n) => if n < 0 then Bad(BadLen) else Good(Header(fields, s, i, n))
  }

  /** The record a complete header and its body bytes denote. */
  function BuildRecord(h: Header, body: Bytes): Outcome<Record>
    requires HasAllFields(h.fields)
  {
    var f := h.fields;
    assert forall i :: 0 <= i < |RECORD_FIELDS| ==> RECORD_FIELDS[i] in f;
    assert RECORD_FIELDS[2] in f && RECORD_FIELDS[3] in f && RECORD_FIELDS[4] in f && RECORD_FIELDS[5] in f;
    assert RECORD_FIELDS[6] in f && RECORD_FIELDS[7] in f && RECORD_FIELDS[8] in f;
    var dedup := if f["dedup_id"] != "-" then Some(f["dedup_id"]) else None;
    if !IsTimestamp(f["ts"]) then Bad(BadTimestamp)
    else if f["in_reply_to"] == "-" then
      Good(Record(h.seqNo, h.id, f["from"], f["from_role"], f["to"], f["kind"], None, f["ts"], dedup, body))
    else
      match Atoi(f["in_reply_to"])
      case None => Bad(BadInReplyTo)
      case Some(n) =>
        Good(Record(h.seqNo, h.id, f["from"], f["from_role"], f["to"], f["kind"], Some(n), f["ts"], dedup, body))
  }

  /** parseOneRecord once the separator is known to stand at i. */
  function ParseFrom(rest: Bytes, i: nat): (p: Parsed)
    requires SeparatorAt(rest, i)
    ensures p.Complete? ==> i + 6 <= p.next <= |rest|
  {
    match ParseHeader(rest[..i])
    case Bad(e) => Malformed(e)
    case Good(h) =>
      var start := i + 4;
      var end := start + h.length;
      if end + 2 > |rest| then Incomplete
      else if rest[end..end + 2] != "\n\n" then Malformed(MissingBlankLine)
      else
        match BuildRecord(h, rest[start..end])
        case Bad(e) => Malformed(e)
        case Good(r) => Complete(r, end + 2)
  }

  /** parseOneRecord on the bytes from the record start onwards. */
  function ParseOne(rest: Bytes): (p: Parsed)
    ensures p.Complete? ==> 6 <= p.next <= |rest|
  {
    var i := HeaderLen(rest);
    if SeparatorAt(rest, i) then ParseFrom(rest, i) else Incomplete
  }

  /** ParseRecords on data. */
  function ParseAll(data: Bytes): (r: ParseResult)
    ensures r.Parses? ==> r.consumed <= |data| && (r.tailComplete <==> r.consumed == |data|)
    decreases |data|
  {
    if data == "" then Parses([], 0, true)
    else
      match ParseOne(data)
      case Malformed(e) => Fails(e)
      case Incomplete => Parses([], 0, false)
      case Complete(rec, n) =>
        match ParseAll(data[n..])
        case Fails(e) => Fails(e)
        case Parses(rs, c, t) => Parses([rec] + rs, n + c, t)
  }

  // ---- The parser's loops ----

  /** One turn of the header scan, on the data that is left. */
  lemma HeaderStep(rest: Bytes, i: nat, e: nat)
    requires i <= |rest| && e == Find(rest[i..], '\n')
    ensures e == |rest[i..]| || rest[i..i + e] == "---" ==> HeaderLen(rest[i..]) == 0
    ensures e < |rest[i..]| && rest[i..i + e] != "---" ==> HeaderLen(rest[i..]) == e + 1 + HeaderLen(rest[i + e + 1..])
  {
    assert rest[i..][..e] == rest[i..i + e];
    if e < |rest[i..]| {
      assert rest[i..][e + 1..] == rest[i + e + 1..];
    }
  }

  /** Locates the header end: the index loop of parseOneRecord. */
  method ScanHeader(rest: Bytes) returns (i: nat)
    ensures i == HeaderLen(rest)
  {
    hide HeaderLen;
    HeaderStep(rest, |rest|, 0);
    i := 0;
    assert rest[0..] == rest;
    while i < |rest|
      invariant i <= |rest|
      invariant HeaderLen(rest) == i + HeaderLen(rest[i..])
    {
      var lineEnd := Find(rest[i..], '\n');
      HeaderStep(rest, i, lineEnd);
      if lineEnd == |rest[i..]| || rest[i..i + lineEnd] == "---" {
        return;
      }
      i := i + lineEnd + 1;
    }
  }

  /** Collects the header fields line by line, stopping at the first empty line. */
  method ReadFields(lines: seq<string>) returns (fields: Option<map<string, string>>)
    ensures fields == FieldMap(UntilBlank(lines), map[])
  {
    var acc: map<string, string> := map[];
    var i := 0;
    while i < |lines|
      invariant i <= |lines|
      invariant FieldMap(UntilBlank(lines), map[]) == FieldMap(UntilBlank(lines[i..]), acc)
    {
      if lines[i] == "" {
        break;
      }
      assert UntilBlank(lines[i..]) == [lines[i]] + UntilBlank(lines[i + 1..]);
      var kv := Cut(lines[i]);
      if kv.None? || kv.value.0 == "" {
        return None;
      }
      acc := acc[kv.value.0 := kv.value.1];
      i := i + 1;
    }
    fields := Some(acc);
  }

  method FindMissing(fields: map<string, string>) returns (name: Option<string>)
    ensures name == FirstMissing(fields, RECORD_FIELDS)
  {
    for i := 0 to |RECORD_FIELDS|
      invariant FirstMissing(fields, RECORD_FIELDS) == FirstMissing(fields, RECORD_FIELDS[i..])
    {
      if RECORD_FIELDS[i] !in fields {
        return Some(RECORD_FIELDS[i]);
      }
    }
    name := None;
  }

  /** Parses the single record starting at data[pos]; next is relative to pos. */
  method ParseOneRecord(data: Bytes, pos: nat) returns (p: Parsed)
    requires pos <= |data|
    ensures p == ParseOne(data[pos..])
  {
    hide HeaderLen, FieldMap, UntilBlank, Split, FirstMissing, BuildRecord, Atoi;
    var rest := data[pos..];
    var i := ScanHeader(rest);
    if i + 4 > |rest| || rest[i..i + 4] != "---\n" {
      return Incomplete;
    }
    var fields := ReadFields(Split(rest[..i], '\n'));
    if fields.None? {
      return Malformed(BadHeaderLine);
    }
    var missing := FindMissing(fields.value);
    if missing.Some? {
      return Malformed(MissingField(missing.value));
    }
    var h := ParseHeader(rest[..i]);
    if h.Bad? {
      return Malformed(h.error);
    }
    var bodyStart := i + 4;
    var bodyEnd := bodyStart + h.value.length;
    if bodyEnd + 2 > |rest| {
      return Incomplete;
    }
    if rest[bodyEnd..bodyEnd + 2] != "\n\n" {
      return Malformed(MissingBlankLine);
    }
    match BuildRecord(h.value, rest[bodyStart..bodyEnd])
    case Bad(e) => return Malformed(e);
    case Good(r) => return Complete(r, bodyEnd + 2);
  }

  /** What parsing the rest adds to the records already collected. */
  function Extend(records: seq<Record>, pos: nat, more: ParseResult): ParseResult {
    match more
    case Fails(e) => Fails(e)
    case Parses(rs, c, t) => Parses(records + rs, pos + c, t)
  }

  lemma ExtendStep(data: Bytes, pos: nat, records: seq<Record>, p: Parsed)
    requires pos <= |data| && p == ParseOne(data[pos..])
    ensures pos == |data| ==> Extend(records, pos, ParseAll(data[pos..])) == Parses(records, pos, true)
    ensures pos < |data| && p.Malformed? ==> Extend(records, pos, ParseAll(data[pos..])) == Fails(p.error)
    ensures pos < |data| && p.Incomplete? ==>
              Extend(records, pos, ParseAll(data[pos..])) == Parses(records, pos, false)
    ensures pos < |data| && p.Complete? ==>
              pos + p.next <= |data| &&
              Extend(records, pos, ParseAll(data[pos..]))
              == Extend(records + [p.rec], pos + p.next, ParseAll(data[pos + p.next..]))
  {
    hide ParseOne;
    if pos < |data| && p.Complete? {
      assert data[pos..][p.next..] == data[pos + p.next..];
      var more := ParseAll(data[pos + p.next..]);
      if more.Parses? {
        assert records + ([p.rec] + more.records) == (records + [p.rec]) + more.records;
      }
    }
  }

  /** Parses all complete records in file order; a torn trailing record is not an error. */
  method ParseRecords(data: Bytes) returns (result: ParseResult)
    ensures result == ParseAll(data)
  {
    hide ParseOne;
    hide ParseAll;
    var pos := 0;
    var records: seq<Record> := [];
    assert data[0..] == data;
    while pos < |data|
      invariant pos <= |data|
      invariant ParseAll(data) == Extend(records, pos, ParseAll(data[pos..]))
      decreases |data| - pos
    {
      var p := ParseOneRecord(data, pos);
      ExtendStep(data, pos, records, p);
      if p.Malformed? {
        return Fails(p.error);
      }
      if p.Incomplete? {
        return Parses(records, pos, false);
      }
      records := records + [p.rec];
      pos := pos + p.next;
    }
    ExtendStep(data, pos, records, ParseOne(data[pos..]));
    return Parses(records, pos, true);
  }
}
