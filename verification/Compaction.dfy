/** Moving a consumed log prefix to the cold archive (internal/bus/compact.go) and what survives
    the move: the records, their order, and every lookup by id. */
module Compaction {
  import opened Text
  import opened Codec
  import opened CodecLaws
  import opened Storage
  import opened StorageLaws

  /** Where the archived prefix ends and how many records it holds. */
  datatype CutPoint = CutAt(boundary: nat, archived: nat) | CutFails(error: ParseError)

  function CompactPoint(data: Bytes, upTo: int): (c: CutPoint)
    ensures c.CutAt? ==> c.boundary <= |data| && (c.boundary == 0 <==> c.archived == 0)
    decreases |data|
  {
    if data == "" then CutAt(0, 0)
    else
      match ParseOne(data)
      case Malformed(e) => CutFails(e)
      case Incomplete => CutAt(0, 0)
      case Complete(r, n) => if r.seqNo > upTo then CutAt(0, 0) else Shift(CompactPoint(data[n..], upTo), n, 1)
  }

  function Shift(c: CutPoint, n: nat, k: nat): CutPoint {
    match c
    case CutFails(e) => CutFails(e)
    case CutAt(b, m) => CutAt(n + b, k + m)
  }

  lemma CompactPointStep(data: Bytes, upTo: int, p: Parsed)
    requires p == ParseOne(data)
    ensures data == "" ==> CompactPoint(data, upTo) == CutAt(0, 0)
    ensures data != "" && p.Malformed? ==> CompactPoint(data, upTo) == CutFails(p.error)
    ensures data != "" && (p.Incomplete? || (p.Complete? && p.rec.seqNo > upTo)) ==>
              CompactPoint(data, upTo) == CutAt(0, 0)
    ensures data != "" && p.Complete? && p.rec.seqNo <= upTo ==>
              CompactPoint(data, upTo) == Shift(CompactPoint(data[p.next..], upTo), p.next, 1)
  {
    hide ParseOne;
  }

  /** The boundary loop of compactLocked. */
  method FindBoundary(data: Bytes, upTo: int) returns (c: CutPoint)
    ensures c == CompactPoint(data, upTo)
  {
    hide ParseOne, CompactPoint;
    var pos, boundary, archived := 0, 0, 0;
    assert data[0..] == data;
    while pos < |data|
      invariant pos == boundary <= |data|
      invariant CompactPoint(data, upTo) == Shift(CompactPoint(data[pos..], upTo), boundary, archived)
      decreases |data| - pos
    {
      var p := ParseOneRecord(data, pos);
      CompactPointStep(data[pos..], upTo, p);
      if p.Malformed? {
        return CutFails(p.error);
      }
      if p.Incomplete? || p.rec.seqNo > upTo {
        return CutAt(boundary, archived);
      }
      assert data[pos..][p.next..] == data[pos + p.next..];
      pos := pos + p.next;
      boundary := pos;
      archived := archived + 1;
    }
    CompactPointStep(data[pos..], upTo, ParseOne(data[pos..]));
    return CutAt(boundary, archived);
  }

  // ---- The cut separates records ----

  /** The prefix holds the leading records with seq <= upTo and nothing else, byte for byte; the
      suffix holds the others together with any torn tail. */
  ghost predicate CutsWell(data: Bytes, upTo: int, b: nat, k: nat) {
    && ParseAll(data).Parses?
    && b <= ParseAll(data).consumed && k <= |ParseAll(data).records|
    && var rs := ParseAll(data).records;
       && ParseAll(data[..b]) == Parses(rs[..k], b, true)
       && ParseAll(data[b..]) == Parses(rs[k..], ParseAll(data).consumed - b, ParseAll(data).tailComplete)
       && (forall i :: 0 <= i < k ==> rs[i].seqNo <= upTo)
       && (k < |rs| ==> rs[k].seqNo > upTo)
  }

  lemma {:induction false} CompactCuts(data: Bytes, upTo: int)
    requires Readable(data)
    ensures CompactPoint(data, upTo).CutAt?
    ensures CutsWell(data, upTo, CompactPoint(data, upTo).boundary, CompactPoint(data, upTo).archived)
    decreases |data|
  {
    hide ParseOne, ParseAll, CompactPoint;
    var p := ParseOne(data);
    CompactPointStep(data, upTo, p);
    ParseAllStep(data);
    if data != "" && p.Complete? && p.rec.seqNo <= upTo {
      var rest := data[p.next..];
      CompactCuts(rest, upTo);
      var c := CompactPoint(rest, upTo);
      CutStep(data, p.next, c.boundary);
      assert data[p.next + c.boundary..] == rest[c.boundary..];
      PrependCut(p.rec, ParseAll(rest).records, c.archived);
    } else {
      ParseAllStep(data[..0]);
      assert data[0..] == data;
    }
  }

  lemma PrependCut(r: Record, rs: seq<Record>, k: nat)
    requires k <= |rs|
    ensures ([r] + rs)[..1 + k] == [r] + rs[..k] && ([r] + rs)[1 + k..] == rs[k..]
    ensures forall i :: 0 <= i < k ==> ([r] + rs)[1 + i] == rs[i]
  {
  }

  ghost predicate Increasing(rs: seq<Record>) {
    forall i, j :: 0 <= i < j < |rs| ==> rs[i].seqNo < rs[j].seqNo
  }

  lemma PrefixIsExact(rs: seq<Record>, upTo: int, k: nat)
    requires Increasing(rs) && k <= |rs|
    requires forall i :: 0 <= i < k ==> rs[i].seqNo <= upTo
    requires k < |rs| ==> rs[k].seqNo > upTo
    ensures forall i :: 0 <= i < |rs| ==> (i < k <==> rs[i].seqNo <= upTo)
  {
    forall i | k <= i < |rs| ensures rs[i].seqNo > upTo {
      assert rs[k].seqNo <= rs[i].seqNo;
    }
  }

  /** Compacting again to the same bound archives nothing. */
  lemma CompactTwice(data: Bytes, upTo: int)
    requires Readable(data)
    ensures CompactPoint(data, upTo).CutAt?
    ensures CompactPoint(data[CompactPoint(data, upTo).boundary..], upTo) == CutAt(0, 0)
  {
    hide ParseOne, ParseAll, CompactPoint;
    CompactCuts(data, upTo);
    var c := CompactPoint(data, upTo);
    var rs := ParseAll(data).records;
    var rest := data[c.boundary..];
    assert c.archived < |rs| ==> rs[c.archived..][0] == rs[c.archived];
    CompactCuts(rest, upTo);
  }

  /** On a log in seq order the archived prefix is exactly the records with seq <= upTo. */
  lemma CompactIsExact(data: Bytes, upTo: int)
    requires Readable(data) && Increasing(RecordsIn(data))
    ensures CompactPoint(data, upTo).CutAt?
    ensures var c := CompactPoint(data, upTo);
            var rs := RecordsIn(data);
            && c.archived <= |rs|
            && RecordsIn(data[..c.boundary]) == rs[..c.archived]
            && RecordsIn(data[c.boundary..]) == rs[c.archived..]
            && (forall i :: 0 <= i < |rs| ==> (i < c.archived <==> rs[i].seqNo <= upTo))
  {
    hide ParseOne, ParseAll, CompactPoint;
    CompactCuts(data, upTo);
    PrefixIsExact(RecordsIn(data), upTo, CompactPoint(data, upTo).archived);
  }

  // ---- One mailbox under compactions, some interrupted ----

  datatype Pair = Pair(log: Bytes, archive: Bytes)

  /** An interrupted compaction dies after the archive append and before the log rewrite. */
  datatype CompactOp = Compact(upTo: int, interrupted: bool)

  function ApplyCompact(p: Pair, op: CompactOp): Pair {
    var c := CompactPoint(p.log, op.upTo);
    if c.CutFails? || c.boundary == 0 then p
    else Pair(if op.interrupted then p.log else p.log[c.boundary..], p.archive + p.log[..c.boundary])
  }

  function ApplyCompacts(p: Pair, ops: seq<CompactOp>): Pair
    decreases ops
  {
    if ops == [] then p else ApplyCompacts(ApplyCompact(p, ops[0]), ops[1..])
  }

  ghost predicate Holds(p: Pair, r: Record) {
    r in RecordsIn(p.log) || r in RecordsIn(p.archive)
  }

  ghost predicate ValidPair(p: Pair) {
    Readable(p.log) && Settled(p.archive)
  }

  /** The full history read archive first is the same before and after a completed compaction. */
  lemma CompactConserves(p: Pair, upTo: int)
    requires ValidPair(p)
    ensures var q := ApplyCompact(p, Compact(upTo, false));
            && ValidPair(q)
            && RecordsIn(q.archive) + RecordsIn(q.log) == RecordsIn(p.archive) + RecordsIn(p.log)
            && (Settled(q.log) <==> Settled(p.log))
  {
    hide ParseAll, CompactPoint;
    CompactCuts(p.log, upTo);
    var c := CompactPoint(p.log, upTo);
    var rs := RecordsIn(p.log);
    SettledConcat(p.archive, p.log[..c.boundary]);
    assert rs == rs[..c.archived] + rs[c.archived..];
    assert RecordsIn(p.archive) + rs
        == (RecordsIn(p.archive) + rs[..c.archived]) + rs[c.archived..];
  }

  /** Interrupted or not, no record is lost and none appears. */
  lemma CompactHolds(p: Pair, op: CompactOp)
    requires ValidPair(p)
    ensures ValidPair(ApplyCompact(p, op))
    ensures forall r :: Holds(ApplyCompact(p, op), r) <==> Holds(p, r)
  {
    hide ParseAll, CompactPoint;
    CompactCuts(p.log, op.upTo);
    var c := CompactPoint(p.log, op.upTo);
    var rs := RecordsIn(p.log);
    SettledConcat(p.archive, p.log[..c.boundary]);
    assert rs == rs[..c.archived] + rs[c.archived..];
  }

  lemma {:induction false} CompactsHold(p: Pair, ops: seq<CompactOp>)
    requires ValidPair(p)
    ensures ValidPair(ApplyCompacts(p, ops))
    ensures forall r :: Holds(ApplyCompacts(p, ops), r) <==> Holds(p, r)
    decreases ops
  {
    hide ApplyCompact, ValidPair, Holds;
    if ops != [] {
      CompactHolds(p, ops[0]);
      CompactsHold(ApplyCompact(p, ops[0]), ops[1..]);
    }
  }

  // ---- Lookup by id ----

  function FindId(rs: seq<Record>, id: int): Option<Record> {
    if rs == [] then None else if rs[0].id == id then Some(rs[0]) else FindId(rs[1..], id)
  }

  /** lookupRecordByID: the live log first, then the archive. */
  function Lookup(p: Pair, id: int): Option<Record> {
    var live := FindId(RecordsIn(p.log), id);
    if live.Some? then live else FindId(RecordsIn(p.archive), id)
  }

  method ScanForId(rs: seq<Record>, id: int) returns (r: Option<Record>)
    ensures r == FindId(rs, id)
    ensures match r
            case None => forall q :: q in rs ==> q.id != id
            case Some(q) => exists i :: 0 <= i < |rs| && rs[i] == q && q.id == id && forall j :: 0 <= j < i ==> rs[j].id != id
  {
    for i := 0 to |rs|
      invariant forall j :: 0 <= j < i ==> rs[j].id != id
      invariant FindId(rs, id) == FindId(rs[i..], id)
    {
      if rs[i].id == id {
        return Some(rs[i]);
      }
    }
    r := None;
  }

  lemma {:induction false} FindIdFinds(rs: seq<Record>, id: int)
    ensures match FindId(rs, id)
            case Some(r) => r in rs && r.id == id
            case None => forall r :: r in rs ==> r.id != id
  {
    if rs != [] {
      FindIdFinds(rs[1..], id);
      assert rs == [rs[0]] + rs[1..];
    }
  }

  ghost predicate UniqueIds(p: Pair) {
    forall r, q :: Holds(p, r) && Holds(p, q) && r.id == q.id ==> r == q
  }

  /** While ids are unique in a mailbox, no sequence of compactions, finished or interrupted and
      retried, changes the answer of a lookup. */
  lemma LookupSurvivesCompaction(p: Pair, ops: seq<CompactOp>, id: int)
    requires ValidPair(p) && UniqueIds(p)
    ensures Lookup(ApplyCompacts(p, ops), id) == Lookup(p, id)
  {
    hide ApplyCompacts, ValidPair;
    var q := ApplyCompacts(p, ops);
    CompactsHold(p, ops);
    FindIdFinds(RecordsIn(p.log), id);
    FindIdFinds(RecordsIn(p.archive), id);
    FindIdFinds(RecordsIn(q.log), id);
    FindIdFinds(RecordsIn(q.archive), id);
    hide FindId, RecordsIn;
    var x, y := Lookup(p, id), Lookup(q, id);
    assert x.Some? ==> Holds(p, x.value) && Holds(q, x.value);
    assert y.Some? ==> Holds(q, y.value) && Holds(p, y.value);
  }
}
