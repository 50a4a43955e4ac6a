/** The one header value that is taken from the caller as it comes: the dedup key. Exactly the keys
    without a newline leave every record readable as sent, up to the key "-", which the log cannot
    tell from no key; the index row of a "-" is gone at the next recovery. */
module CallerKeys {
  import opened Text
  import opened Codec
  import opened CodecLaws
  import opened Storage
  import opened Protocol
  import opened Runs
  import opened KeyedSends
  import opened KeyedBroadcast
  import opened Dedup
  import opened RegistryLog
  import opened RegistryLaws
  import opened Bus
  import opened BusLaws

  /** The record as the sender built it. */
  function SentRecord(job: Job, id: int, a: AgentId, seqNo: int): Record {
    RecordFor(job, id, a, seqNo).(dedup := job.key)
  }

  /** Every header value but the key is a single line; an empty key counts as none. */
  ghost predicate HeadersOk(job: Job) {
    JobOk(job.(key := None)) && job.key != Some("")
  }

  ghost predicate OneLineKey(job: Job) {
    job.key.Some? ==> OneLine(job.key.value)
  }

  // ---- What is appended, whatever the key ----

  lemma ServedBytes(d: Disk, job: Job, id: nat, a: AgentId)
    ensures FileOf(DeliverTo(d, job, id, a).logs, a) == FileOf(d.logs, a) + Encoding(Addressed(d, job, id, a))
  {
    hide Encoding, InsertOrReplace;
  }

  lemma {:induction false} BytesAppended(d: Disk, job: Job, id: nat, rs: seq<AgentId>, a: AgentId)
    requires a in rs && forall i, j :: 0 <= i < j < |rs| ==> rs[i] != rs[j]
    ensures FileOf(DeliverAll(d, job, id, rs).logs, a) == FileOf(d.logs, a) + Encoding(Addressed(d, job, id, a))
    decreases rs
  {
    hide DeliverTo, FileOf, Encoding, SeqOf, RecordFor;
    var d' := DeliverTo(d, job, id, rs[0]);
    assert rs == [rs[0]] + rs[1..];
    Unfold(d, job, id, rs);
    hide DeliverAll;
    if a == rs[0] {
      ServedBytes(d, job, id, a);
      OthersKeepTheirs(d', job, id, rs[1..], a);
    } else {
      ServedElsewhere(d, job, id, rs[0], a);
      BytesAppended(d', job, id, rs[1..], a);
    }
  }

  /** The record a send appends to the log of one of its recipients. */
  function NewRecord(d: Disk, job: Job, a: AgentId): Record {
    RecordFor(job, d.counter + 1, a, SeqOf(d.seqs, a) + 1)
  }

  lemma SendBytes(d: Disk, job: Job, rs: seq<AgentId>, a: AgentId)
    requires a in rs && RecipientsOk(rs)
    ensures FileOf(AfterSend(d, job, rs).logs, a) == FileOf(d.logs, a) + Encoding(NewRecord(d, job, a))
  {
    hide DeliverAll, Encoding, FileOf;
    BytesAppended(d.(counter := d.counter + 1), job, d.counter + 1, rs, a);
  }

  // ---- Exactly which keys survive ----

  lemma StoredAreClean(files: Files, a: AgentId)
    ensures forall r :: r in RecordsOf(files, a) ==> CleanHeader(r)
  {
    hide ParseAll, CleanHeader;
    if Readable(FileOf(files, a)) {
      AllParsedAreClean(FileOf(files, a));
    }
  }

  /** A send adds its record to each recipient's log exactly when the key has no newline, and adds it with
      the key it was sent with exactly when the key is not "-" either. */
  lemma KeySurvivesExactly(d: Disk, job: Job, rs: seq<AgentId>, a: AgentId)
    requires HeadersOk(job) && RecipientsOk(rs) && a in rs && Settled(FileOf(d.logs, a))
    ensures RecordsOf(AfterSend(d, job, rs).logs, a) == RecordsOf(d.logs, a) + [NewRecord(d, job, a)]
            <==> OneLineKey(job)
    ensures RecordsOf(AfterSend(d, job, rs).logs, a)
            == RecordsOf(d.logs, a) + [SentRecord(job, d.counter + 1, a, SeqOf(d.seqs, a) + 1)]
            <==> OneLineKey(job) && job.key != Some("-")
  {
    var rec := NewRecord(d, job, a);
    var sent := SentRecord(job, d.counter + 1, a, SeqOf(d.seqs, a) + 1);
    var after := AfterSend(d, job, rs).logs;
    StoredAreClean(after, a);
    if OneLineKey(job) {
      assert JobOk(job);
      SendAppendsOneEach(d, job, rs, a);
    }
    assert sent == rec <==> job.key != Some("-");
    LastOf(RecordsOf(d.logs, a), rec);
    LastOf(RecordsOf(d.logs, a), sent);
    hide AfterSend, RecordsIn, FileOf, SeqOf, IsTimestamp, RecipientsOk;
  }

  lemma LastOf(rs: seq<Record>, r: Record)
    ensures r in rs + [r]
    ensures forall q :: rs + [r] == rs + [q] ==> r == q
  {
    assert (rs + [r])[|rs|] == r;
    forall q | rs + [r] == rs + [q] ensures r == q {
      assert (rs + [q])[|rs|] == q;
    }
  }

  /** For a registered sender every other header value is a single line by construction: its records reach
      the recipients' logs as sent exactly when the caller's dedup_id has no newline and is not "-". */
  lemma RegisteredSendSurvives(log: Bytes, id: string, kind: string, body: Bytes, inReplyTo: Option<int>, now: string,
                               dedupId: string, d: Disk, rs: seq<AgentId>, a: AgentId)
    requires IsAlive(AgentsOf(log), id) && kind in ["prompt", "info", "reply"] && IsTimestamp(now)
    requires RecipientsOk(rs) && a in rs && Settled(FileOf(d.logs, a))
    ensures var job := JobOf(AgentsOf(log)[id], kind, body, inReplyTo, now, dedupId);
            RecordsOf(AfterSend(d, job, rs).logs, a)
            == RecordsOf(d.logs, a)
               + [Record(SeqOf(d.seqs, a) + 1, d.counter + 1, id, AgentsOf(log)[id].role, a, kind, inReplyTo, now,
                         if dedupId == "" then None else Some(dedupId), body)]
            <==> OneLine(dedupId) && dedupId != "-"
  {
    var job := JobOf(AgentsOf(log)[id], kind, body, inReplyTo, now, dedupId);
    AgentsArePlain(log);
    assert HeadersOk(job) by { hide AgentsOf, IsTimestamp; }
    assert AgentsOf(log)[id].agentId == id by { hide AgentsOf, IsTimestamp; }
    hide AgentsOf, IsTimestamp, RecordsOf, AfterSend, Settled, RecipientsOk, HeadersOk;
    KeySurvivesExactly(d, job, rs, a);
  }

  // ---- The key "-" ----

  lemma NoDashStored(files: Files)
    ensures !LogKnows(files, "-")
  {
    forall a, r ensures !LogHasKey(files, a, r, "-") {
      StoredAreClean(files, a);
    }
  }

  /** No recovery leaves the key "-" known, whatever the disk held. */
  lemma RecoveryForgetsDash(d: Disk, counted: seq<AgentId>, indexed: seq<AgentId>)
    ensures !KeyKnown(AfterRecover(d, counted, indexed), "-")
  {
    var e := AfterRecover(d, counted, indexed);
    NoDashStored(e.logs);
    hide InsertSeq, Entries, MaxIdOver, RowHasKey, LogHasKey, TruncateAll;
    if RowKnows(e.rows, "-") {
      RebuiltKnows(indexed, e.logs, "-");
    }
  }

  /** A send with key "-" makes the key known, and one plain recovery, with nothing compacted and nobody
      killed, forgets it: the next send with that key is carried out again. */
  lemma DashIsSentAgain(d: Disk, job: Job, rs: seq<AgentId>, counted: seq<AgentId>, indexed: seq<AgentId>,
                        agents: Agents, again: Job, toAgent: string, toRole: string, r: R.Result<SendResult>, after: Disk)
    requires job.key == Some("-") && again.key == Some("-") && rs != [] && RecipientsOk(rs)
    ensures KeyKnown(AfterSend(d, job, rs), "-")
    ensures !KeyKnown(AfterRecover(AfterSend(d, job, rs), counted, indexed), "-")
    ensures var e := AfterRecover(AfterSend(d, job, rs), counted, indexed);
            Sent(e, agents, again, toAgent, toRole, r, after) && r.Ok? ==>
              exists qs :: Expands(agents, toAgent, toRole, qs) && qs != [] && r.value == ResultOf(e, again, qs)
                           && after == AfterSend(e, again, qs)
  {
    var n := KeyRow(d, job, rs);
    var e := AfterRecover(AfterSend(d, job, rs), counted, indexed);
    RecoveryForgetsDash(AfterSend(d, job, rs), counted, indexed);
    hide AfterSend, AfterRecover, Answers, Expands, ResultOf, RowHasKey, LogHasKey, SomeUnreadable, RowKnows;
    if Sent(e, agents, again, toAgent, toRole, r, after) && r.Ok? {
      var qs :| Expands(agents, toAgent, toRole, qs) && qs != [] && r == R.Ok(ResultOf(e, again, qs))
                && after == AfterSend(e, again, qs);
    }
  }

  // ---- Keys with a newline ----

  /** The header lines of a record whose key is cut by one newline. */
  function CutLines(r: Record, k: string, x: string): seq<string> {
    var ps := HeaderPairs(r);
    LinesOf(ps[..8]) + [Line("dedup_id", k), x] + LinesOf(ps[9..])
  }

  lemma CutKeyText(r: Record, k: string, x: string)
    requires r.dedup == Some(k + "\n" + x)
    ensures Render(HeaderPairs(r)) == Unlines(CutLines(r, k, x))
  {
    var ps := HeaderPairs(r);
    assert ps[8] == ("dedup_id", k + "\n" + x);
    hide HeaderPairs, Unlines, Render;
    RenderUnlines(ps);
    var head, tail := LinesOf(ps[..8]), LinesOf(ps[9..]);
    var whole := Line("dedup_id", k + "\n" + x);
    assert LinesOf(ps) == head + [whole] + tail;
    UnlinesConcat(head + [whole], tail);
    UnlinesConcat(head, [whole]);
    UnlinesConcat(head + [Line("dedup_id", k), x], tail);
    UnlinesConcat(head, [Line("dedup_id", k), x]);
    TwoLines(Line("dedup_id", k), x, whole);
  }

  lemma TwoLines(l: string, x: string, whole: string)
    requires whole == l + "\n" + x
    ensures Unlines([l, x]) == Unlines([whole])
  {
    assert [l, x][1..] == [x] && [x][1..] == [] && [whole][1..] == [];
  }

  lemma CutLinesAreGood(r: Record, k: string, x: string)
    requires CleanHeader(r.(dedup := None)) && OneLine(k) && OneLine(x) && x != "" && x != "---"
    ensures GoodLines(CutLines(r, k, x))
  {
    var ps, qs := HeaderPairs(r), HeaderPairs(r.(dedup := None));
    GoodHeaderPairs(r.(dedup := None));
    PairLines(qs);
    LineFacts("dedup_id", k);
    hide OneLine, CleanHeader, Itoa;
    assert forall i :: 0 <= i < |ps| && i != 8 ==> ps[i] == qs[i];
    assert forall i :: 0 <= i < 8 ==> LinesOf(ps[..8])[i] == LinesOf(qs)[i];
    assert forall i :: 0 <= i < 1 ==> LinesOf(ps[9..])[i] == LinesOf(qs)[9 + i];
  }

  /** A header of good lines that do not all hold a field makes the record malformed. */
  lemma BadLinesAreMalformed(r: Record, ls: seq<string>)
    requires Render(HeaderPairs(r)) == Unlines(ls) && GoodLines(ls) && FieldMap(ls, map[]).None?
    ensures ParseOne(Encoding(r)).Malformed?
  {
    hide HeaderLen, FieldMap, Unlines, Split, UntilBlank, HeaderPairs, Render;
    EncodingParts(r, "");
    assert Encoding(r) + "" == Encoding(r);
    HeaderLenUnlines(ls, r.body + "\n\n" + "");
    SplitUnlines(ls);
    UntilBlankLines(ls);
    var data := Encoding(r);
    assert data[..|Unlines(ls)|] == Unlines(ls);
    assert ParseHeader(Unlines(ls)) == Bad(BadHeaderLine);
    hide ParseHeader, Encoding;
  }

  lemma NoField(ls: seq<string>, head: seq<string>, x: string, tail: seq<string>)
    requires ls == head + ([x] + tail) && (Cut(x).None? || Cut(x).value.0 == "")
    ensures FieldMap(ls, map[]).None?
  {
    hide Cut;
    FieldMapConcat(head, [x] + tail, map[]);
  }

  /** One malformed record behind a settled log makes the whole log unreadable. */
  lemma MalformedRecordSpoilsLog(log: Bytes, r: Record)
    requires Settled(log) && ParseOne(Encoding(r)).Malformed?
    ensures !Readable(log + Encoding(r)) && log + Encoding(r) != ""
  {
    NotEmpty(r);
    hide Encoding, ParseOne, ParseAll;
    ParseAllStep(Encoding(r));
    ParseAllAppend(log, Encoding(r));
  }

  lemma CutKeyIsMalformed(r: Record, k: string, x: string)
    requires r.dedup == Some(k + "\n" + x) && CleanHeader(r.(dedup := None))
    requires OneLine(k) && OneLine(x) && x != "" && x != "---" && (Cut(x).None? || Cut(x).value.0 == "")
    ensures ParseOne(Encoding(r)).Malformed?
  {
    hide Encoding, ParseOne, FieldMap, CleanHeader, Cut, HeaderPairs, Line, OneLine;
    CutKeyText(r, k, x);
    CutLinesAreGood(r, k, x);
    NoField(CutLines(r, k, x), LinesOf(HeaderPairs(r)[..8]) + [Line("dedup_id", k)], x, LinesOf(HeaderPairs(r)[9..]));
    BadLinesAreMalformed(r, CutLines(r, k, x));
  }

  /** A key whose second line is no header line makes every recipient's log unreadable: recovery fails on
      it, and so does every keyed send whose key has no row. */
  lemma NewlineKeyBreaksLog(d: Disk, job: Job, rs: seq<AgentId>, a: AgentId, k: string, x: string)
    requires HeadersOk(job) && RecipientsOk(rs) && a in rs && Settled(FileOf(d.logs, a))
    requires job.key == Some(k + "\n" + x) && OneLine(k) && OneLine(x) && x != "" && x != "---"
    requires Cut(x).None? || Cut(x).value.0 == ""
    ensures !Readable(FileOf(AfterSend(d, job, rs).logs, a)) && SomeUnreadable(AfterSend(d, job, rs).logs)
  {
    var r := NewRecord(d, job, a);
    SendBytes(d, job, rs, a);
    assert r.dedup == Some(k + "\n" + x) && CleanHeader(r.(dedup := None)) by { NewlineIsNotDash(k, x); hide IsTimestamp; }
    hide AfterSend, HeadersOk, RecipientsOk, NewRecord, Encoding, ParseOne, CleanHeader, Settled, Readable, OneLine, Cut;
    CutKeyIsMalformed(r, k, x);
    MalformedRecordSpoilsLog(FileOf(d.logs, a), r);
    assert a in AfterSend(d, job, rs).logs;
  }

  lemma NewlineIsNotDash(k: string, x: string)
    ensures k + "\n" + x != "-"
  {
    assert (k + "\n" + x)[|k|] == '\n';
  }

  lemma NotEmpty(r: Record)
    ensures Encoding(r) != ""
  {
    hide Render;
  }

  /** For example a second line "x". */
  lemma NewlineExample(d: Disk, job: Job, rs: seq<AgentId>, a: AgentId)
    requires HeadersOk(job) && RecipientsOk(rs) && a in rs && Settled(FileOf(d.logs, a)) && job.key == Some("k\nx")
    ensures SomeUnreadable(AfterSend(d, job, rs).logs)
  {
    assert "k\nx" == "k" + "\n" + "x" && OneLine("k") && OneLine("x") && Cut("x").None?;
    hide AfterSend, HeadersOk, RecipientsOk, Settled, Cut;
    NewlineKeyBreaksLog(d, job, rs, a, "k", "x");
  }

  // ---- A key that overrides another field ----

  function Overridden(r: Record, k: string, m: int): seq<(string, string)> {
    var ps := HeaderPairs(r);
    ps[..8] + [("dedup_id", k), ("seq", Itoa(m))] + ps[9..]
  }

  lemma OverriddenLookups(r: Record, k: string, m: int, f: map<string, string>)
    requires f == Assign(Overridden(r, k, m), map[])
    ensures HasAllFields(f) && f["seq"] == Itoa(m) && f["dedup_id"] == k
    ensures forall i :: 1 <= i < |RECORD_FIELDS| && i != 8 ==> f[RECORD_FIELDS[i]] == HeaderPairs(r)[i].1
  {
    var ps, qs := HeaderPairs(r), Overridden(r, k, m);
    assert |qs| == 11 && qs[9] == ("seq", Itoa(m)) && qs[8] == ("dedup_id", k) && qs[10] == ps[9];
    assert forall i :: 0 <= i < 8 ==> qs[i] == ps[i];
    assert RECORD_FIELDS[0] == "seq" && RECORD_FIELDS[8] == "dedup_id";
    hide Assign, HeaderPairs, Overridden, Itoa;
    FieldNamesDistinct(0, 9);
    FieldNamesDistinct(0, 8);
    FieldNamesDistinct(8, 9);
    AssignLookup(qs, map[], 9);
    AssignLookup(qs, map[], 8);
    forall i | 1 <= i < |RECORD_FIELDS| && i != 8 ensures RECORD_FIELDS[i] in f && f[RECORD_FIELDS[i]] == ps[i].1 {
      var at := if i == 9 then 10 else i;
      forall j | at < j < |qs| ensures qs[j].0 != qs[at].0 {
        FieldNamesDistinct(0, i);
        if j != 9 {
          FieldNamesDistinct(i, if j == 10 then 9 else j);
        }
      }
      AssignLookup(qs, map[], at);
    }
    forall n | n in RECORD_FIELDS ensures n in f {
      var i :| 0 <= i < |RECORD_FIELDS| && RECORD_FIELDS[i] == n;
    }
  }

  lemma OverriddenIsGood(r: Record, k: string, m: int)
    requires CleanHeader(r.(dedup := None)) && OneLine(k)
    ensures GoodPairs(Overridden(r, k, m))
  {
    hide Itoa;
    var ps, qs := HeaderPairs(r), HeaderPairs(r.(dedup := None));
    GoodHeaderPairs(r.(dedup := None));
    hide CleanHeader;
    assert forall i :: 0 <= i < |ps| && i != 8 ==> ps[i] == qs[i];
  }

  lemma OverriddenText(r: Record, k: string, m: int)
    requires r.dedup == Some(k + "\n" + Line("seq", Itoa(m)))
    ensures Render(HeaderPairs(r)) == Render(Overridden(r, k, m))
  {
    var ps := HeaderPairs(r);
    hide Itoa, Render, HeaderPairs;
    CutKeyText(r, k, Line("seq", Itoa(m)));
    RenderUnlines(Overridden(r, k, m));
    assert LinesOf(Overridden(r, k, m)) == CutLines(r, k, Line("seq", Itoa(m)));
  }

  lemma OverriddenHeader(r: Record, k: string, m: int)
    requires CleanHeader(r.(dedup := None)) && OneLine(k)
    ensures var qs := Overridden(r, k, m);
            ParseHeader(Render(qs)) == Good(Header(Assign(qs, map[]), m, r.id, |r.body|))
  {
    var qs := Overridden(r, k, m);
    var f := Assign(qs, map[]);
    OverriddenIsGood(r, k, m);
    HeaderFields(qs);
    OverriddenLookups(r, k, m, f);
    NoneMissing(f, RECORD_FIELDS);
    AtoiItoa(m);
    AtoiItoa(r.id);
    AtoiItoa(|r.body|);
    assert RECORD_FIELDS[1] == "id" && RECORD_FIELDS[9] == "len";
    assert f["id"] == HeaderPairs(r)[1].1 && f["len"] == HeaderPairs(r)[9].1;
    hide Split, UntilBlank, FieldMap, Assign, FirstMissing, Itoa, Atoi, Render, LinesOf, Overridden, CleanHeader;
  }

  lemma OverriddenRecord(r: Record, k: string, m: int)
    requires IsTimestamp(r.ts) && k != "-"
    requires HasAllFields(Assign(Overridden(r, k, m), map[]))
    ensures BuildRecord(Header(Assign(Overridden(r, k, m), map[]), m, r.id, |r.body|), r.body)
            == Good(r.(seqNo := m, dedup := Some(k)))
  {
    var f := Assign(Overridden(r, k, m), map[]);
    OverriddenLookups(r, k, m, f);
    if r.inReplyTo.Some? {
      AtoiItoa(r.inReplyTo.value);
    }
    hide Assign, Itoa, Atoi, Overridden;
    assert forall i :: 2 <= i < 8 ==> f[RECORD_FIELDS[i]] == HeaderPairs(r)[i].1;
    assert f[RECORD_FIELDS[2]] == r.from && f[RECORD_FIELDS[3]] == r.fromRole;
    assert f[RECORD_FIELDS[4]] == r.to && f[RECORD_FIELDS[5]] == r.kind;
    assert f[RECORD_FIELDS[6]] == ReplyText(r.inReplyTo) && f[RECORD_FIELDS[7]] == r.ts;
  }

  lemma OverriddenParses(r: Record, k: string, m: int)
    requires CleanHeader(r.(dedup := None)) && OneLine(k) && k != "-"
    requires r.dedup == Some(k + "\n" + Line("seq", Itoa(m)))
    ensures ParseOne(Encoding(r)) == Complete(r.(seqNo := m, dedup := Some(k)), |Encoding(r)|)
  {
    var qs := Overridden(r, k, m);
    OverriddenText(r, k, m);
    OverriddenIsGood(r, k, m);
    OverriddenHeader(r, k, m);
    OverriddenRecord(r, k, m);
    hide Render, HeaderLen, ParseHeader, HeaderPairs, BuildRecord, Assign, Overridden, CleanHeader, IsTimestamp;
    EncodingParts(r, "");
    assert Encoding(r) + "" == Encoding(r);
    HeaderLenRender(qs, r.body + "\n\n" + "");
    hide Encoding;
  }

  /** A key whose second line reads as a header line rewrites that field: here the record is stored under
      whatever seq the caller names, and under a shorter key. */
  lemma NewlineKeyRenumbers(d: Disk, job: Job, rs: seq<AgentId>, a: AgentId, k: string, m: int)
    requires HeadersOk(job) && RecipientsOk(rs) && a in rs && Settled(FileOf(d.logs, a))
    requires job.key == Some(k + "\n" + Line("seq", Itoa(m))) && OneLine(k) && k != "-"
    ensures RecordsOf(AfterSend(d, job, rs).logs, a)
            == RecordsOf(d.logs, a) + [NewRecord(d, job, a).(seqNo := m, dedup := Some(k))]
  {
    var r := NewRecord(d, job, a);
    SendBytes(d, job, rs, a);
    NewlineIsNotDash(k, Line("seq", Itoa(m)));
    assert r.dedup == job.key && CleanHeader(r.(dedup := None)) by { hide IsTimestamp, Itoa; }
    hide AfterSend, HeadersOk, RecipientsOk, NewRecord, Encoding, ParseAll, CleanHeader, Itoa, ParseOne;
    OverriddenParses(r, k, m);
    SoleRecord(Encoding(r), r.(seqNo := m, dedup := Some(k)));
    ParseAllAppend(FileOf(d.logs, a), Encoding(r));
    hide FileOf;
  }

  lemma SoleRecord(data: Bytes, r: Record)
    requires ParseOne(data) == Complete(r, |data|)
    ensures ParseAll(data) == Parses([r], |data|, true)
  {
    hide ParseOne, ParseAll;
    ParseAllStep(data);
    ParseAllStep("");
    assert data[|data|..] == "";
  }
}
