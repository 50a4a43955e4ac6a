/** What a send and a reply do, told in terms of their own arguments, the registry and the records before and
    after: who is reached, what is written, under which key it can be repeated, and when the call fails. */
module CallOutcomes {
  import opened Text
  import opened Codec
  import opened Storage
  import opened Compaction
  import opened Protocol
  import opened Runs
  import opened KeyedSends
  import opened Dedup
  import opened RegistryLog
  import opened RegistryLaws
  import opened Bus
  import opened BusLaws

  // ---- Who is meant, and what they are sent ----

  /** The addressed agent, or every agent of the addressed role, as long as it is alive. */
  ghost predicate Reaches(agents: Agents, toAgent: string, toRole: string, a: AgentId) {
    && a in agents && agents[a].membership == "alive"
    && (toAgent != "" ==> a == toAgent) && (toAgent == "" ==> agents[a].role == toRole)
  }

  /** The key a reader of the log finds. */
  function KeyInLog(dedupId: string): Option<string> {
    if dedupId == "" || dedupId == "-" then None else Some(dedupId)
  }

  lemma ExpansionReaches(agents: Agents, toAgent: string, toRole: string, rs: seq<AgentId>)
    requires Expands(agents, toAgent, toRole, rs)
    ensures forall a :: a in rs <==> Reaches(agents, toAgent, toRole, a)
    ensures rs == [] <==> !exists a :: Reaches(agents, toAgent, toRole, a)
  {
    if rs != [] {
      assert rs[0] in rs;
    }
  }

  lemma CallerJobOk(log: Bytes, id: string, kind: string, body: Bytes, inReplyTo: Option<int>, now: string, dedupId: string)
    requires IsAlive(AgentsOf(log), id) && kind in ["prompt", "info", "reply"] && IsTimestamp(now) && OneLine(dedupId)
    ensures JobOk(JobOf(AgentsOf(log)[id], kind, body, inReplyTo, now, dedupId))
    ensures AgentsOf(log)[id].agentId == id
  {
    AgentsArePlain(log);
    hide AgentsOf, IsTimestamp;
  }

  /** What one mailbox shows of a send that was carried out. */
  ghost predicate Posted(d: Disk, e: Disk, res: SendResult, a: AgentId, reached: bool, rec: Record, key: string) {
    var q := SeqOf(d.seqs, a) + 1;
    && res.id == d.counter + 1 && e.counter == d.counter + 1 && e.archives == d.archives
    && RecordsOf(e.logs, a) == RecordsOf(d.logs, a) + (if reached then [rec] else [])
    && SeqOf(e.seqs, a) == (if reached then q else SeqOf(d.seqs, a))
    && Listed(res.delivered, a, q, reached)
    && Indexed(e.rows, (a, q), Row(res.id, rec.from, if key == "" then None else Some(key)), reached)
  }

  /** The result names the mailbox exactly when it was reached, and then under the new seq. */
  ghost predicate Listed(delivered: seq<Delivery>, a: AgentId, q: int, reached: bool) {
    forall n :: Delivery(a, n) in delivered <==> reached && n == q
  }

  /** Without a key every new record has its row; with one the key has a row. */
  ghost predicate Indexed(rows: Table, name: Name, row: Row, reached: bool) {
    && (row.dedup == None && reached ==> name in rows && rows[name] == row)
    && (row.dedup != None ==> exists n :: n in rows && rows[n] == row)
  }

  /** A send that is not answered from its key reaches exactly the alive agents it names or whose role it
      names, failing without a trace if there is none: each gets one record with the new id, its next seq, the
      caller's registered id and role, and the arguments as given; nobody else gets anything. */
  lemma SendReaches(log: Bytes, d: Disk, id: string, toAgent: string, toRole: string, kind: string, body: Bytes,
                    inReplyTo: Option<int>, dedupId: string, now: string, r: R.Result<SendResult>, after: Disk, a: AgentId)
    requires IsAlive(AgentsOf(log), id) && kind in ["prompt", "info", "reply"] && IsTimestamp(now) && OneLine(dedupId)
    requires (toAgent == "") != (toRole == "") && Settled(FileOf(d.logs, a))
    requires Sent(d, AgentsOf(log), JobOf(AgentsOf(log)[id], kind, body, inReplyTo, now, dedupId), toAgent, toRole, r, after)
    requires dedupId != "" ==> !KeyKnown(d, dedupId) && !SomeUnreadable(d.logs)
    ensures var agents := AgentsOf(log);
            && (r.Ok? <==> exists b :: Reaches(agents, toAgent, toRole, b))
            && (r.Err? ==> r == R.Err(R.RecipientUnknown(if toAgent != "" then toAgent else "role " + toRole)) && after == d)
            && (r.Ok? ==>
                  Posted(d, after, r.value, a, Reaches(agents, toAgent, toRole, a),
                         Record(SeqOf(d.seqs, a) + 1, d.counter + 1, id, agents[id].role, a, kind, inReplyTo, now,
                                KeyInLog(dedupId), body), dedupId))
  {
    hide AgentsOf, Sent, Expands, JobOk, KeyKnown, SomeUnreadable, IsTimestamp, Settled, Posted, Reaches, JobOf, RecordFor,
      AfterSend, ResultOf, RecipientsOk, FileOf, SeqOf, KeyInLog;
    var agents := AgentsOf(log);
    var job := JobOf(agents[id], kind, body, inReplyTo, now, dedupId);
    CallerJobOk(log, id, kind, body, inReplyTo, now, dedupId);
    CallerRecord(agents[id], kind, body, inReplyTo, now, dedupId, d.counter + 1, a, SeqOf(d.seqs, a) + 1);
    var rs := CarriedOut(d, agents, job, toAgent, toRole, r, after);
    ExpandedAreOk(log, toAgent, toRole, rs);
    ExpansionReaches(agents, toAgent, toRole, rs);
    if r.Ok? {
      SendPosts(d, job, rs, a);
    }
  }

  /** In an empty root the first send is given id 1, and seq 1 in every mailbox it reaches. */
  lemma FirstSend(log: Bytes, job: Job, toAgent: string, toRole: string, r: R.Result<SendResult>, after: Disk)
    requires Sent(EMPTY, AgentsOf(log), job, toAgent, toRole, r, after) && r.Ok?
    ensures r.value.id == 1 && after.counter == 1
    ensures forall i :: 0 <= i < |r.value.delivered| ==> r.value.delivered[i].seqNo == 1
  {
    NothingInEmpty();
    hide AgentsOf, Sent, Expands, KeyKnown, SomeUnreadable, RecipientsOk, DeliverAll, DeliveriesOf;
    var rs := CarriedOut(EMPTY, AgentsOf(log), job, toAgent, toRole, r, after);
    ExpandedAreOk(log, toAgent, toRole, rs);
    var d := EMPTY.(counter := 1);
    CountersKept(d, job, 1, rs);
    DeliveredInOrder(d, job, 1, rs, 0);
    forall i | 0 <= i < |rs| ensures DeliveriesOf(d, job, 1, rs)[i].seqNo == 1 {
      DeliveredInOrder(d, job, 1, rs, i);
    }
  }

  lemma NothingInEmpty()
    ensures (forall key :: !KeyKnown(EMPTY, key)) && !SomeUnreadable(EMPTY.logs)
  {
    forall a, r, key ensures !LogHasKey(EMPTY.logs, a, r, key) {
      assert RecordsOf(EMPTY.logs, a) == [];
    }
  }

  lemma CallerRecord(sender: Agent, kind: string, body: Bytes, inReplyTo: Option<int>, now: string, dedupId: string,
                     n: int, a: AgentId, q: int)
    ensures var job := JobOf(sender, kind, body, inReplyTo, now, dedupId);
            && RecordFor(job, n, a, q)
               == Record(q, n, sender.agentId, sender.role, a, kind, inReplyTo, now, KeyInLog(dedupId), body)
            && (job.key.Some? <==> dedupId != "") && (if job.key.Some? then job.key.value else "") == dedupId
  {
  }

  /** The recipients of a send that is neither refused for its log nor answered from its key. */
  lemma CarriedOut(d: Disk, agents: Agents, job: Job, toAgent: string, toRole: string, r: R.Result<SendResult>, after: Disk)
    returns (rs: seq<AgentId>)
    requires Sent(d, agents, job, toAgent, toRole, r, after)
    requires job.key.Some? ==> !KeyKnown(d, job.key.value) && !SomeUnreadable(d.logs)
    ensures Expands(agents, toAgent, toRole, rs)
    ensures if rs == [] then r == Fail(Unknown(toAgent, toRole)) && after == d
            else r == R.Ok(ResultOf(d, job, rs)) && after == AfterSend(d, job, rs)
  {
    hide Expands, KeyKnown, RowKnows, SomeUnreadable, Answers, AfterSend, ResultOf;
    rs :| Expands(agents, toAgent, toRole, rs)
          && if rs == [] then r == Fail(Unknown(toAgent, toRole)) && after == d
             else r == R.Ok(ResultOf(d, job, rs)) && after == AfterSend(d, job, rs);
  }

  /** The last recipient's row is in the table. */
  lemma {:induction false} LastRow(d: Disk, job: Job, id: nat, rs: seq<AgentId>) returns (n: Name)
    requires rs != []
    ensures n in DeliverAll(d, job, id, rs).rows && DeliverAll(d, job, id, rs).rows[n] == RowFor(job, id)
    decreases rs
  {
    Unfold(d, job, id, rs);
    var e := DeliverTo(d, job, id, rs[0]);
    if |rs| == 1 {
      n := (rs[0], SeqOf(d.seqs, rs[0]) + 1);
      NothingLeft(e, job, id, rs[1..]);
      hide Encoding, FileOf;
    } else {
      hide DeliverTo, DeliverAll;
      n := LastRow(e, job, id, rs[1..]);
    }
  }

  /** Without a key no later insert of the send touches a row. */
  lemma {:induction false} RowStays(d: Disk, job: Job, id: nat, rs: seq<AgentId>, n: Name)
    requires job.key == None && n in d.rows && n.0 !in rs
    ensures n in DeliverAll(d, job, id, rs).rows && DeliverAll(d, job, id, rs).rows[n] == d.rows[n]
    decreases rs
  {
    hide Encoding, FileOf, SeqOf;
    if rs != [] {
      assert rs == [rs[0]] + rs[1..];
      RowStays(DeliverTo(d, job, id, rs[0]), job, id, rs[1..], n);
    }
  }

  lemma {:induction false} RowOfEach(d: Disk, job: Job, id: nat, rs: seq<AgentId>, a: AgentId)
    requires job.key == None && RecipientsOk(rs) && a in rs
    ensures var n := (a, (SeqOf(d.seqs, a) + 1) as int);
            n in DeliverAll(d, job, id, rs).rows && DeliverAll(d, job, id, rs).rows[n] == RowFor(job, id)
    decreases rs
  {
    var d' := DeliverTo(d, job, id, rs[0]);
    TailOk(rs);
    Unfold(d, job, id, rs);
    if a == rs[0] {
      FirstRow(d, job, id, a);
      hide DeliverTo, DeliverAll, RecipientsOk, SeqOf;
      RowStays(d', job, id, rs[1..], (a, SeqOf(d.seqs, a) + 1));
    } else {
      ServedElsewhere(d, job, id, rs[0], a);
      hide DeliverTo, DeliverAll, RecipientsOk, SeqOf;
      RowOfEach(d', job, id, rs[1..], a);
    }
  }

  lemma FirstRow(d: Disk, job: Job, id: nat, a: AgentId)
    ensures var n := (a, (SeqOf(d.seqs, a) + 1) as int);
            n in DeliverTo(d, job, id, a).rows && DeliverTo(d, job, id, a).rows[n] == RowFor(job, id)
  {
    hide Encoding, FileOf;
  }

  lemma ListedDeliveries(d: Disk, job: Job, id: nat, rs: seq<AgentId>, a: AgentId)
    requires RecipientsOk(rs)
    ensures Listed(DeliveriesOf(d, job, id, rs), a, SeqOf(d.seqs, a) + 1, a in rs)
  {
    hide DeliveriesOf, SeqOf, RecipientsOk;
    var ds := DeliveriesOf(d, job, id, rs);
    DeliveredInOrder(d, job, id, rs, 0);
    forall i | 0 <= i < |rs| ensures ds[i] == Delivery(rs[i], SeqOf(d.seqs, rs[i]) + 1) {
      DeliveredInOrder(d, job, id, rs, i);
    }
    ListedByIndex(ds, rs, d.seqs, a);
  }

  lemma ListedByIndex(ds: seq<Delivery>, rs: seq<AgentId>, seqs: map<AgentId, nat>, a: AgentId)
    requires |ds| == |rs| && forall i :: 0 <= i < |rs| ==> ds[i] == Delivery(rs[i], SeqOf(seqs, rs[i]) + 1)
    ensures Listed(ds, a, SeqOf(seqs, a) + 1, a in rs)
  {
    hide SeqOf;
    if a in rs {
      var i :| 0 <= i < |rs| && rs[i] == a;
      assert ds[i] in ds;
    }
  }

  lemma SendIndexes(d: Disk, job: Job, rs: seq<AgentId>, a: AgentId)
    requires RecipientsOk(rs) && rs != []
    ensures Indexed(AfterSend(d, job, rs).rows, (a, SeqOf(d.seqs, a) + 1), RowFor(job, d.counter + 1), a in rs)
  {
    var d', id := d.(counter := d.counter + 1), d.counter + 1;
    hide DeliverAll, SeqOf, RecipientsOk;
    var n := LastRow(d', job, id, rs);
    if job.key == None && a in rs {
      RowOfEach(d', job, id, rs, a);
    }
  }

  lemma SendSeqs(d: Disk, job: Job, rs: seq<AgentId>, a: AgentId)
    requires JobOk(job) && RecipientsOk(rs) && Settled(FileOf(d.logs, a))
    ensures SeqOf(AfterSend(d, job, rs).seqs, a) == SeqOf(d.seqs, a) + if a in rs then 1 else 0
  {
    hide DeliverAll, Settled, RecordsOf, JobOk, RecipientsOk, FileOf;
    OneRecordEach(d.(counter := d.counter + 1), job, d.counter + 1, rs, a);
  }

  lemma SendPosts(d: Disk, job: Job, rs: seq<AgentId>, a: AgentId)
    requires JobOk(job) && RecipientsOk(rs) && rs != [] && Settled(FileOf(d.logs, a))
    ensures Posted(d, AfterSend(d, job, rs), ResultOf(d, job, rs), a, a in rs,
                   RecordFor(job, d.counter + 1, a, SeqOf(d.seqs, a) + 1), if job.key.Some? then job.key.value else "")
  {
    assert job.key != Some("");
    hide JobOk, RecipientsOk, AfterSend, DeliveriesOf, Settled, RecordsOf, SeqOf, FileOf, Indexed, Listed, RecordFor;
    SendWrites(d, job, rs, a);
    SendSeqs(d, job, rs, a);
    SendIndexes(d, job, rs, a);
    ListedDeliveries(d.(counter := d.counter + 1), job, d.counter + 1, rs, a);
    SentFrom(job, d.counter + 1, a, SeqOf(d.seqs, a) + 1);
  }

  lemma SendWrites(d: Disk, job: Job, rs: seq<AgentId>, a: AgentId)
    requires JobOk(job) && RecipientsOk(rs) && Settled(FileOf(d.logs, a))
    ensures var e := AfterSend(d, job, rs);
            && e.counter == d.counter + 1 && e.archives == d.archives
            && RecordsOf(e.logs, a)
               == RecordsOf(d.logs, a) + if a in rs then [RecordFor(job, d.counter + 1, a, SeqOf(d.seqs, a) + 1)] else []
  {
    hide JobOk, RecipientsOk, AfterSend, ResultOf, Settled, RecordsOf, SeqOf, FileOf, RecordFor;
    SendAppendsOneEach(d, job, rs, a);
  }

  lemma SentFrom(job: Job, id: int, a: AgentId, q: int)
    ensures RecordFor(job, id, a, q).from == job.from
  {
  }

  // ---- When a send fails ----

  /** A send by an alive agent with well-formed arguments fails exactly when its key can be looked up neither in
      the index nor in the logs, one of them being corrupt, or when the key is new and nobody alive is meant; in
      both cases, and when it is answered from its key, nothing is written. */
  lemma SendFailsExactly(d: Disk, agents: Agents, id: string, toAgent: string, toRole: string, kind: string, body: Bytes,
                         inReplyTo: Option<int>, dedupId: string, now: string, r: R.Result<SendResult>, after: Disk)
    requires IsAlive(agents, id) && (toAgent == "") != (toRole == "")
    requires Sent(d, agents, JobOf(agents[id], kind, body, inReplyTo, now, dedupId), toAgent, toRole, r, after)
    ensures var corrupt := dedupId != "" && !RowKnows(d.rows, dedupId) && exists b :: b in d.logs && !Readable(d.logs[b]);
            var known := dedupId != "" && KeyKnown(d, dedupId);
            && (r.Err? <==> corrupt || (!known && !exists b :: Reaches(agents, toAgent, toRole, b)))
            && (corrupt ==> r.Err? && r.error.CorruptLog?)
            && (r.Err? || known ==> after == d)
  {
    var job := JobOf(agents[id], kind, body, inReplyTo, now, dedupId);
    assert job.key == if dedupId == "" then None else Some(dedupId);
    hide JobOf, KeyKnown, RowKnows, Readable, Answers, AfterSend, ResultOf, Reaches, Expands;
    if !(job.key.Some? && !RowKnows(d.rows, dedupId) && SomeUnreadable(d.logs)) && !(job.key.Some? && KeyKnown(d, dedupId)) {
      var rs :| Expands(agents, toAgent, toRole, rs)
                && if rs == [] then r == Fail(Unknown(toAgent, toRole)) && after == d
                   else r == R.Ok(ResultOf(d, job, rs)) && after == AfterSend(d, job, rs);
      ExpansionReaches(agents, toAgent, toRole, rs);
    }
  }

  // ---- Repeating a key ----

  /** After a send with a dedup_id no send and no reply with the same dedup_id, by whichever agent and with
      whatever other arguments, writes anything: it returns the first one's id, and the first one's whole
      result if that had one recipient. */
  lemma KeyIsTaken(d: Disk, agents: Agents, id: string, toAgent: string, toRole: string, kind: string, body: Bytes,
                   inReplyTo: Option<int>, dedupId: string, now: string, r: R.Result<SendResult>, after: Disk,
                   agents': Agents, id': string, toAgent': string, toRole': string, kind': string, body': Bytes,
                   inReplyTo': Option<int>, now': string, r': R.Result<SendResult>, after': Disk)
    requires IsAlive(agents, id) && IsAlive(agents', id') && dedupId != "" && UniqueKeys(d.rows) && !KeyKnown(d, dedupId)
    requires Sent(d, agents, JobOf(agents[id], kind, body, inReplyTo, now, dedupId), toAgent, toRole, r, after) && r.Ok?
    requires var again := JobOf(agents'[id'], kind', body', inReplyTo', now', dedupId);
             || Sent(after, agents', again, toAgent', toRole', r', after')
             || (inReplyTo'.Some? && Replied(after, agents', again, id', inReplyTo'.value, r', after'))
    ensures after' == after && r'.Ok? && r'.value.id == r.value.id
    ensures |r.value.delivered| == 1 ==> r' == r
  {
    var job := JobOf(agents[id], kind, body, inReplyTo, now, dedupId);
    var again := JobOf(agents'[id'], kind', body', inReplyTo', now', dedupId);
    assert job.key == again.key == Some(dedupId);
    hide JobOf;
    var rs := FirstCarriedOut(d, agents, job, toAgent, toRole, r, after);
    RowsKnowKey(d, job, rs);
    hide AfterSend, ResultOf, KeyKnown, UniqueKeys, Answers, RowKnows;
    if Sent(after, agents', again, toAgent', toRole', r', after') {
      RetryIsAnswered(d, job, rs, agents', again, toAgent', toRole', r', after');
    } else {
      RepliedIsSent(after, agents', again, id', inReplyTo'.value, r', after', toAgent', toRole');
      RetryIsAnswered(d, job, rs, agents', again, toAgent', toRole', r', after');
    }
    CountDelivered(d, job, rs);
  }

  lemma FirstCarriedOut(d: Disk, agents: Agents, job: Job, toAgent: string, toRole: string, r: R.Result<SendResult>,
                        after: Disk)
    returns (rs: seq<AgentId>)
    requires Sent(d, agents, job, toAgent, toRole, r, after) && r.Ok? && (job.key.Some? ==> !KeyKnown(d, job.key.value))
    ensures rs != [] && r == R.Ok(ResultOf(d, job, rs)) && after == AfterSend(d, job, rs)
  {
    hide Expands, KeyKnown, RowKnows, SomeUnreadable, Answers, AfterSend, ResultOf;
    rs :| rs != [] && r == R.Ok(ResultOf(d, job, rs)) && after == AfterSend(d, job, rs);
  }

  lemma RowsKnowKey(d: Disk, job: Job, rs: seq<AgentId>)
    requires job.key.Some? && rs != []
    ensures RowKnows(AfterSend(d, job, rs).rows, job.key.value)
  {
    hide DeliverAll;
    var n := LastRow(d.(counter := d.counter + 1), job, d.counter + 1, rs);
    assert RowHasKey(AfterSend(d, job, rs).rows, n, job.key.value);
  }

  /** With a row under its key a reply is answered as a send is. */
  lemma RepliedIsSent(d: Disk, agents: Agents, job: Job, mailbox: AgentId, cites: int, r: R.Result<SendResult>, after: Disk,
                      toAgent: string, toRole: string)
    requires job.key.Some? && RowKnows(d.rows, job.key.value) && Replied(d, agents, job, mailbox, cites, r, after)
    ensures Sent(d, agents, job, toAgent, toRole, r, after)
  {
    hide Answers, SomeUnreadable, LookupOutcome, RowHasKey, LogHasKey, Expands;
  }

  lemma CountDelivered(d: Disk, job: Job, rs: seq<AgentId>)
    ensures |ResultOf(d, job, rs).delivered| == |rs|
  {
    hide DeliveriesOf;
    CountDeliveries(d.(counter := d.counter + 1), job, d.counter + 1, rs);
  }

  lemma {:induction false} CountDeliveries(d: Disk, job: Job, id: nat, rs: seq<AgentId>)
    ensures |DeliveriesOf(d, job, id, rs)| == |rs|
    decreases rs
  {
    hide DeliverTo;
    if rs != [] {
      CountDeliveries(DeliverTo(d, job, id, rs[0]), job, id, rs[1..]);
    }
  }

  // ---- Replies ----

  /** A record of the caller's mailbox with the id, live before archived, the first of each. */
  ghost predicate Cites(log: Bytes, archive: Bytes, id: int, q: Record) {
    || FirstWithId(RecordsIn(log), id, q)
    || ((forall x :: x in RecordsIn(log) ==> x.id != id) && FirstWithId(RecordsIn(archive), id, q))
  }

  ghost predicate FirstWithId(rs: seq<Record>, id: int, q: Record) {
    exists i :: 0 <= i < |rs| && rs[i] == q && q.id == id && forall j :: 0 <= j < i ==> rs[j].id != id
  }

  lemma {:induction false} FindIdIsFirst(rs: seq<Record>, id: int)
    ensures match FindId(rs, id)
            case None => forall x :: x in rs ==> x.id != id
            case Some(q) => FirstWithId(rs, id, q)
  {
    if rs != [] {
      FindIdIsFirst(rs[1..], id);
      if rs[0].id == id {
        assert rs[0] == rs[0];
      } else if FindId(rs[1..], id).Some? {
        var q := FindId(rs[1..], id).value;
        var i :| 0 <= i < |rs[1..]| && rs[1..][i] == q && q.id == id && forall j :: 0 <= j < i ==> rs[1..][j].id != id;
        assert rs[i + 1] == q && forall j :: 0 <= j < i + 1 ==> rs[j].id != id by {
          assert forall j :: 1 <= j < i + 1 ==> rs[j] == rs[1..][j - 1];
        }
      } else {
        assert forall x :: x in rs ==> x == rs[0] || x in rs[1..];
      }
    }
  }

  /** What lookupRecordByID finds, and exactly when it fails: the live log must be readable, the archive only
      if the live log has no such record. */
  lemma LookupTells(log: Bytes, archive: Bytes, id: int)
    ensures var r := LookupOutcome(log, archive, id);
            && (r.Err? <==> !Readable(log) || ((forall x :: x in RecordsIn(log) ==> x.id != id) && !Readable(archive)))
            && (r.Err? ==> r.error.CorruptLog?)
            && (r.Ok? ==> match r.value
                          case Some(q) => Cites(log, archive, id, q)
                          case None => forall x :: x in RecordsIn(log) || x in RecordsIn(archive) ==> x.id != id)
  {
    hide ParseAll, FindId;
    FindIdIsFirst(RecordsIn(log), id);
    FindIdIsFirst(RecordsIn(archive), id);
    if FindId(RecordsIn(log), id).Some? {
      FirstIsThere(RecordsIn(log), id, FindId(RecordsIn(log), id).value);
    }
    hide FirstWithId;
  }

  lemma FirstIsThere(rs: seq<Record>, id: int, q: Record)
    requires FirstWithId(rs, id, q)
    ensures q in rs && q.id == id
  {
  }

  /** A reply whose key is new, on readable files: it fails without a trace if the caller's mailbox, archive
      included, holds no record with the id, and if that record's sender is not alive; otherwise it writes one
      record, to that sender, of kind reply and citing the id, from the caller as registered. */
  lemma ReplyReaches(log: Bytes, d: Disk, id: string, cites: int, body: Bytes, dedupId: string, now: string,
                     r: R.Result<SendResult>, after: Disk, a: AgentId)
    requires IsAlive(AgentsOf(log), id) && IsTimestamp(now) && OneLine(dedupId) && Settled(FileOf(d.logs, a))
    requires Replied(d, AgentsOf(log), JobOf(AgentsOf(log)[id], "reply", body, Some(cites), now, dedupId), id, cites,
                     r, after)
    requires dedupId != "" ==> !KeyKnown(d, dedupId) && !SomeUnreadable(d.logs)
    requires Readable(FileOf(d.logs, id)) && Readable(FileOf(d.archives, id))
    ensures (forall x :: x in RecordsOf(d.logs, id) || x in RecordsOf(d.archives, id) ==> x.id != cites) ==>
              r == R.Err(R.InReplyToNotFound(cites)) && after == d
    ensures (exists x :: (x in RecordsOf(d.logs, id) || x in RecordsOf(d.archives, id)) && x.id == cites) ==>
              exists q :: && Cites(FileOf(d.logs, id), FileOf(d.archives, id), cites, q)
                          && (q.from != "" ==>
                                AnswersSender(AgentsOf(log), d, id, q, cites, body, dedupId, now, r, after, a))
  {
    hide AgentsOf, Sent, KeyKnown, SomeUnreadable, RowKnows, Answers, LookupOutcome, Readable, RecordsIn, IsTimestamp, Settled,
      JobOf, FileOf, AnswersSender, Cites;
    var job := JobOf(AgentsOf(log)[id], "reply", body, Some(cites), now, dedupId);
    CallerRecord(AgentsOf(log)[id], "reply", body, Some(cites), now, dedupId, 0, "", 0);
    KeyOfJob(AgentsOf(log)[id], "reply", body, Some(cites), now, dedupId);
    LookupTells(FileOf(d.logs, id), FileOf(d.archives, id), cites);
    var found := LookupOutcome(FileOf(d.logs, id), FileOf(d.archives, id), cites);
    if found.value.Some? {
      var q := found.value.value;
      CitedIsThere(FileOf(d.logs, id), FileOf(d.archives, id), cites, q);
      if q.from != "" {
        SenderIsAnswered(log, d, id, q, cites, body, dedupId, now, r, after, a);
      }
    }
  }

  lemma KeyOfJob(sender: Agent, kind: string, body: Bytes, inReplyTo: Option<int>, now: string, dedupId: string)
    ensures JobOf(sender, kind, body, inReplyTo, now, dedupId).key == if dedupId == "" then None else Some(dedupId)
  {
  }

  lemma CitedIsThere(log: Bytes, archive: Bytes, id: int, q: Record)
    requires Cites(log, archive, id, q)
    ensures (q in RecordsIn(log) || q in RecordsIn(archive)) && q.id == id
  {
    hide RecordsIn;
  }

  /** The one new record lies with the cited record's sender. */
  ghost predicate AnswersSender(agents: Agents, d: Disk, id: string, q: Record, cites: int, body: Bytes, dedupId: string,
                                now: string, r: R.Result<SendResult>, after: Disk, a: AgentId)
    requires id in agents
  {
    && (r.Ok? <==> IsAlive(agents, q.from))
    && (r.Err? ==> r == R.Err(R.RecipientUnknown(q.from)) && after == d)
    && (r.Ok? ==>
          Posted(d, after, r.value, a, a == q.from,
                 Record(SeqOf(d.seqs, a) + 1, d.counter + 1, id, agents[id].role, a, "reply", Some(cites), now,
                        KeyInLog(dedupId), body), dedupId))
  }

  lemma SenderIsAnswered(log: Bytes, d: Disk, id: string, q: Record, cites: int, body: Bytes, dedupId: string, now: string,
                         r: R.Result<SendResult>, after: Disk, a: AgentId)
    requires IsAlive(AgentsOf(log), id) && IsTimestamp(now) && OneLine(dedupId) && Settled(FileOf(d.logs, a)) && q.from != ""
    requires dedupId != "" ==> !KeyKnown(d, dedupId) && !SomeUnreadable(d.logs)
    requires Sent(d, AgentsOf(log), JobOf(AgentsOf(log)[id], "reply", body, Some(cites), now, dedupId), q.from, "", r, after)
    ensures AnswersSender(AgentsOf(log), d, id, q, cites, body, dedupId, now, r, after, a)
  {
    hide AgentsOf, KeyKnown, SomeUnreadable, Sent, IsTimestamp, Settled, Posted, JobOf, FileOf, SeqOf, KeyInLog, Reaches;
    OneIsMeant(AgentsOf(log), q.from);
    SendReaches(log, d, id, q.from, "", "reply", body, Some(cites), dedupId, now, r, after, a);
    if r.Ok? {
      assert Reaches(AgentsOf(log), q.from, "", a) == (a == q.from);
    }
  }

  lemma OneIsMeant(agents: Agents, to: AgentId)
    requires to != ""
    ensures forall b :: Reaches(agents, to, "", b) <==> b == to && IsAlive(agents, to)
    ensures (exists b :: Reaches(agents, to, "", b)) <==> IsAlive(agents, to)
  {
    assert Reaches(agents, to, "", to) <==> IsAlive(agents, to);
  }
}
