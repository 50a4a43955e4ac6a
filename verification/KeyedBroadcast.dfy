/** Two promises the index breaks. A keyed send to several recipients leaves only the last
    recipient's row, so a resend is answered with one delivery out of many, and the wait fast path
    hides the first recipient's record. */
module KeyedBroadcast {
  import opened Text
  import opened Codec
  import opened CodecLaws
  import opened Storage
  import opened Reading
  import opened Protocol
  import opened Invariant
  import opened Runs
  import opened Dedup
  import opened IndexCoverage

  /** The last recipient's row is in the table, under the key. */
  lemma {:induction false} LastRowIsThere(d: Disk, job: Job, id: nat, rs: seq<AgentId>)
    returns (n: Name)
    requires rs != [] && job.key.Some? && (forall i, j :: 0 <= i < j < |rs| ==> rs[i] != rs[j])
    ensures n.0 == rs[|rs| - 1] && RowHasKey(DeliverAll(d, job, id, rs).rows, n, job.key.value)
    decreases rs
  {
    hide Encoding;
    var e := DeliverTo(d, job, id, rs[0]);
    if |rs| == 1 {
      n := (rs[0], SeqOf(d.seqs, rs[0]) + 1);
      assert DeliverAll(e, job, id, rs[1..]) == e;
    } else {
      n := LastRowIsThere(e, job, id, rs[1..]);
    }
  }

  /** After any keyed send to two or more recipients the first one's new record has no row, and a
      waiter for exactly that record skips the log scan that would find it. */
  lemma BroadcastHidesRecord(s: State, pid: nat, job: Job, rs: seq<AgentId>)
    requires Inv(s) && CanBeginSend(s, job, rs) && job.key.Some? && |rs| >= 2
    ensures Legal(s, SendSteps(pid, job, rs))
    ensures var t := Run(s, SendSteps(pid, job, rs));
            var q := SeqOf(s.disk.seqs, rs[0]) + 1;
            var r := RecordFor(job, s.disk.counter + 1, rs[0], q);
            var f := Filter(q - 1, "", job.from, "");
            r in RecordsOf(t.disk.logs, rs[0]) && Passes(r, f) && Skips(t.disk.rows, rs[0], f)
  {
    var steps := SendSteps(pid, job, rs);
    hide Inv, Legal, Run, SendSteps, KeyKnown, AfterSend, RecordsOf, JobOk, RecipientsOk, Skips, Settled;
    SendIsRun(s, pid, job, rs);
    var t := Run(s, steps);
    RunKeeps(s, steps);
    LogIsSettled(s, rs[0]);
    FirstIsStored(s.disk, job, rs);
    var q := SeqOf(s.disk.seqs, rs[0]) + 1;
    hide SeqOf;
    RowEvicted(s, t, job, rs);
    NoLaterRows(t, rs[0], q);
    NothingCounted(t.disk.rows, rs[0], q, job.from);
  }

  lemma LogIsSettled(s: State, a: AgentId)
    requires Inv(s) && !s.down
    ensures Settled(FileOf(s.disk.logs, a))
  {
    assert FilesOk(s);
    hide Inv, Settled, Readable;
  }

  lemma NothingCounted(rows: Table, a: AgentId, q: int, from: string)
    requires (a, q) !in rows && forall n :: n in rows && n.0 == a ==> n.1 <= q
    ensures Skips(rows, a, Filter(q - 1, "", from, ""))
  {
  }

  lemma {:induction false} RowStaysGone(d: Disk, job: Job, id: nat, rs: seq<AgentId>, n: Name)
    requires n !in d.rows && n.0 !in rs
    ensures n !in DeliverAll(d, job, id, rs).rows
    decreases rs
  {
    hide Encoding, FileOf, SeqOf;
    if rs != [] {
      assert rs == [rs[0]] + rs[1..];
      RowStaysGone(DeliverTo(d, job, id, rs[0]), job, id, rs[1..], n);
    }
  }

  /** The first recipient's row is evicted by the second one's, which carries the same key. */
  lemma FirstRowGone(d: Disk, job: Job, id: nat, rs: seq<AgentId>)
    requires |rs| >= 2 && job.key.Some? && forall i, j :: 0 <= i < j < |rs| ==> rs[i] != rs[j]
    ensures (rs[0], (SeqOf(d.seqs, rs[0]) + 1) as int) !in DeliverAll(d, job, id, rs).rows
  {
    var d1 := DeliverTo(d, job, id, rs[0]);
    var d2 := DeliverTo(d1, job, id, rs[1]);
    var n := (rs[0], (SeqOf(d.seqs, rs[0]) + 1) as int);
    assert d1.rows[n].dedup == job.key && n !in d2.rows;
    assert rs[1..][1..] == rs[2..] && rs[1..][0] == rs[1];
    hide DeliverTo, DeliverAll, SeqOf;
    Unfold(d, job, id, rs);
    Unfold(d1, job, id, rs[1..]);
    RowStaysGone(d2, job, id, rs[2..], n);
  }

  lemma RowEvicted(s: State, t: State, job: Job, rs: seq<AgentId>)
    requires RecipientsOk(rs) && job.key.Some? && |rs| >= 2 && t.disk == AfterSend(s.disk, job, rs)
    ensures (rs[0], (SeqOf(s.disk.seqs, rs[0]) + 1) as int) !in t.disk.rows
  {
    hide DeliverAll, SeqOf, OneLine;
    FirstRowGone(s.disk.(counter := s.disk.counter + 1), job, s.disk.counter + 1, rs);
  }

  lemma NoLaterRows(t: State, a: AgentId, q: int)
    requires Inv(t) && SeqOf(t.disk.seqs, a) <= q
    ensures forall n :: n in t.disk.rows && n.0 == a ==> n.1 <= q
  {
    assert RowsOk(t) && NamesOk(t.hist, t.disk.seqs);
    hide Inv, SeqOf, WellFormed, UniqueKeys;
  }

  /** A resend of that key is answered with a single delivery, whatever the original returned. */
  lemma BroadcastAnswerIsPartial(s: State, pid: nat, job: Job, rs: seq<AgentId>, res: SendResult)
    requires Inv(s) && CanBeginSend(s, job, rs) && job.key.Some? && |rs| >= 2
    requires Legal(s, SendSteps(pid, job, rs))
    requires Answers(Run(s, SendSteps(pid, job, rs)).disk, job.key.value, res)
    ensures |res.delivered| == 1 && |ResultOf(s.disk, job, rs).delivered| == |rs|
  {
    var steps := SendSteps(pid, job, rs);
    var t := Run(s, steps);
    hide Inv, Legal, Run, SendSteps, KeyKnown, AfterSend, ResultOf, JobOk, IndexAnswer, UniqueKeys, RowHasKey;
    SendIsRun(s, pid, job, rs);
    RunKeeps(s, steps);
    var n := KeyRow(s.disk, job, rs);
    UniqueRows(t);
    UniqueAnswer(t.disk.rows, job.key.value, res, n);
    ResultCount(s.disk, job, rs);
  }

  lemma KeyRow(d: Disk, job: Job, rs: seq<AgentId>) returns (n: Name)
    requires rs != [] && job.key.Some? && RecipientsOk(rs)
    ensures RowHasKey(AfterSend(d, job, rs).rows, n, job.key.value)
  {
    hide DeliverAll;
    n := LastRowIsThere(d.(counter := d.counter + 1), job, d.counter + 1, rs);
  }

  lemma ResultCount(d: Disk, job: Job, rs: seq<AgentId>)
    ensures |ResultOf(d, job, rs).delivered| == |rs|
  {
    hide DeliveriesOf;
    DeliveryCount(d.(counter := d.counter + 1), job, d.counter + 1, rs);
  }

  lemma UniqueRows(t: State)
    requires Inv(t)
    ensures UniqueKeys(t.disk.rows)
  {
    assert RowsOk(t);
    hide Inv, UniqueKeys;
  }

  lemma {:induction false} DeliveryCount(d: Disk, job: Job, id: nat, rs: seq<AgentId>)
    ensures |DeliveriesOf(d, job, id, rs)| == |rs|
    decreases rs
  {
    hide DeliverTo;
    if rs != [] {
      DeliveryCount(DeliverTo(d, job, id, rs[0]), job, id, rs[1..]);
    }
  }
}
