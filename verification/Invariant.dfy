/** What every step of the protocol keeps. */
module Invariant {
  import opened Text
  import opened Codec
  import opened CodecLaws
  import opened Storage
  import opened Protocol

  // ---- The invariant ----

  /** Archives always end on a record boundary; live logs do unless a power loss tore one that no
      recovery has reached yet. */
  ghost predicate FilesOk(s: State) {
    && (forall a :: Readable(FileOf(s.disk.logs, a)))
    && (forall a :: Settled(FileOf(s.disk.archives, a)))
    && (!s.down ==> forall a :: Settled(FileOf(s.disk.logs, a)))
    && (s.lock.Held? && s.lock.pc.Recovering? ==>
          forall a :: a !in s.lock.pc.untouched ==> Settled(FileOf(s.disk.logs, a)))
    && (s.lock.Held? && s.lock.pc.Rebuilding? ==> forall a :: Settled(FileOf(s.disk.logs, a)))
  }

  type History = map<Name, Entry>

  /** The named record is stored in the given files. */
  ghost predicate In(files: Files, hist: History, n: Name) {
    n in hist && hist[n].rec in RecordsOf(files, n.0)
  }

  ghost predicate IsLive(s: State, n: Name) {
    In(s.disk.logs, s.hist, n)
  }

  ghost predicate IsCold(s: State, n: Name) {
    In(s.disk.archives, s.hist, n)
  }

  /** Every stored record is a historical one under its own name. */
  ghost predicate Named(files: Files, hist: History) {
    forall a, r :: r in RecordsOf(files, a) ==> (a, r.seqNo) in hist && hist[(a, r.seqNo)].rec == r
  }

  /** Nothing is lost: every historical record is live or archived. */
  ghost predicate Kept(logs: Files, archives: Files, hist: History) {
    forall n :: n in hist ==> In(logs, hist, n) || In(archives, hist, n)
  }

  /** Records are well formed and carry their names, and no seq ever given is above its counter. */
  ghost predicate NamesOk(hist: History, seqs: map<AgentId, nat>) {
    forall n :: n in hist ==>
      && hist[n].rec.seqNo == n.1 && hist[n].rec.to == n.0 && 1 <= n.1 <= SeqOf(seqs, n.0)
      && WellFormed(hist[n].rec) && hist[n].rec.dedup == StoredKey(hist[n].key)
  }

  ghost predicate HistOk(s: State) {
    && Named(s.disk.logs, s.hist)
    && Named(s.disk.archives, s.hist)
    && Kept(s.disk.logs, s.disk.archives, s.hist)
    && NamesOk(s.hist, s.disk.seqs)
  }

  /** One send writes one id, one key and at most one record per mailbox. */
  ghost predicate SendsOk(s: State) {
    && (forall n :: n in s.hist ==> s.hist[n].send <= s.sends)
    && (forall m, n :: m in s.hist && n in s.hist && s.hist[m].send == s.hist[n].send ==>
          && s.hist[m].rec.id == s.hist[n].rec.id
          && s.hist[m].rec.dedup == s.hist[n].rec.dedup
          && (m.0 == n.0 ==> m == n))
  }

  ghost predicate Ascending(rs: seq<Record>) {
    forall i, j :: 0 <= i < j < |rs| ==> rs[i].seqNo < rs[j].seqNo && rs[i].id < rs[j].id
  }

  ghost predicate Ascends(files: Files) {
    forall a :: Ascending(RecordsOf(files, a))
  }

  ghost predicate IdsBounded(logs: Files, hist: History, counter: nat) {
    forall n :: In(logs, hist, n) ==> 1 <= hist[n].rec.id <= counter
  }

  ghost predicate IdsShared(logs: Files, hist: History) {
    forall m, n :: In(logs, hist, m) && In(logs, hist, n) && hist[m].rec.id == hist[n].rec.id ==>
      hist[m].send == hist[n].send
  }

  ghost predicate SameKey(r: Record, q: Record) {
    r.dedup.Some? && r.dedup == q.dedup
  }

  ghost predicate KeysShared(logs: Files, hist: History) {
    forall m, n :: In(logs, hist, m) && In(logs, hist, n) && SameKey(hist[m].rec, hist[n].rec) ==>
      hist[m].send == hist[n].send
  }

  /** Live logs ascend in seq and in id, no live id is above the counter, and two live records
      share an id or a key only if one send wrote both. */
  ghost predicate LiveOk(s: State) {
    && Ascends(s.disk.logs)
    && IdsBounded(s.disk.logs, s.hist, s.disk.counter)
    && IdsShared(s.disk.logs, s.hist)
    && KeysShared(s.disk.logs, s.hist)
  }

  /** The row of the record, under the caller's key or under the key the log keeps. */
  ghost predicate RowFits(row: Row, e: Entry) {
    row.id == e.rec.id && row.from == e.rec.from && (row.dedup == e.rec.dedup || row.dedup == e.key)
  }

  /** Every index row is the row of the historical record it names, and keys are unique. */
  ghost predicate RowsOk(s: State) {
    && (forall n :: n in s.disk.rows ==> n in s.hist && RowFits(s.disk.rows[n], s.hist[n]))
    && UniqueKeys(s.disk.rows)
  }

  ghost predicate DeliveredOk(hist: History, delivered: seq<Delivery>, job: Job, id: int) {
    forall i :: 0 <= i < |delivered| ==>
      var n := (delivered[i].agent, delivered[i].seqNo);
      n in hist && hist[n].rec == RecordFor(job, id, n.0, n.1)
  }

  /** A returned result names records that carry its id and the caller's message. */
  ghost predicate ReceiptsOk(s: State) {
    forall c :: c in s.receipts ==> DeliveredOk(s.hist, c.result.delivered, c.job, c.result.id)
  }

  /** The recipients the running send has not appended to yet. */
  function Untouched(pc: Pc): seq<AgentId>
    requires pc.Sending? && (pc.todo == [] ==> pc.stage.Ready?)
  {
    if pc.stage.Written? then pc.todo[1..] else pc.todo
  }

  /** Among live records only the given send has this id, and this key. */
  ghost predicate Own(logs: Files, hist: History, send: nat, id: int, key: Option<string>) {
    forall n :: In(logs, hist, n) && (hist[n].rec.id == id || (key.Some? && hist[n].rec.dedup == key)) ==>
      hist[n].send == send
  }

  /** What the given send has written so far. */
  ghost predicate Writes(hist: History, send: nat, job: Job, id: int, untouched: seq<AgentId>) {
    forall n :: n in hist && hist[n].send == send ==>
      hist[n].rec == RecordFor(job, id, n.0, n.1) && hist[n].key == job.key && n.0 !in untouched
  }

  ghost predicate SeqIsNew(hist: History, seqs: map<AgentId, nat>, a: AgentId, q: int) {
    1 <= q <= SeqOf(seqs, a) && forall n :: n in hist && n.0 == a ==> n.1 < q
  }

  /** The newest record of its mailbox, not yet in the index. */
  ghost predicate IsNewest(s: State, n: Name) {
    n !in s.disk.rows && forall m :: m in s.hist && m.0 == n.0 ==> m.1 <= n.1
  }

  ghost predicate IsWritten(s: State, pc: Pc)
    requires pc.Sending? && pc.todo != [] && pc.stage.Written?
  {
    var n := (pc.todo[0], pc.stage.seqNo as int);
    && IsLive(s, n) && s.hist[n] == Entry(s.sends, PendingRecord(pc), pc.job.key)
    && IsNewest(s, n)
  }

  /** The record appended whose row is about to be inserted. */
  ghost predicate AwaitsRow(s: State, n: Name) {
    && s.lock.Held? && s.lock.pc.Sending? && s.lock.pc.stage.Written? && s.lock.pc.todo != []
    && n == (s.lock.pc.todo[0], s.lock.pc.stage.seqNo as int)
  }

  ghost predicate SendPcOk(s: State, pc: Pc)
    requires pc.Sending?
  {
    && !s.down && JobOk(pc.job) && RecipientsOk(pc.todo) && (pc.todo == [] ==> pc.stage.Ready?)
    && 1 <= pc.id == s.disk.counter
    && DeliveredOk(s.hist, pc.delivered, pc.job, pc.id)
    && Writes(s.hist, s.sends, pc.job, pc.id, Untouched(pc))
    && Own(s.disk.logs, s.hist, s.sends, pc.id, pc.job.key)
    && match pc.stage
       case Ready => true
       case Numbered(q) => SeqIsNew(s.hist, s.disk.seqs, pc.todo[0], q)
       case Written(_) => IsWritten(s, pc)
  }

  ghost predicate PcOk(s: State) {
    s.lock.Held? ==>
      match s.lock.pc
      case Sending(_, _, _, _, _) => SendPcOk(s, s.lock.pc)
      case Compacting(a, b) =>
        && b <= |FileOf(s.disk.logs, a)| && !s.down
        && Settled(FileOf(s.disk.logs, a)[..b]) && Settled(FileOf(s.disk.logs, a)[b..])
        && RecordsOf(s.disk.logs, a) == RecordsIn(FileOf(s.disk.logs, a)[..b]) + RecordsIn(FileOf(s.disk.logs, a)[b..])
        && (forall r :: r in RecordsIn(FileOf(s.disk.logs, a)[..b]) ==> r in RecordsOf(s.disk.archives, a))
      case Recovering(_) => true
      case Rebuilding => true
  }

  ghost predicate Inv(s: State) {
    FilesOk(s) && HistOk(s) && SendsOk(s) && LiveOk(s) && RowsOk(s) && ReceiptsOk(s) && PcOk(s)
  }

  lemma InvParts(s: State)
    requires Inv(s)
    ensures FilesOk(s) && HistOk(s) && SendsOk(s) && LiveOk(s) && RowsOk(s) && ReceiptsOk(s) && PcOk(s)
  {
    hide FilesOk, HistOk, SendsOk, LiveOk, RowsOk, ReceiptsOk, PcOk;
  }
}
