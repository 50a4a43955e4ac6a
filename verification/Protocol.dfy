/** The send / compact / open protocol as a state machine over the durable writes. Any number of
    processes share the disk; one advisory lock serialises their critical sections, so at most one
    process is inside one, and its program counter is part of the lock. A process may be killed
    between any two writes; a power loss may in addition tear the append in progress. */
module Protocol {
  import opened Text
  import opened Codec
  import opened CodecLaws
  import opened Storage
  import opened Compaction

  /** What a caller asks to be sent; key is the dedup_id, absent when the caller gave none. */
  datatype Job = Job(
    from: AgentId,
    fromRole: string,
    kind: string,
    body: Bytes,
    inReplyTo: Option<int>,
    ts: string,
    key: Option<string>)

  /** What the log keeps of a caller's key: "-" is the mark for no key. */
  function StoredKey(key: Option<string>): Option<string> {
    if key == Some("-") then None else key
  }

  /** The record as it can be read back from the log. */
  function RecordFor(job: Job, id: int, to: AgentId, seqNo: int): Record {
    Record(seqNo, id, job.from, job.fromRole, to, job.kind, job.inReplyTo, job.ts, StoredKey(job.key), job.body)
  }

  /** The index row of a sent record, which holds the caller's key as it was given. */
  function RowFor(job: Job, id: int): Row {
    Row(id, job.from, job.key)
  }

  /** Header values are single lines; an absent key is None. */
  ghost predicate JobOk(job: Job) {
    && OneLine(job.from) && OneLine(job.fromRole) && OneLine(job.kind) && IsTimestamp(job.ts)
    && (job.key.Some? ==> OneLine(job.key.value) && job.key.value != "")
  }

  ghost predicate RecipientsOk(rs: seq<AgentId>) {
    && (forall i :: 0 <= i < |rs| ==> OneLine(rs[i]))
    && (forall i, j :: 0 <= i < j < |rs| ==> rs[i] != rs[j])
  }

  // ---- State ----

  /** Progress on the first recipient still to do. */
  datatype Stage = Ready | Numbered(seqNo: nat) | Written(seqNo: nat)

  datatype Pc =
    | Sending(job: Job, id: nat, todo: seq<AgentId>, delivered: seq<Delivery>, stage: Stage)
    | Compacting(agent: AgentId, boundary: nat)
    | Recovering(untouched: seq<AgentId>)
    | Rebuilding

  datatype Lock = Free | Held(pid: nat, pc: Pc)

  /** History: which send wrote the record, and under which key its caller asked for it. Sends are
      numbered in the order they took an id. */
  datatype Entry = Entry(send: nat, rec: Record, key: Option<string>)

  /** A result that was returned to a caller. */
  datatype Receipt = Receipt(job: Job, result: SendResult)

  /** hist, sends and receipts are history: no step of the bus reads them. down means that a power
      loss happened and no recovery has completed since. */
  datatype State = State(
    disk: Disk,
    lock: Lock,
    down: bool,
    hist: map<Name, Entry>,
    sends: nat,
    receipts: set<Receipt>)

  const INIT: State := State(EMPTY, Free, false, map[], 0, {})

  // ---- Dedup visibility ----

  ghost predicate RowHasKey(rows: Table, n: Name, key: string) {
    n in rows && rows[n].dedup == Some(key)
  }

  ghost predicate LogHasKey(logs: Files, a: AgentId, r: Record, key: string) {
    r in RecordsOf(logs, a) && r.dedup == Some(key)
  }

  /** The dedup check finds the key: in the index, or failing that in a live log. */
  ghost predicate KeyKnown(d: Disk, key: string) {
    || (exists n :: RowHasKey(d.rows, n, key))
    || (exists a, r :: LogHasKey(d.logs, a, r, key))
  }

  // ---- Steps ----

  datatype Step =
    | BeginSend(pid: nat, job: Job, recipients: seq<AgentId>)
    | WriteSeq
    | AppendRecord
    | InsertRow
    | FinishSend
    | ArchivePrefix(pid: nat, agent: AgentId, upTo: int)
    | RewriteLog
    | BeginOpen(pid: nat, order: seq<AgentId>)
    | TruncateTail
    | WriteCounter(order: seq<AgentId>)
    | RebuildIndex(order: seq<AgentId>)
    | Kill
    | PowerLoss(torn: nat)

  ghost predicate SendingAt(s: State, ready: bool, numbered: bool, written: bool) {
    && s.lock.Held? && s.lock.pc.Sending? && s.lock.pc.todo != []
    && match s.lock.pc.stage
       case Ready => ready
       case Numbered(_) => numbered
       case Written(_) => written
  }

  /** The record the sending process is about to append, or has just appended. */
  function PendingRecord(pc: Pc): Record
    requires pc.Sending? && pc.todo != [] && !pc.stage.Ready?
  {
    RecordFor(pc.job, pc.id, pc.todo[0], pc.stage.seqNo)
  }

  ghost predicate CanBeginSend(s: State, job: Job, recipients: seq<AgentId>) {
    && s.lock.Free? && !s.down && JobOk(job) && RecipientsOk(recipients) && recipients != []
    && (job.key.Some? ==> !KeyKnown(s.disk, job.key.value))
  }

  ghost predicate CanArchive(s: State, a: AgentId, upTo: int) {
    && s.lock.Free? && !s.down
    && var c := CompactPoint(FileOf(s.disk.logs, a), upTo); c.CutAt? && c.boundary > 0
  }

  ghost predicate CanRewrite(s: State) {
    && s.lock.Held? && s.lock.pc.Compacting?
    && s.lock.pc.boundary <= |FileOf(s.disk.logs, s.lock.pc.agent)|
  }

  ghost predicate CanTruncate(s: State) {
    s.lock.Held? && s.lock.pc.Recovering? && s.lock.pc.untouched != []
  }

  ghost predicate CanWriteCounter(s: State, order: seq<AgentId>) {
    s.lock.Held? && s.lock.pc.Recovering? && s.lock.pc.untouched == [] && Lists(order, s.disk.logs)
  }

  ghost predicate CanRebuild(s: State, order: seq<AgentId>) {
    s.lock.Held? && s.lock.pc.Rebuilding? && Lists(order, s.disk.logs)
  }

  /** Only an append in progress can be torn, and a torn append is incomplete. */
  ghost predicate CanLosePower(s: State, torn: nat) {
    torn > 0 ==> SendingAt(s, false, true, false) && torn < |Encoding(PendingRecord(s.lock.pc))|
  }

  ghost predicate Enabled(s: State, st: Step) {
    match st
    case BeginSend(pid, job, recipients) => CanBeginSend(s, job, recipients)
    case WriteSeq => SendingAt(s, true, false, false)
    case AppendRecord => SendingAt(s, false, true, false)
    case InsertRow => SendingAt(s, false, false, true)
    case FinishSend => s.lock.Held? && s.lock.pc.Sending? && s.lock.pc.todo == []
    case ArchivePrefix(pid, a, upTo) => CanArchive(s, a, upTo)
    case RewriteLog => CanRewrite(s)
    case BeginOpen(pid, order) => s.lock.Free? && Lists(order, s.disk.logs)
    case TruncateTail => CanTruncate(s)
    case WriteCounter(order) => CanWriteCounter(s, order)
    case RebuildIndex(order) => CanRebuild(s, order)
    case Kill => s.lock.Held?
    case PowerLoss(torn) => CanLosePower(s, torn)
  }

  function AppendTo(files: Files, a: AgentId, data: Bytes): Files {
    files[a := FileOf(files, a) + data]
  }

  /** The id is taken and persisted before anything is appended. */
  function DoBeginSend(s: State, pid: nat, job: Job, recipients: seq<AgentId>): State {
    var id := s.disk.counter + 1;
    s.(disk := s.disk.(counter := id),
       lock := Held(pid, Sending(job, id, recipients, [], Ready)),
       sends := s.sends + 1)
  }

  ghost function DoWriteSeq(s: State): State
    requires SendingAt(s, true, false, false)
  {
    var a := s.lock.pc.todo[0];
    var q := SeqOf(s.disk.seqs, a) + 1;
    s.(disk := s.disk.(seqs := s.disk.seqs[a := q]), lock := s.lock.(pc := s.lock.pc.(stage := Numbered(q))))
  }

  ghost function DoAppend(s: State): State
    requires SendingAt(s, false, true, false)
  {
    var a := s.lock.pc.todo[0];
    var rec := PendingRecord(s.lock.pc);
    s.(disk := s.disk.(logs := AppendTo(s.disk.logs, a, Encoding(rec))),
       hist := s.hist[(a, rec.seqNo) := Entry(s.sends, rec, s.lock.pc.job.key)],
       lock := s.lock.(pc := s.lock.pc.(stage := Written(s.lock.pc.stage.seqNo))))
  }

  ghost function DoInsertRow(s: State): State
    requires SendingAt(s, false, false, true)
  {
    var pc := s.lock.pc;
    var a := pc.todo[0];
    var rec := PendingRecord(pc);
    s.(disk := s.disk.(rows := InsertOrReplace(s.disk.rows, (a, rec.seqNo), RowFor(pc.job, pc.id))),
       lock := s.lock.(pc := pc.(todo := pc.todo[1..],
                                 delivered := pc.delivered + [Delivery(a, rec.seqNo)],
                                 stage := Ready)))
  }

  ghost function DoFinishSend(s: State): State
    requires s.lock.Held? && s.lock.pc.Sending?
  {
    s.(lock := Free,
       receipts := s.receipts + {Receipt(s.lock.pc.job, SendResult(s.lock.pc.id, s.lock.pc.delivered))})
  }

  ghost function DoArchive(s: State, pid: nat, a: AgentId, upTo: int): State
    requires CanArchive(s, a, upTo)
  {
    var data := FileOf(s.disk.logs, a);
    var b := CompactPoint(data, upTo).boundary;
    s.(disk := s.disk.(archives := AppendTo(s.disk.archives, a, data[..b])), lock := Held(pid, Compacting(a, b)))
  }

  ghost function DoRewrite(s: State): State
    requires CanRewrite(s)
  {
    var a := s.lock.pc.agent;
    s.(disk := s.disk.(logs := s.disk.logs[a := FileOf(s.disk.logs, a)[s.lock.pc.boundary..]]), lock := Free)
  }

  ghost function DoTruncate(s: State): State
    requires CanTruncate(s)
  {
    var a := s.lock.pc.untouched[0];
    s.(disk := s.disk.(logs := s.disk.logs[a := Truncated(FileOf(s.disk.logs, a))]),
       lock := s.lock.(pc := Recovering(s.lock.pc.untouched[1..])))
  }

  ghost function DoWriteCounter(s: State, order: seq<AgentId>): State
    requires CanWriteCounter(s, order)
  {
    s.(disk := s.disk.(counter := MaxIdOver(order, s.disk.logs)), lock := s.lock.(pc := Rebuilding))
  }

  ghost function DoRebuild(s: State, order: seq<AgentId>): State {
    s.(disk := s.disk.(rows := InsertSeq(Entries(order, s.disk.logs))), lock := Free, down := false)
  }

  ghost function DoLosePower(s: State, torn: nat): State
    requires CanLosePower(s, torn)
  {
    var s' := s.(lock := Free, down := true);
    if torn == 0 then s'
    else s'.(disk := s.disk.(logs := AppendTo(s.disk.logs, s.lock.pc.todo[0], Encoding(PendingRecord(s.lock.pc))[..torn])))
  }

  ghost function Apply(s: State, st: Step): State
    requires Enabled(s, st)
  {
    match st
    case BeginSend(pid, job, recipients) => DoBeginSend(s, pid, job, recipients)
    case WriteSeq => DoWriteSeq(s)
    case AppendRecord => DoAppend(s)
    case InsertRow => DoInsertRow(s)
    case FinishSend => DoFinishSend(s)
    case ArchivePrefix(pid, a, upTo) => DoArchive(s, pid, a, upTo)
    case RewriteLog => DoRewrite(s)
    case BeginOpen(pid, order) => s.(lock := Held(pid, Recovering(order)))
    case TruncateTail => DoTruncate(s)
    case WriteCounter(order) => DoWriteCounter(s, order)
    case RebuildIndex(order) => DoRebuild(s, order)
    case Kill => s.(lock := Free)
    case PowerLoss(torn) => DoLosePower(s, torn)
  }

  // ---- Runs ----

  ghost predicate Legal(s: State, steps: seq<Step>)
    decreases steps
  {
    steps == [] || (Enabled(s, steps[0]) && Legal(Apply(s, steps[0]), steps[1..]))
  }

  ghost function Run(s: State, steps: seq<Step>): State
    requires Legal(s, steps)
    decreases steps
  {
    if steps == [] then s else Run(Apply(s, steps[0]), steps[1..])
  }

  ghost predicate Reachable(s: State) {
    exists steps :: Legal(INIT, steps) && Run(INIT, steps) == s
  }

  lemma {:induction false} RunConcat(s: State, xs: seq<Step>, ys: seq<Step>)
    requires Legal(s, xs)
    ensures Legal(s, xs + ys) <==> Legal(Run(s, xs), ys)
    ensures Legal(s, xs + ys) ==> Run(s, xs + ys) == Run(Run(s, xs), ys)
    decreases xs
  {
    hide Enabled, Apply;
    if xs == [] {
      assert xs + ys == ys;
    } else {
      assert (xs + ys)[0] == xs[0] && (xs + ys)[1..] == xs[1..] + ys;
      RunConcat(Apply(s, xs[0]), xs[1..], ys);
    }
  }
}
