/** The durable state under one bus root: counters, mailbox logs, cold archives and the derived
    index table, with the elementary writes the bus performs on them. */
module Storage {
  import opened Text
  import opened Codec

  type AgentId = string
  type Files = map<AgentId, Bytes>

  /** A record is named by its mailbox and its seq in that mailbox. */
  type Name = (AgentId, int)

  // ---- The index table ----

  datatype Row = Row(id: int, from: string, dedup: Option<string>)

  /** The message table; the map key is its primary key (mailbox, seq). */
  type Table = map<Name, Row>

  function RowOf(r: Record): Row {
    Row(r.id, r.from, r.dedup)
  }

  /** INSERT OR REPLACE under the primary key and the unique index on non-null dedup_id: every row
      that conflicts on either is deleted first. */
  function InsertOrReplace(t: Table, name: Name, row: Row): Table {
    (map n | n in t && n != name && !(row.dedup.Some? && t[n].dedup == row.dedup) :: t[n])[name := row]
  }

  /** The rows a list of inserts leaves in an empty table. */
  function InsertSeq(es: seq<(Name, Row)>): Table {
    if es == [] then map[]
    else InsertOrReplace(InsertSeq(es[..|es| - 1]), es[|es| - 1].0, es[|es| - 1].1)
  }

  ghost predicate UniqueKeys(t: Table) {
    forall m, n :: m in t && n in t && t[m].dedup.Some? && t[m].dedup == t[n].dedup ==> m == n
  }

  // ---- Files ----

  datatype Disk = Disk(
    counter: nat,
    seqs: map<AgentId, nat>,
    logs: Files,
    archives: Files,
    rows: Table)

  const EMPTY: Disk := Disk(0, map[], map[], map[], map[])

  /** A missing file reads as empty. */
  function FileOf(files: Files, a: AgentId): Bytes {
    if a in files then files[a] else ""
  }

  function SeqOf(seqs: map<AgentId, nat>, a: AgentId): nat {
    if a in seqs then seqs[a] else 0
  }

  function RecordsIn(data: Bytes): seq<Record> {
    match ParseAll(data)
    case Parses(rs, _, _) => rs
    case Fails(_) => []
  }

  predicate Readable(data: Bytes) {
    ParseAll(data).Parses?
  }

  /** Every byte belongs to a complete record. */
  predicate Settled(data: Bytes) {
    ParseAll(data).Parses? && ParseAll(data).tailComplete
  }

  /** The complete records of one file. */
  function RecordsOf(files: Files, a: AgentId): seq<Record> {
    RecordsIn(FileOf(files, a))
  }

  // ---- Log entries in scan order ----

  /** The index rows of one mailbox's records. */
  function EntriesOf(a: AgentId, rs: seq<Record>): seq<(Name, Row)> {
    seq(|rs|, i requires 0 <= i < |rs| => ((a, rs[i].seqNo), RowOf(rs[i])))
  }

  /** The index rows of all mailboxes, visited in the given order. */
  function Entries(order: seq<AgentId>, logs: Files): seq<(Name, Row)> {
    if order == [] then []
    else Entries(order[..|order| - 1], logs) + EntriesOf(order[|order| - 1], RecordsOf(logs, order[|order| - 1]))
  }

  /** The records carrying a key, in scan order, with their mailboxes. */
  function HitsIn(a: AgentId, rs: seq<Record>, key: string): seq<(AgentId, Record)> {
    if rs == [] then []
    else
      var init := HitsIn(a, rs[..|rs| - 1], key);
      if rs[|rs| - 1].dedup == Some(key) then init + [(a, rs[|rs| - 1])] else init
  }

  function Hits(order: seq<AgentId>, logs: Files, key: string): seq<(AgentId, Record)> {
    if order == [] then []
    else
      Hits(order[..|order| - 1], logs, key)
      + HitsIn(order[|order| - 1], RecordsOf(logs, order[|order| - 1]), key)
  }

  /** The largest id among the records, or 0. */
  function MaxId(rs: seq<Record>): nat {
    if rs == [] then 0
    else
      var m := MaxId(rs[..|rs| - 1]);
      if rs[|rs| - 1].id > m then rs[|rs| - 1].id else m
  }

  function MaxIdOver(order: seq<AgentId>, logs: Files): nat {
    if order == [] then 0
    else
      var m := MaxIdOver(order[..|order| - 1], logs);
      var n := MaxId(RecordsOf(logs, order[|order| - 1]));
      if n > m then n else m
  }

  /** order lists the existing mailbox logs, each once. */
  ghost predicate Lists(order: seq<AgentId>, files: Files) {
    && (forall a :: a in order <==> a in files)
    && (forall i, j :: 0 <= i < j < |order| ==> order[i] != order[j])
  }

  // ---- Results ----

  datatype Delivery = Delivery(agent: AgentId, seqNo: int)

  datatype SendResult = SendResult(id: int, delivered: seq<Delivery>)
}
