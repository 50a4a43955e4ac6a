/** What the index table and the log scans contain. */
module StorageLaws {
  import opened Text
  import opened Codec
  import opened CodecLaws
  import opened Storage

  // ---- Which records a scan visits ----

  lemma {:induction false} InEntries(order: seq<AgentId>, logs: Files, a: AgentId, i: nat)
    requires a in order && i < |RecordsOf(logs, a)|
    ensures ((a, RecordsOf(logs, a)[i].seqNo), RowOf(RecordsOf(logs, a)[i])) in Entries(order, logs)
  {
    hide RecordsOf;
    var last := order[|order| - 1];
    assert order == order[..|order| - 1] + [last];
    if a == last {
      var es := EntriesOf(a, RecordsOf(logs, a));
      assert es[i] in es;
    } else {
      InEntries(order[..|order| - 1], logs, a, i);
    }
  }

  /** Every entry is the row of a record of a listed mailbox. */
  lemma {:induction false} EntrySource(order: seq<AgentId>, logs: Files, k: nat) returns (i: nat)
    requires k < |Entries(order, logs)|
    ensures var e := Entries(order, logs)[k];
            && e.0.0 in order && i < |RecordsOf(logs, e.0.0)|
            && e == ((e.0.0, RecordsOf(logs, e.0.0)[i].seqNo), RowOf(RecordsOf(logs, e.0.0)[i]))
  {
    hide RecordsOf;
    var init := Entries(order[..|order| - 1], logs);
    if k < |init| {
      i := EntrySource(order[..|order| - 1], logs, k);
    } else {
      i := k - |init|;
    }
  }

  // ---- What a list of inserts leaves ----

  /** A row that survives was inserted. */
  lemma {:induction false} InsertSeqSource(es: seq<(Name, Row)>, n: Name) returns (i: nat)
    requires n in InsertSeq(es)
    ensures i < |es| && es[i] == (n, InsertSeq(es)[n])
  {
    var last := |es| - 1;
    if es[last].0 == n {
      i := last;
    } else {
      i := InsertSeqSource(es[..last], n);
    }
  }

  lemma InsertKeepsUnique(t: Table, n: Name, row: Row)
    requires UniqueKeys(t)
    ensures UniqueKeys(InsertOrReplace(t, n, row))
  {
  }

  lemma {:induction false} InsertSeqUnique(es: seq<(Name, Row)>)
    ensures UniqueKeys(InsertSeq(es))
  {
    if es != [] {
      InsertSeqUnique(es[..|es| - 1]);
      InsertKeepsUnique(InsertSeq(es[..|es| - 1]), es[|es| - 1].0, es[|es| - 1].1);
    }
  }

  ghost predicate DistinctNames(es: seq<(Name, Row)>) {
    forall i, j :: 0 <= i < j < |es| && es[i].0 == es[j].0 ==> es[i] == es[j]
  }

  /** A key some inserted row carries is still carried by a row afterwards. */
  lemma {:induction false} InsertSeqKeepsKey(es: seq<(Name, Row)>, i: nat) returns (n: Name)
    requires DistinctNames(es) && i < |es| && es[i].1.dedup.Some?
    ensures n in InsertSeq(es) && InsertSeq(es)[n].dedup == es[i].1.dedup
  {
    var last := |es| - 1;
    if es[last].1.dedup == es[i].1.dedup {
      n := es[last].0;
    } else {
      n := InsertSeqKeepsKey(es[..last], i);
      var j := InsertSeqSource(es[..last], n);
      assert es[..last][j] == es[j];
    }
  }

  /** No two entries compete for a primary key or for a dedup key. */
  ghost predicate NoConflict(es: seq<(Name, Row)>) {
    && DistinctNames(es)
    && forall i, j :: 0 <= i < j < |es| && es[i].1.dedup.Some? && es[i].1.dedup == es[j].1.dedup ==>
         es[i].0 == es[j].0
  }

  /** Without competition every inserted row is in the table. */
  lemma {:induction false} InsertSeqKeepsAll(es: seq<(Name, Row)>, i: nat)
    requires NoConflict(es) && i < |es|
    ensures es[i].0 in InsertSeq(es) && InsertSeq(es)[es[i].0] == es[i].1
  {
    var last := |es| - 1;
    if i < last && es[i].0 != es[last].0 {
      assert es[..last][i] == es[i];
      InsertSeqKeepsAll(es[..last], i);
    }
  }

  // ---- Dedup hits ----

  lemma {:induction false} HitsInSound(a: AgentId, rs: seq<Record>, key: string, k: nat)
    requires k < |HitsIn(a, rs, key)|
    ensures var h := HitsIn(a, rs, key)[k]; h.0 == a && h.1 in rs && h.1.dedup == Some(key)
  {
    var init := rs[..|rs| - 1];
    if k < |HitsIn(a, init, key)| {
      HitsInSound(a, init, key, k);
    }
  }

  lemma {:induction false} HitsInComplete(a: AgentId, rs: seq<Record>, key: string, r: Record)
    requires r in rs && r.dedup == Some(key)
    ensures (a, r) in HitsIn(a, rs, key)
  {
    var init := rs[..|rs| - 1];
    assert rs == init + [rs[|rs| - 1]];
    if r != rs[|rs| - 1] {
      HitsInComplete(a, init, key, r);
    }
  }

  lemma {:induction false} HitsSound(order: seq<AgentId>, logs: Files, key: string, k: nat)
    requires k < |Hits(order, logs, key)|
    ensures var h := Hits(order, logs, key)[k];
            h.0 in order && h.1 in RecordsOf(logs, h.0) && h.1.dedup == Some(key)
  {
    hide RecordsOf;
    var last := order[|order| - 1];
    var init := order[..|order| - 1];
    if k < |Hits(init, logs, key)| {
      HitsSound(init, logs, key, k);
    } else {
      HitsInSound(last, RecordsOf(logs, last), key, k - |Hits(init, logs, key)|);
    }
  }

  lemma {:induction false} HitsComplete(order: seq<AgentId>, logs: Files, key: string, a: AgentId, r: Record)
    requires a in order && r in RecordsOf(logs, a) && r.dedup == Some(key)
    ensures (a, r) in Hits(order, logs, key)
  {
    hide RecordsOf;
    var last := order[|order| - 1];
    var init := order[..|order| - 1];
    assert order == init + [last];
    if a == last {
      HitsInComplete(a, RecordsOf(logs, a), key, r);
    } else {
      HitsComplete(init, logs, key, a, r);
    }
  }

  // ---- The largest id ----

  lemma {:induction false} MaxIdBounds(rs: seq<Record>)
    ensures forall r :: r in rs ==> r.id <= MaxId(rs)
    ensures MaxId(rs) > 0 ==> exists r :: r in rs && r.id == MaxId(rs)
  {
    if rs != [] {
      var init, last := rs[..|rs| - 1], rs[|rs| - 1];
      assert rs == init + [last];
      MaxIdBounds(init);
      assert last in rs;
    }
  }

  lemma {:induction false} MaxIdOverBounds(order: seq<AgentId>, logs: Files)
    ensures forall a, r :: a in order && r in RecordsOf(logs, a) ==> r.id <= MaxIdOver(order, logs)
    ensures MaxIdOver(order, logs) > 0 ==>
              exists a, r :: a in order && r in RecordsOf(logs, a) && r.id == MaxIdOver(order, logs)
  {
    hide RecordsOf;
    if order != [] {
      var init, last := order[..|order| - 1], order[|order| - 1];
      assert order == init + [last];
      MaxIdOverBounds(init, logs);
      MaxIdBounds(RecordsOf(logs, last));
      assert last in order;
    }
  }

  // ---- File updates ----

  lemma FileUpdate(files: Files, a: AgentId, data: Bytes)
    ensures FileOf(files[a := data], a) == data && RecordsOf(files[a := data], a) == RecordsIn(data)
    ensures forall b :: b != a ==> FileOf(files[a := data], b) == FileOf(files, b)
    ensures forall b :: b != a ==> RecordsOf(files[a := data], b) == RecordsOf(files, b)
  {
    hide RecordsIn;
  }

  /** Appending an encoding appends its record, to that log only. */
  lemma AppendView(logs: Files, a: AgentId, r: Record, logs': Files)
    requires Settled(FileOf(logs, a)) && WellFormed(r)
    requires logs' == logs[a := FileOf(logs, a) + Encoding(r)]
    ensures Settled(FileOf(logs', a)) && RecordsOf(logs', a) == RecordsOf(logs, a) + [r]
    ensures forall b :: b != a ==> FileOf(logs', b) == FileOf(logs, b)
    ensures forall b :: b != a ==> RecordsOf(logs', b) == RecordsOf(logs, b)
  {
    hide ParseAll, Encoding, WellFormed;
    AppendRecord(FileOf(logs, a), r);
    FileUpdate(logs, a, FileOf(logs, a) + Encoding(r));
  }

  /** A torn append changes no log's records. */
  lemma TornView(logs: Files, a: AgentId, r: Record, torn: nat, logs': Files)
    requires Settled(FileOf(logs, a)) && WellFormed(r) && torn < |Encoding(r)|
    requires logs' == logs[a := FileOf(logs, a) + Encoding(r)[..torn]]
    ensures Readable(FileOf(logs', a))
    ensures forall b :: b != a ==> FileOf(logs', b) == FileOf(logs, b)
    ensures forall b :: RecordsOf(logs', b) == RecordsOf(logs, b)
  {
    hide ParseAll, Encoding, WellFormed;
    TornAppend(FileOf(logs, a), r, Encoding(r)[..torn]);
    FileUpdate(logs, a, FileOf(logs, a) + Encoding(r)[..torn]);
  }

  /** Truncating a torn tail changes no log's records. */
  lemma TruncateView(logs: Files, a: AgentId, logs': Files)
    requires Readable(FileOf(logs, a))
    requires logs' == logs[a := Truncated(FileOf(logs, a))]
    ensures Settled(FileOf(logs', a))
    ensures forall b :: b != a ==> FileOf(logs', b) == FileOf(logs, b)
    ensures forall b :: RecordsOf(logs', b) == RecordsOf(logs, b)
  {
    hide ParseAll, Truncated;
    TruncatedIsSettled(FileOf(logs, a));
    FileUpdate(logs, a, Truncated(FileOf(logs, a)));
  }

  lemma SettledConcat(a: Bytes, b: Bytes)
    requires Settled(a) && Readable(b)
    ensures Readable(a + b) && RecordsIn(a + b) == RecordsIn(a) + RecordsIn(b)
    ensures Settled(a + b) <==> Settled(b)
  {
    hide ParseAll;
    ParseAllAppend(a, b);
  }
}
