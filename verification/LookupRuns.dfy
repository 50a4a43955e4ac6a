/** Reply lookups over whole runs: while ids are fresh a record is found by its id for ever, live or
    archived; once an id has been given again, the live record shadows the archived one. */
module LookupRuns {
  import opened Text
  import opened Codec
  import opened Storage
  import opened Compaction
  import opened Protocol
  import opened Invariant
  import opened Preservation
  import opened Runs
  import opened FreshIds

  /** The two files of a mailbox. */
  function Mailbox(d: Disk, a: AgentId): Pair {
    Pair(FileOf(d.logs, a), FileOf(d.archives, a))
  }

  lemma HeldIsNamed(s: State, a: AgentId, r: Record)
    requires HistOk(s) && Holds(Mailbox(s.disk, a), r)
    ensures (a, r.seqNo) in s.hist && s.hist[(a, r.seqNo)].rec == r
  {
    assert RecordsIn(FileOf(s.disk.logs, a)) == RecordsOf(s.disk.logs, a);
    assert RecordsIn(FileOf(s.disk.archives, a)) == RecordsOf(s.disk.archives, a);
    hide RecordsOf, RecordsIn, NamesOk, Kept;
  }

  lemma NamedIsHeld(s: State, n: Name)
    requires HistOk(s) && n in s.hist
    ensures Holds(Mailbox(s.disk, n.0), s.hist[n].rec)
  {
    assert RecordsIn(FileOf(s.disk.logs, n.0)) == RecordsOf(s.disk.logs, n.0);
    assert RecordsIn(FileOf(s.disk.archives, n.0)) == RecordsOf(s.disk.archives, n.0);
    hide RecordsOf, RecordsIn, NamesOk, Named;
    assert In(s.disk.logs, s.hist, n) || In(s.disk.archives, s.hist, n);
  }

  /** Fresh ids are unique in every mailbox, archive included. */
  lemma FreshIdsAreUnique(s: State, a: AgentId)
    requires Inv(s) && IdsFresh(s)
    ensures UniqueIds(Mailbox(s.disk, a))
  {
    InvParts(s);
    hide Inv, FilesOk, HistOk, LiveOk, RowsOk, ReceiptsOk, PcOk, Holds;
    var p := Mailbox(s.disk, a);
    forall r, q | Holds(p, r) && Holds(p, q) && r.id == q.id ensures r == q {
      HeldIsNamed(s, a, r);
      HeldIsNamed(s, a, q);
    }
  }

  lemma FoundIsHeld(p: Pair, id: int)
    ensures match Lookup(p, id)
            case Some(r) => Holds(p, r) && r.id == id
            case None => forall r :: Holds(p, r) ==> r.id != id
  {
    FindIdFinds(RecordsIn(p.log), id);
    FindIdFinds(RecordsIn(p.archive), id);
    hide FindId, RecordsIn;
  }

  /** While ids are fresh every record ever written is found by its id in its mailbox. */
  lemma LookupFinds(s: State, n: Name)
    requires Inv(s) && IdsFresh(s) && n in s.hist
    ensures Lookup(Mailbox(s.disk, n.0), s.hist[n].rec.id) == Some(s.hist[n].rec)
  {
    InvParts(s);
    var p, id := Mailbox(s.disk, n.0), s.hist[n].rec.id;
    FreshIdsAreUnique(s, n.0);
    NamedIsHeld(s, n);
    FoundIsHeld(p, id);
    hide Inv, FilesOk, HistOk, SendsOk, LiveOk, RowsOk, ReceiptsOk, PcOk, Holds, Lookup, Mailbox;
  }

  /** A reply finds the record it cites in every later state of every run whose opens meet the guard of
      fresh ids: sends, compactions, kills, power losses and opens in between change no answer. */
  lemma LookupIsStable(before: seq<Step>, after: seq<Step>, n: Name)
    requires Legal(INIT, before) && Legal(Run(INIT, before), after)
    requires Legal(INIT, before + after) && GuardedOpens(INIT, before + after)
    requires n in Run(INIT, before).hist
    ensures var s, t := Run(INIT, before), Run(Run(INIT, before), after);
            var rec := s.hist[n].rec;
            Lookup(Mailbox(s.disk, n.0), rec.id) == Some(rec) && Lookup(Mailbox(t.disk, n.0), rec.id) == Some(rec)
  {
    var s, t := Run(INIT, before), Run(Run(INIT, before), after);
    RunConcat(INIT, before, after);
    IdsAreFresh(before + after);
    InitOk();
    hide Inv, Legal, Run, GuardedOpens, Lookup, Mailbox, SeqOf;
    RunKeeps(INIT, before);
    RunKeeps(s, after);
    RunExtends(s, after);
    EarlierIsFresh(s, t);
    LookupFinds(s, n);
    LookupFinds(t, n);
  }

  lemma EarlierIsFresh(s: State, t: State)
    requires Extends(s, t) && IdsFresh(t)
    ensures IdsFresh(s)
  {
    hide SeqOf;
  }

  /** When an id of an archived record has been given again to a live one of the same mailbox, the lookup
      answers with the live record. */
  lemma LookupAfterReuse(s: State, m: Name, n: Name)
    requires Inv(s) && IsLive(s, m) && n in s.hist && !IsLive(s, n) && m.0 == n.0 && s.hist[m].rec.id == s.hist[n].rec.id
    ensures Lookup(Mailbox(s.disk, n.0), s.hist[n].rec.id) == Some(s.hist[m].rec) && s.hist[m].rec != s.hist[n].rec
  {
    InvParts(s);
    var a, id := m.0, s.hist[m].rec.id;
    var live := RecordsOf(s.disk.logs, a);
    assert live == RecordsIn(Mailbox(s.disk, a).log);
    FindIdFinds(live, id);
    assert s.hist[m].rec in live;
    hide FindId;
    var r := FindId(live, id).value;
    LiveIdIsOne(s, a, r, m);
  }

  lemma LiveIdIsOne(s: State, a: AgentId, r: Record, m: Name)
    requires HistOk(s) && SendsOk(s) && LiveOk(s) && IsLive(s, m) && m.0 == a
    requires r in RecordsOf(s.disk.logs, a) && r.id == s.hist[m].rec.id
    ensures r == s.hist[m].rec
  {
    hide RecordsOf, NamesOk, Kept, Ascends, IdsBounded, KeysShared;
    assert In(s.disk.logs, s.hist, (a, r.seqNo));
  }
}
