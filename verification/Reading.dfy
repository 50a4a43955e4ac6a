/** The read side: cursor paging, first match, and the wait loop with its index fast path
    (internal/bus/mail.go, internal/bus/index.go). */
module Reading {
  import opened Text
  import opened Codec
  import opened Sorting
  import opened Storage
  import opened Compaction

  // ---- Cursor paging ----

  predicate Wanted(r: Record, since: int, kind: string) {
    r.seqNo > since && (kind == "" || r.kind == kind)
  }

  function Matching(rs: seq<Record>, since: int, kind: string): (ms: seq<Record>)
    ensures |ms| <= |rs|
  {
    if rs == [] then []
    else (if Wanted(rs[0], since, kind) then [rs[0]] else []) + Matching(rs[1..], since, kind)
  }

  function Page(rs: seq<Record>, since: int, kind: string, limit: nat): seq<Record> {
    var ms := Matching(rs, since, kind);
    if |ms| <= limit then ms else ms[..limit]
  }

  lemma MatchingCons(r: Record, rs: seq<Record>, since: int, kind: string)
    ensures Matching([r] + rs, since, kind)
            == (if Wanted(r, since, kind) then [r] else []) + Matching(rs, since, kind)
  {
    assert ([r] + rs)[1..] == rs;
  }

  lemma {:induction false} MatchingSnoc(rs: seq<Record>, r: Record, since: int, kind: string)
    ensures Matching(rs + [r], since, kind)
            == Matching(rs, since, kind) + if Wanted(r, since, kind) then [r] else []
  {
    if rs == [] {
      MatchingCons(r, [], since, kind);
      assert rs + [r] == [r] + [];
    } else {
      MatchingSnoc(rs[1..], r, since, kind);
      hide Matching, Wanted;
      MatchingCons(rs[0], rs[1..] + [r], since, kind);
      MatchingCons(rs[0], rs[1..], since, kind);
      assert rs + [r] == [rs[0]] + (rs[1..] + [r]) && rs == [rs[0]] + rs[1..];
    }
  }

  lemma {:induction false} MatchingConcat(xs: seq<Record>, ys: seq<Record>, since: int, kind: string)
    ensures Matching(xs + ys, since, kind) == Matching(xs, since, kind) + Matching(ys, since, kind)
  {
    if xs == [] {
      assert xs + ys == ys;
    } else {
      MatchingConcat(xs[1..], ys, since, kind);
      MatchingCons(xs[0], xs[1..] + ys, since, kind);
      MatchingCons(xs[0], xs[1..], since, kind);
      hide Matching;
      assert xs + ys == [xs[0]] + (xs[1..] + ys) && xs == [xs[0]] + xs[1..];
    }
  }

  /** Once a prefix of the log holds the whole page, the rest does not matter. */
  lemma PageReached(rs: seq<Record>, k: nat, since: int, kind: string)
    requires k <= |rs|
    ensures Page(rs, since, kind, |Matching(rs[..k], since, kind)|) == Matching(rs[..k], since, kind)
  {
    assert rs == rs[..k] + rs[k..];
    MatchingConcat(rs[..k], rs[k..], since, kind);
  }

  const DEFAULT_READ_LIMIT: nat := 256

  /** The page told on the records: no more than the limit, each one above the cursor and of the kind asked
      for, and one below the limit leaves no such record out. */
  ghost predicate PageTells(rs: seq<Record>, since: int, kind: string, limit: nat, out: seq<Record>) {
    && |out| <= limit
    && (forall r :: r in out ==> r in rs && r.seqNo > since && (kind != "" ==> r.kind == kind))
    && (|out| < limit ==> forall r :: r in rs && r.seqNo > since && (kind != "" ==> r.kind == kind) ==> r in out)
  }

  lemma {:induction false} MatchingMembers(rs: seq<Record>, since: int, kind: string)
    ensures forall r :: r in Matching(rs, since, kind) <==> r in rs && r.seqNo > since && (kind != "" ==> r.kind == kind)
  {
    if rs != [] {
      MatchingMembers(rs[1..], since, kind);
      assert rs == [rs[0]] + rs[1..];
    }
  }

  lemma PageMembers(rs: seq<Record>, since: int, kind: string, limit: nat)
    ensures PageTells(rs, since, kind, limit, Page(rs, since, kind, limit))
  {
    MatchingMembers(rs, since, kind);
    hide Matching;
    var ms := Matching(rs, since, kind);
    if |ms| > limit {
      assert forall r :: r in ms[..limit] ==> r in ms;
    }
  }

  /** The collecting loop of ReadMailbox. A limit of 0 means the default. */
  method ReadPage(rs: seq<Record>, since: int, kind: string, limit: nat) returns (out: seq<Record>)
    ensures out == Page(rs, since, kind, if limit == 0 then DEFAULT_READ_LIMIT else limit)
    ensures PageTells(rs, since, kind, if limit == 0 then 256 else limit, out)
  {
    var cap := if limit == 0 then DEFAULT_READ_LIMIT else limit;
    PageMembers(rs, since, kind, cap);
    hide PageTells;
    out := [];
    for i := 0 to |rs|
      invariant out == Matching(rs[..i], since, kind) && |out| < cap
    {
      assert rs[..i + 1] == rs[..i] + [rs[i]];
      MatchingSnoc(rs[..i], rs[i], since, kind);
      hide Matching;
      if rs[i].seqNo <= since || (kind != "" && rs[i].kind != kind) {
        continue;
      }
      out := out + [rs[i]];
      if |out| >= cap {
        PageReached(rs, i + 1, since, kind);
        return;
      }
    }
    assert rs[..|rs|] == rs;
  }

  /** In a log in seq order the wanted records are in seq order and are exactly the matches. */
  lemma {:induction false} MatchingFacts(rs: seq<Record>, since: int, kind: string)
    requires Increasing(rs)
    ensures Increasing(Matching(rs, since, kind))
    ensures forall r :: r in Matching(rs, since, kind) <==> r in rs && Wanted(r, since, kind)
  {
    if rs != [] {
      MatchingFacts(rs[1..], since, kind);
      assert rs == [rs[0]] + rs[1..];
      assert forall r :: r in rs[1..] ==> rs[0].seqNo < r.seqNo;
    }
  }

  ghost predicate InSeqOrder(rs: seq<Record>) {
    forall i, j :: 0 <= i < j < |rs| ==> rs[i].seqNo <= rs[j].seqNo
  }

  lemma FirstIsLeast(xs: seq<Record>, ys: seq<Record>)
    requires xs != [] && ys != [] && Increasing(xs) && multiset(ys) == multiset(xs)
    requires InSeqOrder(ys)
    ensures xs[0] == ys[0]
  {
    assert xs[0] in xs && ys[0] in ys;
    assert xs[0] in multiset(ys) && ys[0] in multiset(xs);
    var i :| 0 <= i < |ys| && ys[i] == xs[0];
    var j :| 0 <= j < |xs| && xs[j] == ys[0];
    assert xs[0].seqNo <= xs[j].seqNo && ys[0].seqNo <= ys[i].seqNo;
  }

  /** Sorting a page by seq leaves it as it is: any reordering in seq order is the page itself. */
  lemma {:induction false} SortIsIdentity(xs: seq<Record>, ys: seq<Record>)
    requires Increasing(xs) && multiset(ys) == multiset(xs)
    requires InSeqOrder(ys)
    ensures ys == xs
  {
    assert |multiset(xs)| == |xs| && |multiset(ys)| == |ys|;
    if xs != [] {
      FirstIsLeast(xs, ys);
      assert xs == [xs[0]] + xs[1..] && ys == [ys[0]] + ys[1..];
      TailsPermute(xs, ys);
      SortIsIdentity(xs[1..], ys[1..]);
    }
  }

  lemma TailsPermute(xs: seq<Record>, ys: seq<Record>)
    requires xs != [] && ys != [] && xs[0] == ys[0] && multiset(xs) == multiset(ys)
    ensures multiset(xs[1..]) == multiset(ys[1..])
  {
    assert xs == [xs[0]] + xs[1..] && ys == [ys[0]] + ys[1..];
    assert multiset(xs[1..]) == multiset(xs) - multiset{xs[0]};
    assert multiset(ys[1..]) == multiset(ys) - multiset{xs[0]};
  }

  lemma PageInOrder(rs: seq<Record>, since: int, kind: string, limit: nat)
    requires Increasing(rs)
    ensures Increasing(Page(rs, since, kind, limit))
  {
    MatchingFacts(rs, since, kind);
  }

  lemma InsertInSeqOrder(rs: seq<Record>, r: Record, k: nat)
    requires InSeqOrder(rs) && k <= |rs|
    requires forall i :: 0 <= i < k ==> rs[i].seqNo <= r.seqNo
    requires forall i :: k <= i < |rs| ==> r.seqNo < rs[i].seqNo
    ensures InSeqOrder(rs[..k] + [r] + rs[k..])
  {
    var out := rs[..k] + [r] + rs[k..];
    forall i, j | 0 <= i < j < |out| ensures out[i].seqNo <= out[j].seqNo {
      var i' := if i < k then i else i - 1;
      var j' := if j < k then j else j - 1;
      assert i != k ==> out[i] == rs[i'];
      assert j != k ==> out[j] == rs[j'];
    }
  }

  /** Where a record belongs after every one that is not above it. */
  method SeqPoint(rs: seq<Record>, r: Record) returns (k: nat)
    requires InSeqOrder(rs)
    ensures k <= |rs|
    ensures forall i :: 0 <= i < k ==> rs[i].seqNo <= r.seqNo
    ensures forall i :: k <= i < |rs| ==> r.seqNo < rs[i].seqNo
  {
    k := |rs|;
    while k > 0 && rs[k - 1].seqNo > r.seqNo
      invariant k <= |rs|
      invariant forall i :: k <= i < |rs| ==> r.seqNo < rs[i].seqNo
    {
      k := k - 1;
    }
  }

  /** A stable sort by seq. */
  method SortBySeq(rs: seq<Record>) returns (out: seq<Record>)
    ensures multiset(out) == multiset(rs) && InSeqOrder(out)
  {
    out := [];
    for n := 0 to |rs|
      invariant multiset(out) == multiset(rs[..n]) && InSeqOrder(out)
    {
      var k := SeqPoint(out, rs[n]);
      InsertInSeqOrder(out, rs[n], k);
      InsertCounts(out, rs[n], k);
      hide InSeqOrder;
      assert rs[..n + 1] == rs[..n] + [rs[n]];
      out := out[..k] + [rs[n]] + out[k..];
    }
    assert rs[..|rs|] == rs;
  }

  /** Reads again and again from the last returned seq until a read is empty. */
  function Drain(rs: seq<Record>, since: int, kind: string, limit: nat): seq<Record>
    requires Increasing(rs) && limit > 0
    decreases |Matching(rs, since, kind)|
  {
    var p := Page(rs, since, kind, limit);
    if p == [] then []
    else
      MatchingAfter(rs, since, kind, |p|);
      p + Drain(rs, p[|p| - 1].seqNo, kind, limit)
  }

  /** Reading on from the seq of a match yields the matches after it. */
  lemma MatchingAfter(rs: seq<Record>, since: int, kind: string, k: nat)
    requires Increasing(rs) && 0 < k <= |Matching(rs, since, kind)|
    ensures Matching(rs, Matching(rs, since, kind)[k - 1].seqNo, kind) == Matching(rs, since, kind)[k..]
  {
    var ms := Matching(rs, since, kind);
    MatchingFacts(rs, since, kind);
    assert ms[k - 1] in ms;
    MatchingTwice(rs, since, ms[k - 1].seqNo, kind);
    MatchingTail(ms, kind, k);
  }

  lemma {:induction false} MatchingTwice(rs: seq<Record>, since: int, later: int, kind: string)
    requires since <= later
    ensures Matching(rs, later, kind) == Matching(Matching(rs, since, kind), later, kind)
  {
    if rs != [] {
      MatchingTwice(rs[1..], since, later, kind);
      var ms := Matching(rs[1..], since, kind);
      MatchingCons(rs[0], ms, later, kind);
      assert Matching(rs, since, kind) == if Wanted(rs[0], since, kind) then [rs[0]] + ms else ms;
    }
  }

  lemma {:induction false} MatchingTail(ms: seq<Record>, kind: string, k: nat)
    requires Increasing(ms) && 0 < k <= |ms|
    requires forall r :: r in ms ==> kind == "" || r.kind == kind
    ensures Matching(ms, ms[k - 1].seqNo, kind) == ms[k..]
  {
    hide Matching;
    MatchingNone(ms[..k], ms[k - 1].seqNo, kind);
    MatchingAll(ms[k..], ms[k - 1].seqNo, kind);
    assert ms == ms[..k] + ms[k..];
    MatchingConcat(ms[..k], ms[k..], ms[k - 1].seqNo, kind);
  }

  lemma {:induction false} MatchingNone(rs: seq<Record>, since: int, kind: string)
    requires forall i :: 0 <= i < |rs| ==> rs[i].seqNo <= since
    ensures Matching(rs, since, kind) == []
  {
    if rs != [] {
      MatchingNone(rs[1..], since, kind);
    }
  }

  lemma {:induction false} MatchingAll(rs: seq<Record>, since: int, kind: string)
    requires forall i :: 0 <= i < |rs| ==> Wanted(rs[i], since, kind)
    ensures Matching(rs, since, kind) == rs
  {
    if rs != [] {
      MatchingAll(rs[1..], since, kind);
    }
  }

  /** Repeated reads terminate and yield every matching record exactly once, in order. */
  lemma {:induction false} DrainIsComplete(rs: seq<Record>, since: int, kind: string, limit: nat)
    requires Increasing(rs) && limit > 0
    ensures Drain(rs, since, kind, limit) == Matching(rs, since, kind)
    decreases |Matching(rs, since, kind)|
  {
    hide Matching;
    var ms := Matching(rs, since, kind);
    var p := Page(rs, since, kind, limit);
    if p != [] {
      MatchingAfter(rs, since, kind, |p|);
      DrainIsComplete(rs, p[|p| - 1].seqNo, kind, limit);
      assert p + ms[|p|..] == ms;
    }
  }

  /** A compaction up to K <= since changes no read at that cursor. */
  lemma ReadSurvivesCompaction(log: Bytes, upTo: int, since: int, kind: string, limit: nat)
    requires Readable(log) && upTo <= since && CompactPoint(log, upTo).CutAt?
    ensures Page(RecordsIn(log[CompactPoint(log, upTo).boundary..]), since, kind, limit)
            == Page(RecordsIn(log), since, kind, limit)
  {
    hide ParseAll, CompactPoint, Matching;
    CompactCuts(log, upTo);
    var k := CompactPoint(log, upTo).archived;
    var rs := RecordsIn(log);
    MatchingNone(rs[..k], since, kind);
    MatchingConcat(rs[..k], rs[k..], since, kind);
    assert rs[..k] + rs[k..] == rs;
  }

  // ---- First match ----

  datatype Filter = Filter(since: int, fromRole: string, fromAgent: string, kind: string)

  predicate Passes(r: Record, f: Filter) {
    && r.seqNo > f.since
    && (f.fromRole == "" || r.fromRole == f.fromRole)
    && (f.fromAgent == "" || r.from == f.fromAgent)
    && (f.kind == "" || r.kind == f.kind)
  }

  /** What was asked for, filter by filter. */
  ghost predicate Asked(r: Record, since: int, fromRole: string, fromAgent: string, kind: string) {
    && r.seqNo > since && (fromRole != "" ==> r.fromRole == fromRole) && (fromAgent != "" ==> r.from == fromAgent)
    && (kind != "" ==> r.kind == kind)
  }

  /** matchMailbox on the records of one log: the first record that meets every filter that was given. */
  method MatchMailbox(rs: seq<Record>, f: Filter) returns (found: Option<Record>)
    ensures match found
            case None => forall r :: r in rs ==> !Asked(r, f.since, f.fromRole, f.fromAgent, f.kind)
            case Some(q) =>
              exists i :: 0 <= i < |rs| && rs[i] == q && Asked(q, f.since, f.fromRole, f.fromAgent, f.kind)
                          && forall j :: 0 <= j < i ==> !Asked(rs[j], f.since, f.fromRole, f.fromAgent, f.kind)
    ensures found.None? ==> forall r :: r in rs ==> !Passes(r, f)
    ensures found.Some? ==> found.value in rs && Passes(found.value, f)
    ensures found.Some? && Increasing(rs) ==>
              forall r :: r in rs && Passes(r, f) ==> found.value.seqNo <= r.seqNo
  {
    for i := 0 to |rs|
      invariant forall j :: 0 <= j < i ==> !Passes(rs[j], f)
    {
      if rs[i].seqNo <= f.since { continue; }
      if f.fromRole != "" && rs[i].fromRole != f.fromRole { continue; }
      if f.fromAgent != "" && rs[i].from != f.fromAgent { continue; }
      if f.kind != "" && rs[i].kind != f.kind { continue; }
      return Some(rs[i]);
    }
    found := None;
  }

  // ---- The index fast path of wait_for_message ----

  ghost predicate IndexCounts(rows: Table, a: AgentId, since: int, fromAgent: string, n: Name) {
    n in rows && n.0 == a && n.1 > since && (fromAgent == "" || rows[n].from == fromAgent)
  }

  /** waitIndexHasMatch: whether some row is counted. */
  method WaitIndexHasMatch(rows: Table, a: AgentId, since: int, fromAgent: string) returns (has: bool)
    ensures has <==> exists n :: IndexCounts(rows, a, since, fromAgent, n)
  {
    var counted := set n | n in rows && n.0 == a && n.1 > since && (fromAgent == "" || rows[n].from == fromAgent);
    has := counted != {};
    if has {
      var n :| n in counted;
      assert IndexCounts(rows, a, since, fromAgent, n);
    } else {
      assert forall n :: IndexCounts(rows, a, since, fromAgent, n) ==> n in counted;
    }
  }

  /** The skip test of the wait loop: only without a role or kind filter, and only when the index
      counts no row. */
  ghost predicate Skips(rows: Table, a: AgentId, f: Filter) {
    f.fromRole == "" && f.kind == "" && !exists n :: IndexCounts(rows, a, f.since, f.fromAgent, n)
  }

  /** The index shows, for the record, a row of its mailbox and sender at least as far on. */
  ghost predicate Reached(rows: Table, a: AgentId, r: Record) {
    exists n :: n in rows && n.0 == a && n.1 >= r.seqNo && (r.from == "" || rows[n].from == r.from)
  }

  ghost predicate IndexReaches(rows: Table, a: AgentId, rs: seq<Record>) {
    forall r :: r in rs ==> Reached(rows, a, r)
  }

  /** The waiter for this very record. */
  function WaiterFor(r: Record): Filter {
    Filter(r.seqNo - 1, "", r.from, "")
  }

  /** The fast path hides a record from some waiter it passes exactly when the index does not reach
      it; then it hides it from the waiter for this very record. */
  lemma HiddenIffUnreached(rows: Table, a: AgentId, r: Record)
    ensures Reached(rows, a, r) <==> forall f: Filter :: Passes(r, f) ==> !Skips(rows, a, f)
    ensures !Reached(rows, a, r) ==> Passes(r, WaiterFor(r)) && Skips(rows, a, WaiterFor(r))
  {
    if Reached(rows, a, r) {
      forall f: Filter | Passes(r, f) ensures !Skips(rows, a, f) {
        var n :| n in rows && n.0 == a && n.1 >= r.seqNo && (r.from == "" || rows[n].from == r.from);
        assert IndexCounts(rows, a, f.since, f.fromAgent, n);
      }
    } else {
      var f := WaiterFor(r);
      assert forall n :: IndexCounts(rows, a, f.since, f.fromAgent, n) ==> n in rows;
      assert Passes(r, f) && Skips(rows, a, f);
    }
  }

  /** The fast path hides no record from any waiter exactly when the index reaches every live record. */
  lemma FastPathIsSafe(rows: Table, a: AgentId, rs: seq<Record>)
    ensures IndexReaches(rows, a, rs) <==>
            forall f: Filter, r :: r in rs && Passes(r, f) ==> !Skips(rows, a, f)
  {
    hide Reached, Passes, Skips;
    forall r ensures Reached(rows, a, r) <==> forall f: Filter :: Passes(r, f) ==> !Skips(rows, a, f) {
      HiddenIffUnreached(rows, a, r);
    }
  }

  /** What one check of the wait loop sees: the index first, then, unless it skips, the log. Nothing
      locks the bus in between. */
  datatype Check = Check(rows: Table, logs: Files)

  datatype WaitResult = Found(rec: Record, at: nat) | Timeout

  ghost predicate NoMatch(logs: Files, a: AgentId, f: Filter) {
    forall r :: r in RecordsOf(logs, a) ==> !Passes(r, f)
  }

  ghost predicate Misses(c: Check, a: AgentId, f: Filter) {
    Skips(c.rows, a, f) || NoMatch(c.logs, a, f)
  }

  /** What the loop returns: the first match of the first check that does not miss, or a timeout after
      checks that all missed, the last one being the check after which the deadline has passed. */
  ghost predicate WaitOutcome(a: AgentId, f: Filter, checks: seq<Check>, res: WaitResult) {
    match res
    case Found(r, at) =>
      && at < |checks|
      && r in RecordsOf(checks[at].logs, a) && Passes(r, f)
      && (Increasing(RecordsOf(checks[at].logs, a)) ==>
            forall q :: q in RecordsOf(checks[at].logs, a) && Passes(q, f) ==> r.seqNo <= q.seqNo)
      && !Skips(checks[at].rows, a, f)
      && (forall j :: 0 <= j < at ==> Misses(checks[j], a, f))
    case Timeout => forall j :: 0 <= j < |checks| ==> Misses(checks[j], a, f)
  }

  /** Whatever else it was asked for, a wait returns only a record that meets every filter given, and one with a
      role or kind filter reads the log at every check: it times out only if no log it read held such a record. */
  lemma WaitMeetsFilters(a: AgentId, f: Filter, checks: seq<Check>, res: WaitResult)
    requires WaitOutcome(a, f, checks, res)
    ensures res.Found? ==>
              && res.at < |checks| && res.rec in RecordsOf(checks[res.at].logs, a)
              && Asked(res.rec, f.since, f.fromRole, f.fromAgent, f.kind)
              && (Increasing(RecordsOf(checks[res.at].logs, a)) ==>
                    forall q :: q in RecordsOf(checks[res.at].logs, a) && q.seqNo < res.rec.seqNo ==>
                      !Asked(q, f.since, f.fromRole, f.fromAgent, f.kind))
    ensures f.fromRole != "" || f.kind != "" ==>
              forall j, q :: 0 <= j < (if res.Found? then res.at else |checks|) && q in RecordsOf(checks[j].logs, a) ==>
                !Asked(q, f.since, f.fromRole, f.fromAgent, f.kind)
  {
    hide RecordsOf;
    assert forall r: Record :: Asked(r, f.since, f.fromRole, f.fromAgent, f.kind) <==> Passes(r, f);
    hide Asked, Passes;
    if f.fromRole != "" || f.kind != "" {
      forall j | 0 <= j < (if res.Found? then res.at else |checks|) ensures NoMatch(checks[j].logs, a, f) {
        assert Misses(checks[j], a, f);
      }
    }
    if res.Found? {
      assert Passes(res.rec, f);
    }
  }

  /** The loop of WaitForMessage. */
  method WaitForMessage(a: AgentId, f: Filter, checks: seq<Check>) returns (res: WaitResult)
    ensures WaitOutcome(a, f, checks, res)
  {
    hide RecordsOf;
    for i := 0 to |checks|
      invariant forall j :: 0 <= j < i ==> Misses(checks[j], a, f)
    {
      var skipScan := false;
      if f.fromRole == "" && f.kind == "" {
        var has := WaitIndexHasMatch(checks[i].rows, a, f.since, f.fromAgent);
        skipScan := !has;
      }
      assert skipScan <==> Skips(checks[i].rows, a, f);
      if !skipScan {
        var found := MatchMailbox(RecordsOf(checks[i].logs, a), f);
        if found.Some? {
          return Found(found.value, i);
        }
      }
    }
    res := Timeout;
  }

  /** A check that misses hides only records that its index does not reach. */
  lemma WaitIsExact(a: AgentId, f: Filter, c: Check, logs: Files)
    requires Misses(c, a, f)
    ensures NoMatch(c.logs, a, f) || forall r :: r in RecordsOf(logs, a) && Passes(r, f) ==> !Reached(c.rows, a, r)
  {
    hide RecordsOf, Passes, Reached;
    if Skips(c.rows, a, f) {
      forall r | r in RecordsOf(logs, a) && Passes(r, f) ensures !Reached(c.rows, a, r) {
        HiddenIffUnreached(c.rows, a, r);
      }
    }
  }
}
