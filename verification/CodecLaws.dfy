/** Laws of the record codec: round trip, stability under appended bytes, torn tails. */
module CodecLaws {
  import opened Text
  import opened Codec

  // ---- When a record survives its own encoding ----

  /** Header values are single lines, the timestamp is one, and the key does not read as absent. */
  ghost predicate CleanHeader(r: Record) {
    && OneLine(r.from) && OneLine(r.fromRole) && OneLine(r.to) && OneLine(r.kind)
    && IsTimestamp(r.ts)
    && (r.dedup.Some? ==> OneLine(r.dedup.value) && r.dedup.value != "-")
  }

  ghost predicate WellFormed(r: Record) {
    CleanHeader(r) && r.dedup != Some("")
  }

  /** An empty key is written as absent. */
  function Normalize(r: Record): Record {
    if r.dedup == Some("") then r.(dedup := None) else r
  }

  // ---- Rendered header lines ----

  ghost predicate GoodPairs(pairs: seq<(string, string)>) {
    forall i :: 0 <= i < |pairs| ==>
      pairs[i].0 != "" && ':' !in pairs[i].0 && OneLine(pairs[i].0) && OneLine(pairs[i].1)
  }

  lemma LineFacts(k: string, v: string)
    requires k != "" && ':' !in k && OneLine(k) && OneLine(v)
    ensures OneLine(Line(k, v)) && Line(k, v) != "---" && Line(k, v) != ""
    ensures Cut(Line(k, v)) == Some((k, v))
  {
    CutLine(k, v);
    assert Line(k, v)[|k|] == ':';
  }

  lemma FindLine(line: string, rest: Bytes)
    requires OneLine(line)
    ensures var s := line + "\n" + rest;
            Find(s, '\n') == |line| && s[..|line|] == line && s[|line| + 1..] == rest
  {
    var s := line + "\n" + rest;
    assert forall k :: 0 <= k < |line| ==> s[k] == line[k] && line[k] in line;
    assert s[|line|] == '\n';
  }

  lemma SplitLine(line: string, rest: Bytes)
    requires OneLine(line)
    ensures Split(line + "\n" + rest, '\n') == [line] + Split(rest, '\n')
  {
    FindLine(line, rest);
  }

  lemma SplitNothing()
    ensures Split("", '\n') == [""]
  {
  }

  lemma HeaderLenLine(line: string, rest: Bytes)
    requires OneLine(line)
    ensures HeaderLen(line + "\n" + rest) == if line == "---" then 0 else |line| + 1 + HeaderLen(rest)
  {
    FindLine(line, rest);
  }

  /** Lines as bytes: every line is closed by a newline. */
  function Unlines(ls: seq<string>): Bytes {
    if ls == [] then "" else ls[0] + "\n" + Unlines(ls[1..])
  }

  ghost predicate GoodLines(ls: seq<string>) {
    forall i :: 0 <= i < |ls| ==> OneLine(ls[i]) && ls[i] != "" && ls[i] != "---"
  }

  lemma {:induction false} RenderUnlines(pairs: seq<(string, string)>)
    ensures Render(pairs) == Unlines(LinesOf(pairs))
  {
    if pairs != [] {
      RenderUnlines(pairs[1..]);
      assert LinesOf(pairs) == [Line(pairs[0].0, pairs[0].1)] + LinesOf(pairs[1..]);
    }
  }

  lemma PairLines(pairs: seq<(string, string)>)
    requires GoodPairs(pairs)
    ensures GoodLines(LinesOf(pairs))
  {
    forall i | 0 <= i < |pairs|
      ensures OneLine(LinesOf(pairs)[i]) && LinesOf(pairs)[i] != "" && LinesOf(pairs)[i] != "---"
    {
      LineFacts(pairs[i].0, pairs[i].1);
    }
  }

  lemma {:induction false} UnlinesConcat(xs: seq<string>, ys: seq<string>)
    ensures Unlines(xs + ys) == Unlines(xs) + Unlines(ys)
  {
    if xs == [] {
      assert xs + ys == ys;
    } else {
      assert (xs + ys)[1..] == xs[1..] + ys;
      UnlinesConcat(xs[1..], ys);
    }
  }

  lemma {:induction false} SplitUnlines(ls: seq<string>)
    requires forall i :: 0 <= i < |ls| ==> OneLine(ls[i])
    ensures Split(Unlines(ls), '\n') == ls + [""]
  {
    hide Split;
    if ls == [] {
      SplitNothing();
    } else {
      SplitLine(ls[0], Unlines(ls[1..]));
      SplitUnlines(ls[1..]);
    }
  }

  lemma {:induction false} HeaderLenUnlines(ls: seq<string>, tail: Bytes)
    requires GoodLines(ls)
    ensures HeaderLen(Unlines(ls) + "---\n" + tail) == |Unlines(ls)|
    ensures SeparatorAt(Unlines(ls) + "---\n" + tail, |Unlines(ls)|)
  {
    hide HeaderLen;
    if ls == [] {
      HeaderLenLine("---", tail);
      assert Unlines(ls) + "---\n" + tail == "---" + "\n" + tail;
    } else {
      var rest := Unlines(ls[1..]) + "---\n" + tail;
      HeaderLenLine(ls[0], rest);
      assert Unlines(ls) + "---\n" + tail == ls[0] + "\n" + rest;
      HeaderLenUnlines(ls[1..], tail);
    }
  }

  lemma SplitRender(pairs: seq<(string, string)>)
    requires GoodPairs(pairs)
    ensures Split(Render(pairs), '\n') == LinesOf(pairs) + [""]
  {
    RenderUnlines(pairs);
    PairLines(pairs);
    hide Split, Render, Unlines, LinesOf;
    SplitUnlines(LinesOf(pairs));
  }

  lemma HeaderLenRender(pairs: seq<(string, string)>, tail: Bytes)
    requires GoodPairs(pairs)
    ensures HeaderLen(Render(pairs) + "---\n" + tail) == |Render(pairs)|
    ensures SeparatorAt(Render(pairs) + "---\n" + tail, |Render(pairs)|)
  {
    RenderUnlines(pairs);
    PairLines(pairs);
    hide HeaderLen, Render, Unlines, LinesOf, SeparatorAt;
    HeaderLenUnlines(LinesOf(pairs), tail);
  }

  lemma {:induction false} UntilBlankLines(lines: seq<string>)
    requires forall i :: 0 <= i < |lines| ==> lines[i] != ""
    ensures UntilBlank(lines + [""]) == lines
  {
    if lines != [] {
      assert (lines + [""])[1..] == lines[1..] + [""];
      UntilBlankLines(lines[1..]);
    }
  }

  function Assign(pairs: seq<(string, string)>, acc: map<string, string>): map<string, string> {
    if pairs == [] then acc else Assign(pairs[1..], acc[pairs[0].0 := pairs[0].1])
  }

  /** Reading lines in two stretches. */
  lemma {:induction false} FieldMapConcat(xs: seq<string>, ys: seq<string>, acc: map<string, string>)
    ensures FieldMap(xs + ys, acc)
            == match FieldMap(xs, acc)
               case None => None
               case Some(f) => FieldMap(ys, f)
  {
    hide Cut;
    if xs == [] {
      assert xs + ys == ys;
    } else {
      assert (xs + ys)[0] == xs[0] && (xs + ys)[1..] == xs[1..] + ys;
      var kv := Cut(xs[0]);
      if kv.Some? && kv.value.0 != "" {
        FieldMapConcat(xs[1..], ys, acc[kv.value.0 := kv.value.1]);
      }
    }
  }

  lemma {:induction false} FieldMapLines(pairs: seq<(string, string)>, acc: map<string, string>)
    requires GoodPairs(pairs)
    ensures FieldMap(LinesOf(pairs), acc) == Some(Assign(pairs, acc))
  {
    if pairs != [] {
      LineFacts(pairs[0].0, pairs[0].1);
      assert LinesOf(pairs)[1..] == LinesOf(pairs[1..]);
      FieldMapLines(pairs[1..], acc[pairs[0].0 := pairs[0].1]);
    }
  }

  lemma {:induction false} AssignKeeps(pairs: seq<(string, string)>, acc: map<string, string>, k: string)
    requires forall j :: 0 <= j < |pairs| ==> pairs[j].0 != k
    ensures k in Assign(pairs, acc) <==> k in acc
    ensures k in acc ==> Assign(pairs, acc)[k] == acc[k]
  {
    if pairs != [] {
      AssignKeeps(pairs[1..], acc[pairs[0].0 := pairs[0].1], k);
    }
  }

  lemma {:induction false} AssignLookup(pairs: seq<(string, string)>, acc: map<string, string>, i: nat)
    requires i < |pairs|
    requires forall j :: i < j < |pairs| ==> pairs[j].0 != pairs[i].0
    ensures pairs[i].0 in Assign(pairs, acc) && Assign(pairs, acc)[pairs[i].0] == pairs[i].1
  {
    var acc' := acc[pairs[0].0 := pairs[0].1];
    if i == 0 {
      AssignKeeps(pairs[1..], acc', pairs[0].0);
    } else {
      AssignLookup(pairs[1..], acc', i - 1);
    }
  }

  // ---- Round trip ----

  lemma FieldNamesDistinct(i: nat, j: nat)
    requires i < j < |RECORD_FIELDS|
    ensures RECORD_FIELDS[i] != RECORD_FIELDS[j]
  {
    var a, b := RECORD_FIELDS[i], RECORD_FIELDS[j];
    assert |a| == |b| ==> a[0] != b[0] || a[1] != b[1];
  }

  lemma GoodHeaderPairs(r: Record)
    requires CleanHeader(r)
    ensures GoodPairs(HeaderPairs(r))
  {
    hide Itoa;
    TimestampIsOneLine(r.ts);
    assert forall i :: 0 <= i < |RECORD_FIELDS| ==>
        RECORD_FIELDS[i] != "" && ':' !in RECORD_FIELDS[i] && OneLine(RECORD_FIELDS[i]);
  }

  lemma HeaderLookups(r: Record, f: map<string, string>)
    requires f == Assign(HeaderPairs(r), map[])
    ensures forall i :: 0 <= i < |RECORD_FIELDS| ==>
              RECORD_FIELDS[i] in f && f[RECORD_FIELDS[i]] == HeaderPairs(r)[i].1
  {
    var ps := HeaderPairs(r);
    hide Assign, HeaderPairs;
    forall i | 0 <= i < |RECORD_FIELDS|
      ensures RECORD_FIELDS[i] in f && f[RECORD_FIELDS[i]] == ps[i].1
    {
      forall j | i < j < |ps| ensures ps[j].0 != ps[i].0 {
        FieldNamesDistinct(i, j);
      }
      AssignLookup(ps, map[], i);
    }
  }

  lemma {:induction false} NoneMissing(f: map<string, string>, names: seq<string>)
    requires forall n :: n in names ==> n in f
    ensures FirstMissing(f, names) == None
  {
    if names != [] {
      NoneMissing(f, names[1..]);
    }
  }

  /** The fields the parser collects from rendered header lines. */
  lemma HeaderFields(pairs: seq<(string, string)>)
    requires GoodPairs(pairs)
    ensures FieldMap(UntilBlank(Split(Render(pairs), '\n')), map[]) == Some(Assign(pairs, map[]))
  {
    hide Split, UntilBlank, FieldMap, Assign, Render;
    SplitRender(pairs);
    PairLines(pairs);
    UntilBlankLines(LinesOf(pairs));
    FieldMapLines(pairs, map[]);
  }

  lemma ParseHeaderRendered(r: Record)
    requires CleanHeader(r)
    ensures ParseHeader(Render(HeaderPairs(r)))
            == Good(Header(Assign(HeaderPairs(r), map[]), r.seqNo, r.id, |r.body|))
  {
    var ps := HeaderPairs(r);
    var f := Assign(ps, map[]);
    GoodHeaderPairs(r);
    HeaderFields(ps);
    HeaderLookups(r, f);
    NoneMissing(f, RECORD_FIELDS);
    AtoiItoa(r.seqNo);
    AtoiItoa(r.id);
    AtoiItoa(|r.body|);
    hide Split, UntilBlank, FieldMap, Assign, FirstMissing, Itoa, Atoi, Render, LinesOf;
    assert RECORD_FIELDS[0] == "seq" && RECORD_FIELDS[1] == "id" && RECORD_FIELDS[9] == "len";
    assert f["seq"] == ps[0].1 && f["id"] == ps[1].1 && f["len"] == ps[9].1;
  }

  lemma BuildRendered(r: Record)
    requires CleanHeader(r)
    requires HasAllFields(Assign(HeaderPairs(r), map[]))
    ensures BuildRecord(Header(Assign(HeaderPairs(r), map[]), r.seqNo, r.id, |r.body|), r.body)
            == Good(Normalize(r))
  {
    var f := Assign(HeaderPairs(r), map[]);
    HeaderLookups(r, f);
    if r.inReplyTo.Some? {
      AtoiItoa(r.inReplyTo.value);
    }
    hide Assign, Itoa, Atoi;
    assert forall i :: 2 <= i < 9 ==> f[RECORD_FIELDS[i]] == HeaderPairs(r)[i].1;
    assert f[RECORD_FIELDS[2]] == r.from && f[RECORD_FIELDS[3]] == r.fromRole;
    assert f[RECORD_FIELDS[4]] == r.to && f[RECORD_FIELDS[5]] == r.kind;
    assert f[RECORD_FIELDS[6]] == ReplyText(r.inReplyTo) && f[RECORD_FIELDS[7]] == r.ts;
    assert f[RECORD_FIELDS[8]] == DedupText(r.dedup);
  }

  lemma EncodingParts(r: Record, more: Bytes)
    ensures var head := Render(HeaderPairs(r));
            var data := Encoding(r) + more;
            var i := |head|;
            var end := i + 4 + |r.body|;
            && data == head + "---\n" + (r.body + "\n\n" + more)
            && |Encoding(r)| == end + 2
            && data[..i] == head && data[i + 4..end] == r.body && data[end..end + 2] == "\n\n"
  {
    hide Render, HeaderPairs;
  }

  /** Whatever follows it, an encoding with a clean header parses back to its record and is
      consumed exactly; an empty key comes back as absent. */
  lemma ParseEncoding(r: Record, more: Bytes)
    requires CleanHeader(r)
    ensures ParseOne(Encoding(r) + more) == Complete(Normalize(r), |Encoding(r)|)
  {
    hide Render, HeaderLen, ParseHeader, HeaderPairs, BuildRecord, Assign, Encoding;
    GoodHeaderPairs(r);
    EncodingParts(r, more);
    HeaderLenRender(HeaderPairs(r), r.body + "\n\n" + more);
    ParseHeaderRendered(r);
    BuildRendered(r);
  }

  // ---- What the parser accepts is clean ----

  ghost predicate OneLineValues(f: map<string, string>) {
    forall k :: k in f ==> OneLine(f[k])
  }

  lemma {:induction false} FieldMapOneLine(lines: seq<string>, acc: map<string, string>)
    requires forall i :: 0 <= i < |lines| ==> OneLine(lines[i])
    requires OneLineValues(acc)
    ensures FieldMap(lines, acc).Some? ==> OneLineValues(FieldMap(lines, acc).value)
  {
    if lines != [] {
      var kv := Cut(lines[0]);
      if kv.Some? && kv.value.0 != "" {
        assert OneLine(kv.value.1) by {
          assert forall c :: c in kv.value.1 ==> c in lines[0];
        }
        FieldMapOneLine(lines[1..], acc[kv.value.0 := kv.value.1]);
      }
    }
  }

  lemma {:induction false} UntilBlankSubset(lines: seq<string>)
    ensures forall i :: 0 <= i < |UntilBlank(lines)| ==> UntilBlank(lines)[i] in lines
  {
    if lines != [] && lines[0] != "" {
      UntilBlankSubset(lines[1..]);
    }
  }

  lemma HeaderOneLine(header: Bytes)
    ensures ParseHeader(header).Good? ==> OneLineValues(ParseHeader(header).value.fields)
  {
    var lines := Split(header, '\n');
    UntilBlankSubset(lines);
    FieldMapOneLine(UntilBlank(lines), map[]);
    hide UntilBlank, FieldMap, Split, FirstMissing;
  }

  lemma ParsedIsClean(data: Bytes)
    ensures ParseOne(data).Complete? ==> CleanHeader(ParseOne(data).rec)
  {
    hide HeaderLen, ParseHeader;
    HeaderOneLine(data[..HeaderLen(data)]);
  }

  /** A record survives its own encoding exactly when it is well formed. */
  lemma RoundTrip(r: Record)
    ensures ParseOne(Encoding(r)) == Complete(r, |Encoding(r)|) <==> WellFormed(r)
  {
    hide ParseOne, Encoding;
    assert Encoding(r) + "" == Encoding(r);
    ParsedIsClean(Encoding(r));
    if CleanHeader(r) {
      ParseEncoding(r, "");
    }
  }

  /** An accepted record, re-encoded, parses to the same record up to an empty key. */
  lemma ReEncode(data: Bytes)
    requires ParseOne(data).Complete?
    ensures var r := ParseOne(data).rec;
            ParseOne(Encoding(r)) == Complete(Normalize(r), |Encoding(r)|)
  {
    hide ParseOne, Encoding;
    var r := ParseOne(data).rec;
    ParsedIsClean(data);
    ParseEncoding(r, "");
    assert Encoding(r) + "" == Encoding(r);
  }

  // ---- Appended bytes do not disturb what is already decided ----

  /** Data whose separator is present starts with a whole line; the separator is either that
      line or the separator of what follows it. */
  lemma FirstLine(a: Bytes) returns (line: string, rest: Bytes)
    requires SeparatorAt(a, HeaderLen(a))
    ensures OneLine(line) && a == line + "\n" + rest
    ensures line != "---" ==> SeparatorAt(rest, HeaderLen(rest))
    ensures HeaderLen(a) == if line == "---" then 0 else |line| + 1 + HeaderLen(rest)
  {
    hide HeaderLen, SeparatorAt, Find;
    SeparatorNewline(a, HeaderLen(a));
    line, rest := CutAtNewline(a);
    HeaderLenLine(line, rest);
    SeparatorShift(line, rest, HeaderLen(rest));
  }

  lemma CutAtNewline(a: Bytes) returns (line: string, rest: Bytes)
    requires Find(a, '\n') < |a|
    ensures OneLine(line) && a == line + "\n" + rest
  {
    var e := Find(a, '\n');
    line, rest := a[..e], a[e + 1..];
  }

  lemma SeparatorNewline(a: Bytes, i: nat)
    requires SeparatorAt(a, i)
    ensures Find(a, '\n') < |a|
  {
    assert a[i..i + 4][3] == a[i + 3];
  }

  lemma SeparatorShift(line: string, rest: Bytes, i: nat)
    ensures SeparatorAt(line + "\n" + rest, |line| + 1 + i) <==> SeparatorAt(rest, i)
  {
    var a := line + "\n" + rest;
    if i + 4 <= |rest| {
      assert a[|line| + 1 + i..|line| + 1 + i + 4] == rest[i..i + 4];
    }
  }

  lemma {:induction false} HeaderLenAppend(a: Bytes, b: Bytes)
    requires SeparatorAt(a, HeaderLen(a))
    ensures HeaderLen(a + b) == HeaderLen(a)
    decreases |a|
  {
    hide HeaderLen, SeparatorAt;
    var line, rest := FirstLine(a);
    if line != "---" {
      HeaderLenAppend(rest, b);
    }
    HeaderLenLine(line, rest + b);
    assert a + b == line + "\n" + (rest + b);
  }

  lemma ParseFromAppend(a: Bytes, b: Bytes, i: nat)
    requires SeparatorAt(a, i)
    ensures SeparatorAt(a + b, i)
    ensures !ParseFrom(a, i).Incomplete? ==> ParseFrom(a + b, i) == ParseFrom(a, i)
  {
    hide ParseHeader, BuildRecord;
    var d := a + b;
    assert d[i..i + 4] == a[i..i + 4] && d[..i] == a[..i];
    var h := ParseHeader(a[..i]);
    if h.Good? {
      var start := i + 4;
      var end := start + h.value.length;
      if end + 2 <= |a| {
        assert d[start..end] == a[start..end] && d[end..end + 2] == a[end..end + 2];
      }
    }
  }

  /** A complete or malformed verdict at a position never changes when bytes are appended. */
  lemma ParseOneAppend(a: Bytes, b: Bytes)
    ensures !ParseOne(a).Incomplete? ==> ParseOne(a + b) == ParseOne(a)
  {
    hide HeaderLen, ParseFrom;
    if SeparatorAt(a, HeaderLen(a)) {
      HeaderLenAppend(a, b);
      ParseFromAppend(a, b, HeaderLen(a));
    }
  }

  lemma {:induction false} HeaderLenCut(d: Bytes, n: nat)
    requires SeparatorAt(d, HeaderLen(d)) && HeaderLen(d) + 4 <= n <= |d|
    ensures HeaderLen(d[..n]) == HeaderLen(d)
    decreases |d|
  {
    hide HeaderLen, SeparatorAt;
    var line, rest := FirstLine(d);
    var m := n - |line| - 1;
    if line == "---" {
      HeaderLenLine(line, d[..n][4..]);
      assert d[..n] == line + "\n" + d[..n][4..];
    } else {
      HeaderLenCut(rest, m);
      HeaderLenLine(line, rest[..m]);
      assert d[..n] == line + "\n" + rest[..m];
    }
  }

  /** A record's own bytes are enough to parse it. */
  lemma ParseOneCut(d: Bytes)
    requires ParseOne(d).Complete?
    ensures ParseOne(d[..ParseOne(d).next]) == ParseOne(d)
  {
    var n := ParseOne(d).next;
    var i := HeaderLen(d);
    hide HeaderLen;
    HeaderLenCut(d, n);
    assert d[..n][i..i + 4] == d[i..i + 4];
    ParseFromCut(d, i);
    hide ParseFrom;
  }

  lemma ParseFromCut(d: Bytes, i: nat)
    requires SeparatorAt(d, i) && ParseFrom(d, i).Complete?
    requires SeparatorAt(d[..ParseFrom(d, i).next], i)
    ensures ParseFrom(d[..ParseFrom(d, i).next], i) == ParseFrom(d, i)
  {
    hide ParseHeader, BuildRecord;
    var n := ParseFrom(d, i).next;
    var p := d[..n];
    assert p[..i] == d[..i];
    var end := n - 2;
    assert p[i + 4..end] == d[i + 4..end] && p[end..end + 2] == d[end..end + 2];
  }

  // ---- Whole logs ----

  /** One step of ParseAll. */
  lemma ParseAllStep(a: Bytes)
    ensures a == "" ==> ParseAll(a) == Parses([], 0, true)
    ensures a != "" && ParseOne(a).Complete? ==>
              ParseAll(a) == Extend([ParseOne(a).rec], ParseOne(a).next, ParseAll(a[ParseOne(a).next..]))
    ensures a != "" && ParseOne(a).Incomplete? ==> ParseAll(a) == Parses([], 0, false)
    ensures a != "" && ParseOne(a).Malformed? ==> ParseAll(a).Fails?
  {
    hide ParseOne;
  }

  lemma ExtendTwice(xs: seq<Record>, n: nat, ys: seq<Record>, m: nat, more: ParseResult)
    ensures Extend(xs, n, Extend(ys, m, more)) == Extend(xs + ys, n + m, more)
  {
    if more.Parses? {
      assert xs + (ys + more.records) == (xs + ys) + more.records;
    }
  }

  /** Parsing data that starts with whole records is parsing both parts and joining the results. */
  lemma {:induction false} ParseAllAppend(a: Bytes, b: Bytes)
    requires ParseAll(a).Parses? && ParseAll(a).tailComplete
    ensures ParseAll(a + b) == Extend(ParseAll(a).records, |a|, ParseAll(b))
    decreases |a|
  {
    hide ParseOne, ParseAll;
    ParseAllStep(a);
    if a == "" {
      assert a + b == b;
      assert ParseAll(b).Parses? ==> [] + ParseAll(b).records == ParseAll(b).records;
    } else {
      var p := ParseOne(a);
      var rest := a[p.next..];
      ParseOneAppend(a, b);
      ParseAllStep(a + b);
      assert (a + b)[p.next..] == rest + b;
      ParseAllAppend(rest, b);
      ExtendTwice([p.rec], p.next, ParseAll(rest).records, |rest|, ParseAll(b));
    }
  }

  /** The bytes ParseRecords reports as consumed are exactly its records' bytes. */
  lemma {:induction false} ParseAllCut(d: Bytes)
    requires ParseAll(d).Parses?
    ensures var r := ParseAll(d);
            ParseAll(d[..r.consumed]) == Parses(r.records, r.consumed, true)
    decreases |d|
  {
    hide ParseOne, ParseAll;
    ParseAllStep(d);
    if d == "" || !ParseOne(d).Complete? {
      ParseAllStep(d[..0]);
    } else {
      var p := ParseOne(d);
      var rest := d[p.next..];
      ParseAllCut(rest);
      CutStep(d, p.next, ParseAll(rest).consumed);
    }
  }

  /** Every record the parser yields has a clean header. */
  lemma {:induction false} AllParsedAreClean(d: Bytes)
    requires ParseAll(d).Parses?
    ensures forall r :: r in ParseAll(d).records ==> CleanHeader(r)
    decreases |d|
  {
    hide ParseOne, ParseAll, CleanHeader;
    ParseAllStep(d);
    if d != "" && ParseOne(d).Complete? {
      ParsedIsClean(d);
      AllParsedAreClean(d[ParseOne(d).next..]);
    }
  }

  lemma CutStep(d: Bytes, n: nat, k: nat)
    requires ParseOne(d).Complete? && n == ParseOne(d).next && n + k <= |d|
    ensures ParseAll(d[..n + k]) == Extend([ParseOne(d).rec], n, ParseAll(d[n..][..k]))
  {
    hide ParseOne, ParseAll;
    ParseOneCut(d);
    var c := d[..n + k];
    assert c == d[..n] + d[n..][..k] && c[n..] == d[n..][..k];
    ParseOneAppend(d[..n], d[n..][..k]);
    ParseAllStep(c);
  }

  lemma ParseEncodingAll(r: Record)
    requires WellFormed(r)
    ensures ParseAll(Encoding(r)) == Parses([r], |Encoding(r)|, true)
  {
    hide ParseOne, ParseAll, Encoding;
    RoundTrip(r);
    ParseAllStep(Encoding(r));
    ParseAllStep("");
    assert Encoding(r)[|Encoding(r)|..] == "";
  }

  /** Appending one encoding to a log that ends on a record boundary appends its record. */
  lemma AppendRecord(log: Bytes, r: Record)
    requires ParseAll(log).Parses? && ParseAll(log).tailComplete && WellFormed(r)
    ensures ParseAll(log + Encoding(r)) == Parses(ParseAll(log).records + [r], |log| + |Encoding(r)|, true)
  {
    ParseEncodingAll(r);
    ParseAllAppend(log, Encoding(r));
  }

  lemma {:induction false} ParseEncodeAll(rs: seq<Record>)
    requires forall i :: 0 <= i < |rs| ==> WellFormed(rs[i])
    ensures ParseAll(EncodeAll(rs)) == Parses(rs, |EncodeAll(rs)|, true)
  {
    hide Encoding, ParseAll, ParseOne;
    if rs == [] {
      ParseAllStep("");
    } else {
      ParseEncodeAll(rs[1..]);
      ParseEncodingAll(rs[0]);
      ParseAllAppend(Encoding(rs[0]), EncodeAll(rs[1..]));
      assert [rs[0]] + rs[1..] == rs;
    }
  }

  // ---- Torn tails ----

  ghost predicate StrictPrefix(p: Bytes, s: Bytes) {
    |p| < |s| && p == s[..|p|]
  }

  /** Every strict prefix of an encoding is incomplete, never an error. */
  lemma StrictPrefixIncomplete(r: Record, p: Bytes)
    requires WellFormed(r) && StrictPrefix(p, Encoding(r))
    ensures ParseOne(p) == Incomplete
  {
    RoundTrip(r);
    hide ParseOne, Encoding;
    ParseOneAppend(p, Encoding(r)[|p|..]);
    assert p + Encoding(r)[|p|..] == Encoding(r);
  }

  /** A torn append leaves the log's records readable and marks where they end. */
  lemma TornAppend(log: Bytes, r: Record, p: Bytes)
    requires ParseAll(log).Parses? && ParseAll(log).tailComplete
    requires WellFormed(r) && StrictPrefix(p, Encoding(r))
    ensures ParseAll(log + p) == Parses(ParseAll(log).records, |log|, p == "")
  {
    hide Encoding;
    StrictPrefixIncomplete(r, p);
    hide ParseOne;
    ParseAllAppend(log, p);
    assert ParseAll(log).records + [] == ParseAll(log).records;
  }

  /** What recovery leaves of one log: the bytes of its complete records. */
  function Truncated(log: Bytes): Bytes {
    match ParseAll(log)
    case Parses(_, c, complete) => if !complete && c < |log| then log[..c] else log
    case Fails(_) => log
  }

  /** Truncation restores exactly the whole encodings, and doing it again changes nothing. */
  lemma TornTailRecovery(rs: seq<Record>, r: Record, p: Bytes)
    requires forall i :: 0 <= i < |rs| ==> WellFormed(rs[i])
    requires WellFormed(r) && StrictPrefix(p, Encoding(r)) && p != ""
    ensures var log := EncodeAll(rs) + p;
            && ParseAll(log) == Parses(rs, |EncodeAll(rs)|, false)
            && Truncated(log) == EncodeAll(rs)
            && Truncated(Truncated(log)) == EncodeAll(rs)
  {
    hide ParseOne, Encoding;
    ParseEncodeAll(rs);
    TornAppend(EncodeAll(rs), r, p);
  }

  /** On any readable log, truncation keeps the records and leaves a log ending on a boundary. */
  lemma TruncatedIsSettled(log: Bytes)
    requires ParseAll(log).Parses?
    ensures ParseAll(Truncated(log)) == Parses(ParseAll(log).records, |Truncated(log)|, true)
  {
    hide ParseOne, ParseAll;
    ParseAllCut(log);
  }
}
