/** The parser from the outside: which bytes it accepts, which it refuses, and that it waits for more bytes
    only when more bytes can still decide, so that what a recovery cuts off is a torn append. */
module ParserLaws {
  import opened Text
  import opened Codec
  import opened CodecLaws
  import opened Storage

  // ---- The format, byte by byte ----

  /** The encoding written out: ten header lines, the separator line, the body and a blank line. */
  lemma EncodingIs(r: Record)
    ensures Encoding(r)
            == Unlines(["seq: " + Itoa(r.seqNo), "id: " + Itoa(r.id), "from: " + r.from, "from_role: " + r.fromRole,
                        "to: " + r.to, "kind: " + r.kind,
                        "in_reply_to: " + (if r.inReplyTo == None then "-" else Itoa(r.inReplyTo.value)), "ts: " + r.ts,
                        "dedup_id: " + (if r.dedup == None || r.dedup == Some("") then "-" else r.dedup.value),
                        "len: " + Itoa(|r.body|), "---"])
               + r.body + "\n\n"
  {
    var ls := LinesOf(HeaderPairs(r));
    RenderUnlines(HeaderPairs(r));
    UnlinesConcat(ls, ["---"]);
    assert ["---"][1..] == [] && Unlines(["---"]) == "---\n";
    hide Itoa, Unlines, Render;
    HeaderLines(r);
  }

  lemma HeaderLines(r: Record)
    ensures LinesOf(HeaderPairs(r)) + ["---"]
            == ["seq: " + Itoa(r.seqNo), "id: " + Itoa(r.id), "from: " + r.from, "from_role: " + r.fromRole,
                "to: " + r.to, "kind: " + r.kind,
                "in_reply_to: " + (if r.inReplyTo == None then "-" else Itoa(r.inReplyTo.value)), "ts: " + r.ts,
                "dedup_id: " + (if r.dedup == None || r.dedup == Some("") then "-" else r.dedup.value),
                "len: " + Itoa(|r.body|), "---"]
  {
    hide Itoa;
    assert "seq" + ": " == "seq: " && "id" + ": " == "id: " && "from" + ": " == "from: " && "to" + ": " == "to: ";
    assert "from_role" + ": " == "from_role: " && "kind" + ": " == "kind: " && "in_reply_to" + ": " == "in_reply_to: ";
    assert "ts" + ": " == "ts: " && "dedup_id" + ": " == "dedup_id: " && "len" + ": " == "len: ";
  }

  // ---- Cutting a header line ----

  /** A line has no field exactly when ": " is nowhere in it; otherwise the cut is at its first ": ". */
  lemma {:induction false} CutExactly(line: string)
    ensures Cut(line).None? <==> forall i :: 0 <= i < |line| - 1 ==> !(line[i] == ':' && line[i + 1] == ' ')
    ensures Cut(line).Some? ==>
              var n := |Cut(line).value.0|;
              && line == Cut(line).value.0 + ": " + Cut(line).value.1
              && forall i :: 0 <= i < n ==> !(line[i] == ':' && line[i + 1] == ' ')
  {
    if |line| >= 2 && !(line[0] == ':' && line[1] == ' ') {
      var rest := line[1..];
      CutExactly(rest);
      assert forall i :: 0 <= i < |rest| ==> rest[i] == line[i + 1];
      assert forall i :: 1 <= i < |line| ==> line[i] == rest[i - 1];
    }
  }

  // ---- Integers and timestamps ----

  lemma {:induction false} ParseNatExactly(s: string)
    ensures ParseNat(s).Some? <==> s != "" && AllDigits(s)
  {
    if |s| >= 2 && IsDigit(s[|s| - 1]) {
      ParseNatExactly(s[..|s| - 1]);
      assert forall i :: 0 <= i < |s| - 1 ==> s[..|s| - 1][i] == s[i];
    }
  }

  ghost predicate SignedDigits(s: string, sign: string, digits: string) {
    s == sign + digits && sign in {"", "-", "+"} && digits != "" && AllDigits(digits)
  }

  lemma SignedIsInteger(s: string, sign: string, digits: string)
    requires SignedDigits(s, sign, digits)
    ensures ParseNat(digits).Some?
    ensures var n: int := ParseNat(digits).value; Atoi(s) == Some(if sign == "-" then -n else n)
  {
    ParseNatExactly(digits);
    assert digits[0] != '-' && digits[0] != '+' by { assert IsDigit(digits[0]); }
    hide ParseNat, AllDigits;
    if sign == "" {
      assert s == digits;
    } else {
      assert s[0] == sign[0] && s[1..] == digits;
    }
  }

  lemma IntegerIsSigned(s: string) returns (sign: string, digits: string)
    requires Atoi(s).Some?
    ensures SignedDigits(s, sign, digits)
  {
    if s != "" && (s[0] == '-' || s[0] == '+') {
      ParseNatExactly(s[1..]);
      sign, digits := [s[0]], s[1..];
    } else {
      ParseNatExactly(s);
      sign, digits := "", s;
    }
    hide ParseNat, AllDigits;
    assert s == sign + digits;
  }

  /** Text is an integer exactly when it is digits, at least one, behind at most one sign. */
  lemma AtoiExactly(s: string)
    ensures Atoi(s).Some? <==> exists sign, digits :: SignedDigits(s, sign, digits)
  {
    hide Atoi, SignedDigits;
    if Atoi(s).Some? {
      var sign, digits := IntegerIsSigned(s);
    }
    forall sign, digits | SignedDigits(s, sign, digits) ensures Atoi(s).Some? {
      SignedIsInteger(s, sign, digits);
    }
  }

  lemma {:induction false} LeadingZero(t: string)
    requires t != "" && AllDigits(t)
    ensures ParseNat("0" + t) == ParseNat(t)
  {
    var s := "0" + t;
    assert s[|s| - 1] == t[|t| - 1] && s[..|s| - 1] == "0" + t[..|t| - 1];
    ParseNatExactly(t);
    if |t| == 1 {
      assert s[..|s| - 1] == "0" && ParseNat("0") == Some(0);
    } else {
      LeadingZero(t[..|t| - 1]);
    }
  }

  /** Leading zeros and a plus sign change no value, and a minus sign negates it: with the round trip of the
      shortest form that fixes the value of every integer text. */
  lemma SignsAndZeros(t: string)
    requires t != "" && AllDigits(t)
    ensures Atoi(t).Some? && Atoi("0" + t) == Atoi(t) && Atoi("+" + t) == Atoi(t) && Atoi("-" + t) == Some(-Atoi(t).value)
  {
    LeadingZero(t);
    assert AllDigits("0" + t);
    hide ParseNat, AllDigits, Atoi;
    assert "" + t == t && "" + ("0" + t) == "0" + t;
    SignedIsInteger(t, "", t);
    SignedIsInteger("0" + t, "", "0" + t);
    SignedIsInteger("+" + t, "+", t);
    SignedIsInteger("-" + t, "-", t);
  }

  /** The decimal form, digit by digit. */
  lemma DecimalForm(n: nat, k: nat)
    requires k < 10
    ensures Itoa(k) == ["0123456789"[k]]
    ensures n > 0 ==> Itoa(10 * n + k) == Itoa(n) + ["0123456789"[k]] && Itoa(-(10 * n + k)) == "-" + Itoa(10 * n + k)
  {
    assert "0123456789"[k] as int == '0' as int + k;
    assert (10 * n + k) / 10 == n && (10 * n + k) % 10 == k;
  }

  lemma DigitsOf(s: string, i: nat, n: nat)
    requires i + n <= |s| && forall k :: i <= k < i + n ==> IsDigit(s[k])
    ensures |s[i..i + n]| == n && AllDigits(s[i..i + n])
  {
  }

  ghost predicate Stamp(s: string, year: string, month: string, day: string, hour: string, minute: string, second: string) {
    && s == year + "-" + month + "-" + day + "T" + hour + ":" + minute + ":" + second + "Z"
    && |year| == 4 && |month| == |day| == |hour| == |minute| == |second| == 2
    && AllDigits(year) && AllDigits(month) && AllDigits(day) && AllDigits(hour) && AllDigits(minute) && AllDigits(second)
  }

  /** A timestamp is six groups of digits, four and then five times two, between the fixed marks. */
  lemma TimestampExactly(s: string)
    ensures IsTimestamp(s) <==> exists y, mo, d, h, mi, se :: Stamp(s, y, mo, d, h, mi, se)
  {
    hide IsTimestamp, Stamp;
    if IsTimestamp(s) {
      var y, mo, d, h, mi, se := TimestampGroups(s);
    }
    forall y, mo, d, h, mi, se | Stamp(s, y, mo, d, h, mi, se) ensures IsTimestamp(s) {
      GroupsAreTimestamp(s, y, mo, d, h, mi, se);
    }
  }

  lemma TimestampGroups(s: string)
    returns (y: string, mo: string, d: string, h: string, mi: string, se: string)
    requires IsTimestamp(s)
    ensures Stamp(s, y, mo, d, h, mi, se)
  {
    DigitsOf(s, 0, 4);
    DigitsOf(s, 5, 2);
    DigitsOf(s, 8, 2);
    DigitsOf(s, 11, 2);
    DigitsOf(s, 14, 2);
    DigitsOf(s, 17, 2);
    hide AllDigits, IsDigit;
    y, mo, d, h, mi, se := s[0..4], s[5..7], s[8..10], s[11..13], s[14..16], s[17..19];
    var t := y + "-" + mo + "-" + d + "T" + h + ":" + mi + ":" + se + "Z";
    assert |t| == |s|;
    assert t == s;
  }

  lemma GroupsAreTimestamp(s: string, y: string, mo: string, d: string, h: string, mi: string, se: string)
    requires Stamp(s, y, mo, d, h, mi, se)
    ensures IsTimestamp(s)
  {
    assert s[0..4] == y && s[5..7] == mo && s[8..10] == d && s[11..13] == h && s[14..16] == mi && s[17..19] == se;
    forall i | 0 <= i < 19 && i != 4 && i != 7 && i != 10 && i != 13 && i != 16 ensures IsDigit(s[i]) {
      if i < 4 {
        assert s[i] == y[i];
      } else if i < 7 {
        assert s[i] == mo[i - 5];
      } else if i < 10 {
        assert s[i] == d[i - 8];
      } else if i < 13 {
        assert s[i] == h[i - 11];
      } else if i < 16 {
        assert s[i] == mi[i - 14];
      } else {
        assert s[i] == se[i - 17];
      }
    }
  }

  // ---- What a whole record is read as ----

  ghost predicate AllThere(f: map<string, string>) {
    && "seq" in f && "id" in f && "from" in f && "from_role" in f && "to" in f && "kind" in f && "in_reply_to" in f
    && "ts" in f && "dedup_id" in f && "len" in f
  }

  /** The ten fields are there, the numbers are numbers, and the time is one. */
  ghost predicate GoodFields(f: map<string, string>) {
    && AllThere(f)
    && Atoi(f["seq"]).Some? && Atoi(f["id"]).Some? && IsTimestamp(f["ts"])
    && (f["in_reply_to"] == "-" || Atoi(f["in_reply_to"]).Some?)
  }

  /** Header lines in any order, with any further fields, the last of several winning, then the separator, a
      body of the announced length and a blank line: that is one record, of these very values, if the fields
      are good, and malformed if they are not, whatever follows. */
  lemma HeaderDecides(ps: seq<(string, string)>, f: map<string, string>, body: Bytes, more: Bytes)
    requires GoodPairs(ps) && f == Assign(ps, map[]) && ("len" in f ==> Atoi(f["len"]) == Some(|body|))
    ensures var p := ParseOne(Render(ps) + "---\n" + (body + "\n\n" + more));
            && (p.Complete? <==> GoodFields(f)) && (p.Malformed? <==> !GoodFields(f))
            && (p.Complete? ==>
                  && p.next == |Render(ps)| + 4 + |body| + 2
                  && Some(p.rec.seqNo) == Atoi(f["seq"]) && Some(p.rec.id) == Atoi(f["id"])
                  && p.rec.from == f["from"] && p.rec.fromRole == f["from_role"] && p.rec.to == f["to"]
                  && p.rec.kind == f["kind"] && p.rec.ts == f["ts"] && p.rec.body == body
                  && p.rec.inReplyTo == (if f["in_reply_to"] == "-" then None else Atoi(f["in_reply_to"]))
                  && p.rec.dedup == if f["dedup_id"] == "-" then None else Some(f["dedup_id"]))
  {
    var rest := body + "\n\n" + more;
    var i := |Render(ps)|;
    HeaderLenRender(ps, rest);
    ReadHeader(ps, f, |body|);
    BodyParts(Render(ps), body, more);
    hide HeaderLen, ParseHeader, BuildRecord, Assign, Render, GoodPairs, Atoi, IsTimestamp;
    if ParseHeader(Render(ps)).Good? {
      ReadRecord(ParseHeader(Render(ps)).value, body);
    }
  }

  lemma BodyParts(head: Bytes, body: Bytes, more: Bytes)
    ensures var data := head + "---\n" + (body + "\n\n" + more);
            var i := |head|;
            && i + 4 + |body| + 2 <= |data| && data[..i] == head && data[i + 4..i + 4 + |body|] == body
            && data[i + 4 + |body|..i + 4 + |body| + 2] == "\n\n"
  {
  }

  lemma ReadHeader(ps: seq<(string, string)>, f: map<string, string>, n: nat)
    requires GoodPairs(ps) && f == Assign(ps, map[]) && ("len" in f ==> Atoi(f["len"]) == Some(n))
    ensures var h := ParseHeader(Render(ps));
            && (h.Good? <==> AllThere(f) && Atoi(f["seq"]).Some? && Atoi(f["id"]).Some?)
            && (h.Good? ==> h.value == Header(f, Atoi(f["seq"]).value, Atoi(f["id"]).value, n))
  {
    HeaderFields(ps);
    FirstMissingExactly(f, RECORD_FIELDS);
    FieldNames(f);
    hide Split, UntilBlank, FieldMap, Assign, Render, GoodPairs, Atoi, FirstMissing;
  }

  lemma ReadRecord(h: Header, body: Bytes)
    requires HasAllFields(h.fields)
    ensures AllThere(h.fields)
    ensures var f := h.fields;
            var p := BuildRecord(h, body);
            && (p.Good? <==> IsTimestamp(f["ts"]) && (f["in_reply_to"] == "-" || Atoi(f["in_reply_to"]).Some?))
            && (p.Good? ==>
                  p.value == Record(h.seqNo, h.id, f["from"], f["from_role"], f["to"], f["kind"],
                                    if f["in_reply_to"] == "-" then None else Atoi(f["in_reply_to"]), f["ts"],
                                    if f["dedup_id"] == "-" then None else Some(f["dedup_id"]), body))
  {
    FieldNames(h.fields);
    hide Atoi, IsTimestamp;
  }

  lemma {:induction false} FirstMissingExactly(f: map<string, string>, names: seq<string>)
    ensures FirstMissing(f, names).None? <==> forall n :: n in names ==> n in f
  {
    if names != [] {
      FirstMissingExactly(f, names[1..]);
      assert names == [names[0]] + names[1..];
    }
  }

  lemma FieldNames(f: map<string, string>)
    ensures HasAllFields(f) <==> AllThere(f)
  {
    var ns := RECORD_FIELDS;
    assert ns[0] == "seq" && ns[1] == "id" && ns[2] == "from" && ns[3] == "from_role" && ns[4] == "to";
    assert ns[5] == "kind" && ns[6] == "in_reply_to" && ns[7] == "ts" && ns[8] == "dedup_id" && ns[9] == "len";
  }

  // ---- An incomplete record can be ended ----

  lemma DashesSeparate(rest: Bytes)
    ensures SeparatorAt("---" + "\n" + rest, HeaderLen("---" + "\n" + rest))
  {
    HeaderLenLine("---", rest);
    assert ("---" + "\n" + rest)[0..4] == "---\n";
  }

  lemma LineSeparates(line: string, rest: Bytes)
    requires OneLine(line) && line != "---"
    ensures HeaderLen(line + "\n" + rest) == |line| + 1 + HeaderLen(rest)
    ensures SeparatorAt(line + "\n" + rest, HeaderLen(line + "\n" + rest)) <==> SeparatorAt(rest, HeaderLen(rest))
  {
    hide HeaderLen;
    HeaderLenLine(line, rest);
    SeparatorShift(line, rest, HeaderLen(rest));
  }

  /** Where the header scan stops without a separator, only an unfinished line is left. */
  lemma {:induction false} NoSeparatorYet(d: Bytes)
    requires !SeparatorAt(d, HeaderLen(d))
    ensures OneLine(d[HeaderLen(d)..])
    decreases |d|
  {
    hide HeaderLen, SeparatorAt;
    if Find(d, '\n') == |d| {
      HeaderStep(d, 0, |d|);
      assert d[0..] == d;
    } else {
      var line, rest := CutAtNewline(d);
      if line == "---" {
        DashesSeparate(rest);
      } else {
        LineSeparates(line, rest);
        NoSeparatorYet(rest);
        assert d[HeaderLen(d)..] == rest[HeaderLen(rest)..];
      }
    }
  }

  lemma SeparatorComes(u: string)
    requires OneLine(u)
    ensures SeparatorAt(u + "\n---\n", HeaderLen(u + "\n---\n"))
  {
    hide HeaderLen, SeparatorAt;
    var rest := "---" + "\n" + "";
    DashesSeparate("");
    assert u + "\n---\n" == u + "\n" + rest;
    if u == "---" {
      DashesSeparate(rest);
    } else {
      LineSeparates(u, rest);
    }
  }

  lemma {:induction false} ScanGoesOn(d: Bytes, more: Bytes)
    requires !SeparatorAt(d, HeaderLen(d))
    ensures var u := d[HeaderLen(d)..] + more;
            SeparatorAt(u, HeaderLen(u)) ==> SeparatorAt(d + more, HeaderLen(d + more))
    decreases |d|
  {
    hide HeaderLen, SeparatorAt;
    if Find(d, '\n') == |d| {
      HeaderStep(d, 0, |d|);
      assert d[0..] == d;
    } else {
      var line, rest := CutAtNewline(d);
      assert d + more == line + "\n" + (rest + more);
      if line == "---" {
        DashesSeparate(rest);
      } else {
        LineSeparates(line, rest);
        LineSeparates(line, rest + more);
        ScanGoesOn(rest, more);
        assert d[HeaderLen(d)..] == rest[HeaderLen(rest)..];
      }
    }
  }

  lemma LongFrom(d: Bytes, more: Bytes, i: nat)
    requires SeparatorAt(d, i) && SeparatorAt(d + more, i)
    requires ParseHeader(d[..i]).Good? ==> |more| >= ParseHeader(d[..i]).value.length + 2
    ensures !ParseFrom(d + more, i).Incomplete?
  {
    hide ParseHeader, BuildRecord;
    assert (d + more)[..i] == d[..i];
  }

  /** More bytes than the announced length wants decide a record whose header is there. */
  lemma LongEnough(d: Bytes) returns (more: Bytes)
    requires SeparatorAt(d, HeaderLen(d))
    ensures !ParseOne(d + more).Incomplete?
  {
    hide HeaderLen, ParseHeader, ParseFrom;
    var i := HeaderLen(d);
    var h := ParseHeader(d[..i]);
    more := if h.Good? then seq(h.value.length + 2, _ => ' ') else "";
    HeaderLenAppend(d, more);
    assert (d + more)[i..i + 4] == d[i..i + 4];
    LongFrom(d, more, i);
  }

  /** The parser waits only for what can still come: some bytes end every incomplete record. */
  lemma IncompleteCanEnd(d: Bytes)
    ensures exists more :: !ParseOne(d + more).Incomplete?
  {
    hide ParseOne;
    if SeparatorAt(d, HeaderLen(d)) {
      var more := LongEnough(d);
    } else {
      NoSeparatorYet(d);
      SeparatorComes(d[HeaderLen(d)..]);
      ScanGoesOn(d, "\n---\n");
      var more := LongEnough(d + "\n---\n");
      assert d + "\n---\n" + more == d + ("\n---\n" + more);
    }
  }

  /** So a log is read as torn only where appended bytes can decide: behind the bytes it consumed they make one
      more record, or show the log to be malformed. What no append could have left is never cut off. */
  lemma TornTailCanEnd(log: Bytes)
    requires Readable(log) && !Settled(log)
    ensures exists more :: ParseAll(log + more).Fails? || |RecordsIn(log + more)| > |RecordsIn(log)|
  {
    hide ParseOne, ParseAll;
    var n := ParseAll(log).consumed;
    var whole, tail := log[..n], log[n..];
    ParseAllCut(log);
    IncompleteCanEnd(tail);
    var more :| !ParseOne(tail + more).Incomplete?;
    assert log + more == whole + (tail + more);
    ParseAllAppend(whole, tail + more);
    OneMoreAtLeast(tail + more);
  }

  lemma OneMoreAtLeast(d: Bytes)
    requires d != "" && !ParseOne(d).Incomplete?
    ensures ParseAll(d).Fails? || |RecordsIn(d)| >= 1
  {
    hide ParseOne, ParseAll;
    ParseAllStep(d);
  }
}
