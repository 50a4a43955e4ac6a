/** Byte strings and the text helpers the bus formats are built from: splitting into lines,
    cutting a header line at its first ": ", and decimal integers.
    A byte is modelled by a char; nothing below depends on how many values a char has. */
module Text {

  type Bytes = string

  datatype Option<+T> = None | Some(value: T)

  ghost predicate OneLine(s: string) {
    '\n' !in s
  }

  /** Position of the first c in s, or |s|. */
  function Find(s: string, c: char): (i: nat)
    ensures i <= |s|
    ensures forall k :: 0 <= k < i ==> s[k] != c
    ensures i < |s| ==> s[i] == c
  {
    if s == "" then 0 else if s[0] == c then 0 else 1 + Find(s[1..], c)
  }

  /** The parts of s between the occurrences of c; always at least one part. */
  function Split(s: string, c: char): (parts: seq<string>)
    ensures |parts| >= 1
    ensures forall i :: 0 <= i < |parts| ==> c !in parts[i]
    decreases |s|
  {
    var i := Find(s, c);
    if i == |s| then
      assert s == s[..i];
      [s]
    else
      [s[..i]] + Split(s[i + 1..], c)
  }

  /** Splits one line at its first ": " into key and value. */
  function Cut(line: string): (kv: Option<(string, string)>)
    ensures kv.Some? ==> line == kv.value.0 + ": " + kv.value.1
  {
    if |line| < 2 then None
    else if line[0] == ':' && line[1] == ' ' then
      assert line == "" + ": " + line[2..];
      Some(("", line[2..]))
    else
      match Cut(line[1..])
      case None => None
      case Some(kv) =>
        assert line == [line[0]] + line[1..];
        Some(([line[0]] + kv.0, kv.1))
  }

  lemma {:induction false} CutLine(k: string, v: string)
    requires ':' !in k
    ensures Cut(k + ": " + v) == Some((k, v))
  {
    var line := k + ": " + v;
    if k == "" {
      assert line[2..] == v;
    } else {
      assert line[0] == k[0] && k[0] in k;
      assert line[1..] == k[1..] + ": " + v;
      CutLine(k[1..], v);
      assert [k[0]] + k[1..] == k;
    }
  }

  // ---- Decimal integers ----

  function Digit(d: int): char
    requires 0 <= d < 10
  {
    ('0' as int + d) as char
  }

  predicate IsDigit(c: char) {
    '0' <= c <= '9'
  }

  predicate AllDigits(s: string) {
    forall i :: 0 <= i < |s| ==> IsDigit(s[i])
  }

  function NatText(n: nat): (s: string)
    ensures s != "" && AllDigits(s)
  {
    if n < 10 then [Digit(n)] else NatText(n / 10) + [Digit(n % 10)]
  }

  /** The decimal form printed by fmt's %d. */
  function Itoa(n: int): (s: string)
    ensures s != "" && s != "-" && OneLine(s)
  {
    if n < 0 then "-" + NatText(-n) else NatText(n)
  }

  function ParseNat(s: string): (n: Option<nat>) {
    if s == "" || !IsDigit(s[|s| - 1]) then None
    else
      var last := s[|s| - 1] as int - '0' as int;
      if |s| == 1 then Some(last)
      else
        match ParseNat(s[..|s| - 1])
        case None => None
        case Some(high) => Some(high * 10 + last)
  }

  /** strconv.Atoi without its 64-bit range check: an optional sign and at least one digit. */
  function Atoi(s: string): Option<int> {
    if s != "" && (s[0] == '-' || s[0] == '+') then
      match ParseNat(s[1..])
      case None => None
      case Some(n) =>
        var v: int := n;
        Some(if s[0] == '-' then -v else v)
    else
      match ParseNat(s)
      case None => None
      case Some(n) => Some(n)
  }

  lemma {:induction false} ParseNatText(n: nat)
    ensures ParseNat(NatText(n)) == Some(n)
  {
    if n >= 10 {
      ParseNatText(n / 10);
      var s := NatText(n);
      assert s[..|s| - 1] == NatText(n / 10);
    }
  }

  lemma AtoiItoa(n: int)
    ensures Atoi(Itoa(n)) == Some(n)
  {
    hide ParseNat, NatText;
    if n < 0 {
      ParseNatText(-n);
      assert Itoa(n)[1..] == NatText(-n);
    } else {
      ParseNatText(n);
      assert IsDigit(NatText(n)[0]);
    }
  }

  // ---- Counter files: state/counter and state/seq.<agent> ----

  predicate IsSpace(c: char) {
    c == ' ' || '\t' <= c <= '\r'
  }

  /** By character codes: tab, line feed, vertical tab, form feed, carriage return and blank. */
  lemma SpaceCodes(c: char)
    ensures IsSpace(c) <==> c as int in {9, 10, 11, 12, 13, 32}
  {
    assert '\t' as int == 9 && '\r' as int == 13 && ' ' as int == 32;
  }

  function TrimSpace(s: string): (t: string)
    decreases |s|
  {
    if s == "" then ""
    else if IsSpace(s[0]) then TrimSpace(s[1..])
    else if IsSpace(s[|s| - 1]) then TrimSpace(s[..|s| - 1])
    else s
  }

  /** What a counter file holds after value v is written. */
  function CounterText(v: nat): Bytes {
    Itoa(v) + "\n"
  }

  /** None stands for the read error: unparseable or negative text. A missing file reads as 0. */
  function ReadCounter(file: Option<Bytes>): Option<nat> {
    match file
    case None => Some(0)
    case Some(text) =>
      match Atoi(TrimSpace(text))
      case Some(v) => if v < 0 then None else Some(v)
      case None => None
  }

  lemma CounterRoundTrip(v: nat)
    ensures ReadCounter(Some(CounterText(v))) == Some(v)
  {
    var s := NatText(v);
    assert IsDigit(s[0]) && IsDigit(s[|s| - 1]);
    assert CounterText(v)[..|s|] == s;
    assert TrimSpace(s) == s;
    assert TrimSpace(CounterText(v)) == s;
    AtoiItoa(v);
  }

  /** What is trimmed is white space at either end, and all of it. */
  lemma {:induction false} TrimExactly(s: string) returns (front: string, back: string)
    ensures s == front + TrimSpace(s) + back
    ensures (forall i :: 0 <= i < |front| ==> IsSpace(front[i])) && (forall i :: 0 <= i < |back| ==> IsSpace(back[i]))
    ensures TrimSpace(s) != "" ==> !IsSpace(TrimSpace(s)[0]) && !IsSpace(TrimSpace(s)[|TrimSpace(s)| - 1])
    decreases |s|
  {
    front, back := "", "";
    if s == "" {
    } else if IsSpace(s[0]) {
      front, back := TrimExactly(s[1..]);
      front := [s[0]] + front;
    } else if IsSpace(s[|s| - 1]) {
      front, back := TrimExactly(s[..|s| - 1]);
      back := back + [s[|s| - 1]];
    }
  }

  /** A missing counter file counts as 0; any other reads as the integer in it, or fails if that is negative or
      there is none. */
  lemma ReadCounterExactly(file: Option<Bytes>, v: nat)
    ensures ReadCounter(None) == Some(0)
    ensures file.Some? ==> (ReadCounter(file) == Some(v) <==> Atoi(TrimSpace(file.value)) == Some(v))
    ensures ReadCounter(file) == None <==>
              file.Some? && forall n: nat :: Atoi(TrimSpace(file.value)) != Some(n)
  {
    hide Atoi, TrimSpace;
    if file.Some? && ReadCounter(file).Some? {
      assert Atoi(TrimSpace(file.value)) == Some(ReadCounter(file).value);
    }
  }
}
