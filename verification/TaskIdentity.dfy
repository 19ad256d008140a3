/**
 The task identity in the answer of the one physical command: a bare identity, or one JSON string
 at the very end. Text is a sequence of code points, and strings are read as Python's decoder reads
 them: unlike in `JsonText`, a surrogate may stand alone.
 */
module TaskIdentity {
  import opened Wrappers
  import JsonText
  import Text

  type Codes = seq<int>

  const QUOTE := '"' as int
  const BACKSLASH := '\\' as int
  const COLON := ':' as int
  const TAG: Codes := ['U' as int, 'P' as int, 'I' as int, 'D' as int]

  predicate Between(c: int, low: char, high: char)
  {
    low as int <= c <= high as int
  }

  predicate Space(c: int)
  {
    0 <= c < 0xD800 && Text.Whitespace(c as char)
  }

  predicate Blank(s: Codes)
  {
    forall i :: 0 <= i < |s| ==> Space(s[i])
  }

  // ---------------------------------------------------------------------------
  // The identity's form
  // ---------------------------------------------------------------------------

  function Parts(s: Codes): (parts: seq<Codes>)
    ensures parts != []
  {
    if s == [] then [[]]
    else
      var rest := Parts(s[1..]);
      if s[0] == COLON then [[]] + rest else [[s[0]] + rest[0]] + rest[1..]
  }

  predicate AlphaNumeric(c: int)
  {
    Between(c, 'a', 'z') || Between(c, 'A', 'Z') || Between(c, '0', '9')
  }

  predicate IsNode(s: Codes)
  {
    && s != [] && AlphaNumeric(s[0]) && AlphaNumeric(s[|s| - 1])
    && forall i :: 0 <= i < |s| ==> AlphaNumeric(s[i]) || s[i] == '-' as int
  }

  predicate IsHex(s: Codes)
  {
    forall i :: 0 <= i < |s| ==> HexValue(s[i]).Some?
  }

  predicate IsField(s: Codes)
  {
    forall i :: 0 <= i < |s| ==> !Space(s[i]) && s[i] != '/' as int
  }

  predicate IsUpid(s: Codes)
  {
    var p := Parts(s);
    && |p| == 9 && p[0] == TAG && IsNode(p[1])
    && |p[2]| == 8 && IsHex(p[2]) && |p[3]| in {8, 9} && IsHex(p[3]) && |p[4]| == 8 && IsHex(p[4])
    && p[5] != [] && IsField(p[5]) && IsField(p[6]) && p[7] != [] && IsField(p[7]) && p[8] == []
  }

  function Colons(s: Codes): nat
  {
    if s == [] then 0 else (if s[0] == COLON then 1 else 0) + Colons(s[1..])
  }

  lemma {:induction false} PartsCountColons(s: Codes)
    ensures |Parts(s)| == Colons(s) + 1
  {
    if s != [] { PartsCountColons(s[1..]); }
  }

  /** The first part stands at the start of the text, up to a colon if there is one. */
  lemma {:induction false} FirstPart(s: Codes)
    ensures |Parts(s)[0]| <= |s| && s[..|Parts(s)[0]|] == Parts(s)[0]
    ensures |Parts(s)| > 1 ==> |Parts(s)[0]| < |s| && s[|Parts(s)[0]|] == COLON
  {
    if s != [] && s[0] != COLON {
      FirstPart(s[1..]);
      var n := |Parts(s[1..])[0]|;
      assert Parts(s)[0] == [s[0]] + Parts(s[1..])[0] && s[..n + 1] == [s[0]] + s[1..][..n];
    }
  }

  /** An empty last part after others means that the text ends with a colon. */
  lemma {:induction false} LastPart(s: Codes)
    requires |Parts(s)| > 1 && Parts(s)[|Parts(s)| - 1] == []
    ensures s != [] && s[|s| - 1] == COLON
  {
    var rest := Parts(s[1..]);
    if |rest| == 1 {
      PartsCountColons(s[1..]);
      if s[1..] != [] { FirstPart(s[1..]); LonePart(s[1..]); }
    } else {
      assert Parts(s)[|Parts(s)| - 1] == rest[|rest| - 1];
      LastPart(s[1..]);
      assert s[|s| - 1] == s[1..][|s| - 2];
    }
  }

  lemma {:induction false} LonePart(s: Codes)
    requires |Parts(s)| == 1
    ensures Parts(s) == [s]
  {
    if s != [] {
      LonePart(s[1..]);
      assert [s[0]] + s[1..] == s;
    }
  }

  lemma UpidShape(s: Codes)
    requires IsUpid(s)
    ensures |s| >= 5 && s[..4] == TAG && s[4] == COLON && s[|s| - 1] == COLON && Colons(s) == 8
  {
    PartsCountColons(s);
    FirstPart(s);
    LastPart(s);
  }

  lemma {:induction false} ColonsOfSuffix(s: Codes, k: nat)
    requires k <= |s|
    ensures Colons(s) >= Colons(s[k..]) && (Colons(s) == Colons(s[k..]) ==> COLON !in s[..k])
  {
    if k > 0 {
      ColonsOfSuffix(s[1..], k - 1);
      assert s[1..][k - 1..] == s[k..] && s[..k] == [s[0]] + s[1..][..k - 1];
    }
  }

  /** No identity follows a quote inside another one: too few colons are left for it. */
  lemma NoInnerUpid(s: Codes, k: nat)
    requires IsUpid(s) && 0 < k <= |s| && s[k - 1] == QUOTE
    ensures !IsUpid(s[k..])
  {
    UpidShape(s);
    ColonsOfSuffix(s, k);
    assert forall i :: 0 <= i < 4 ==> s[i] == s[..4][i] == TAG[i];
    assert s[..k][4] == COLON;
    if IsUpid(s[k..]) { UpidShape(s[k..]); }
  }

  // ---------------------------------------------------------------------------
  // JSON strings, as section 7 of RFC 8259 spells them
  // ---------------------------------------------------------------------------

  function HexValue(c: int): (r: Option<nat>)
    ensures r.Some? ==> c != QUOTE
  {
    if Between(c, '0', '9') then Some(c - '0' as int)
    else if Between(c, 'a', 'f') then Some(c - 'a' as int + 10)
    else if Between(c, 'A', 'F') then Some(c - 'A' as int + 10)
    else None
  }

  function Short(c: int): Option<int>
  {
    if c == QUOTE || c == BACKSLASH || c == '/' as int then Some(c)
    else if c == 'b' as int then Some(8)
    else if c == 'f' as int then Some(12)
    else if c == 'n' as int then Some(10)
    else if c == 'r' as int then Some(13)
    else if c == 't' as int then Some(9)
    else None
  }

  /** The code unit of the `\uXXXX` escape at this place. */
  function ReadUnit(text: Codes, at: nat): (r: Option<nat>)
    ensures r.Some? ==> at + 6 <= |text| && forall i :: at <= i < at + 6 ==> text[i] != QUOTE
  {
    if at + 6 > |text| || text[at] != BACKSLASH || text[at + 1] != 'u' as int then None
    else
      var h, i, j, k := HexValue(text[at + 2]), HexValue(text[at + 3]), HexValue(text[at + 4]), HexValue(text[at + 5]);
      if h.Some? && i.Some? && j.Some? && k.Some?
      then Some(h.value * 4096 + i.value * 256 + j.value * 16 + k.value) else None
  }

  predicate HighHalf(n: nat) { 0xD800 <= n < 0xDC00 }
  predicate LowHalf(n: nat) { 0xDC00 <= n < 0xE000 }

  /** The code point spelled at this place and where its spelling ends; halves of a pair are joined, others stand alone. */
  function ReadCode(text: Codes, at: nat): (r: Option<(int, nat)>)
    ensures r.Some? ==> at < r.value.1 <= |text|
    // an escape can spell a quote, but only as its last character
    ensures r.Some? ==> forall i :: at <= i < r.value.1 && text[i] == QUOTE ==> r.value == (QUOTE, i + 1)
  {
    if at >= |text| || 0 <= text[at] < 0x20 || text[at] == QUOTE then None
    else if text[at] != BACKSLASH then Some((text[at], at + 1))
    else if at + 2 <= |text| && Short(text[at + 1]).Some? then Some((Short(text[at + 1]).value, at + 2))
    else
      match ReadUnit(text, at)
      case None => None
      case Some(unit) =>
        var next := ReadUnit(text, at + 6);
        if HighHalf(unit) && next.Some? && LowHalf(next.value)
        then Some((0x10000 + (unit - 0xD800) * 1024 + (next.value - 0xDC00), at + 12))
        else Some((unit, at + 6))
  }

  /** A reader of single code points: the one at this place, and where its spelling ends. */
  type Reader = (Codes, nat) -> Option<(int, nat)>

  ghost predicate Advances(read: Reader)
  {
    forall text, at: nat :: read(text, at).Some? ==> at < read(text, at).value.1 <= |text|
  }

  /** What the string whose contents start at this place spells, and where it ends, closing quote included. */
  function ReadWith(read: Reader, text: Codes, at: nat): (r: Option<(Codes, nat)>)
    requires Advances(read)
    ensures r.Some? ==> at < r.value.1 <= |text| && text[r.value.1 - 1] == QUOTE
    decreases if at < |text| then |text| - at else 0
  {
    if at >= |text| then None
    else if text[at] == QUOTE then Some(([], at + 1))
    else
      match read(text, at)
      case None => None
      case Some((c, next)) =>
        match ReadWith(read, text, next)
        case None => None
        case Some((s, end)) => Some(([c] + s, end))
  }

  lemma CodesAdvance()
    ensures Advances(ReadCode)
  {
  }

  function ReadString(text: Codes, at: nat): (r: Option<(Codes, nat)>)
    ensures r.Some? ==> at < r.value.1 <= |text| && text[r.value.1 - 1] == QUOTE
  {
    CodesAdvance();
    ReadWith(ReadCode, text, at)
  }

  /** A string that starts at a quote inside another one is the end of that one. */
  lemma InnerString(text: Codes, at: nat, m: nat) returns (k: nat)
    requires at <= m < |text| && text[m] == QUOTE
    requires ReadString(text, at).Some? && m + 1 < ReadString(text, at).value.1
    ensures var (s, end) := ReadString(text, at).value;
            0 < k <= |s| && s[k - 1] == QUOTE && ReadString(text, m + 1) == Some((s[k..], end))
  {
    CodesAdvance();
    k := InnerWith(ReadCode, text, at, m);
  }

  /** A quote inside a spelling is its last character, and is what is spelled. */
  ghost predicate QuotesLast(read: Reader, text: Codes)
  {
    forall at: nat :: read(text, at).Some? ==> QuoteLast(text, at, read(text, at).value)
  }

  predicate QuoteLast(text: Codes, at: nat, spelled: (int, nat))
  {
    forall i :: at <= i < spelled.1 && i < |text| && text[i] == QUOTE ==> spelled == (QUOTE, i + 1)
  }

  lemma {:induction false} InnerWith(read: Reader, text: Codes, at: nat, m: nat) returns (k: nat)
    requires Advances(read) && QuotesLast(read, text) && at <= m < |text| && text[m] == QUOTE
    requires ReadWith(read, text, at).Some? && m + 1 < ReadWith(read, text, at).value.1
    ensures var (s, end) := ReadWith(read, text, at).value;
            0 < k <= |s| && s[k - 1] == QUOTE && ReadWith(read, text, m + 1) == Some((s[k..], end))
    decreases |text| - at
  {
    var (c, next) := read(text, at).value;
    var s := ReadWith(read, text, next).value.0;
    if m < next {
      assert QuoteLast(text, at, (c, next));
      k := 1;
    } else {
      k := InnerWith(read, text, next, m);
      k := k + 1;
    }
    ConsSlice(c, s, k);
  }

  lemma ConsSlice(c: int, s: Codes, k: nat)
    requires 0 < k <= |s| + 1
    ensures ([c] + s)[k..] == s[k - 1..] && ([c] + s)[k - 1] == if k == 1 then c else s[k - 2]
  {
  }

  // ---------------------------------------------------------------------------
  // The answer
  // ---------------------------------------------------------------------------

  /** The identity that a JSON string from `start` to the end of the text spells, white space aside. */
  function Candidate(text: Codes, start: nat): (r: Option<Codes>)
    requires start < |text|
    ensures r.Some? ==> IsUpid(r.value)
  {
    if text[start] != QUOTE then None
    else
      match ReadString(text, start + 1)
      case None => None
      case Some((decoded, end)) => if IsUpid(decoded) && Blank(text[end..]) then Some(decoded) else None
  }

  predicate Names(text: Codes, start: nat, upid: Codes)
  {
    start < |text| && Candidate(text, start) == Some(upid)
  }

  /** The text's last mark, white space aside. */
  predicate EndsAt(text: Codes, last: nat)
  {
    last < |text| && !Space(text[last]) && forall k :: last < k < |text| ==> Space(text[k])
  }

  lemma NamesEnd(text: Codes, start: nat, upid: Codes) returns (last: nat)
    requires Names(text, start, upid)
    ensures start < last && EndsAt(text, last) && text[last] == QUOTE
    ensures ReadString(text, start + 1) == Some((upid, last + 1))
  {
    last := ReadString(text, start + 1).value.1 - 1;
    assert forall k :: last < k < |text| ==> text[k] == text[last + 1..][k - last - 1];
  }

  lemma BareEnd(text: Codes, upid: Codes) returns (last: nat)
    requires IsBare(text, upid)
    ensures EndsAt(text, last) && text[last] == COLON
  {
    UpidShape(upid);
    var a: Codes, b: Codes :| Blank(a) && Blank(b) && text == a + upid + b;
    last := |a| + |upid| - 1;
    assert text[last] == upid[|upid| - 1];
    assert forall k :: last < k < |text| ==> text[k] == b[k - last - 1];
  }

  lemma NotLater(text: Codes, i: nat, u: Codes, j: nat, v: Codes)
    requires Names(text, i, u) && Names(text, j, v)
    ensures j <= i
  {
    if i < j {
      var last := NamesEnd(text, i, u);
      var other := NamesEnd(text, j, v);
      assert last == other;
      var k := InnerString(text, i + 1, j);
      NoInnerUpid(u, k);
    }
  }

  /** Whatever the text, at most one of its quotes starts a candidate. */
  lemma OneCandidate(text: Codes, i: nat, u: Codes, j: nat, v: Codes)
    requires Names(text, i, u) && Names(text, j, v)
    ensures i == j && u == v
  {
    NotLater(text, i, u, j, v);
    NotLater(text, j, v, i, u);
  }

  /** The tag of an identity occurs in the text. */
  predicate Mentions(s: Codes)
  {
    exists k :: 0 <= k < |s| && TagAt(s, k)
  }

  predicate TagAt(s: Codes, k: nat)
  {
    k + 5 <= |s| && s[k..k + 5] == TAG + [COLON]
  }

  /** The whole answer is the identity, white space aside. */
  ghost predicate IsBare(text: Codes, upid: Codes)
  {
    IsUpid(upid) && exists a: Codes, b: Codes :: Blank(a) && Blank(b) && text == a + upid + b
  }

  /** The answer ends with the identity as a JSON string, and mentions none before. */
  ghost predicate IsQuoted(text: Codes, upid: Codes)
  {
    exists start: nat :: Names(text, start, upid) && !Mentions(text[..start])
  }

  function Strip(text: Codes): Codes
  {
    Text.StripBoth(text, Space)
  }

  lemma {:induction false} StripLeftSplits(text: Codes) returns (a: Codes)
    ensures Blank(a) && text == a + Text.StripLeft(text, Space)
  {
    if text == [] || !Space(text[0]) {
      a := [];
    } else {
      a := StripLeftSplits(text[1..]);
      a := [text[0]] + a;
    }
  }

  lemma {:induction false} StripRightSplits(text: Codes) returns (b: Codes)
    ensures Blank(b) && text == Text.StripRight(text, Space) + b
    decreases |text|
  {
    if text == [] || !Space(text[|text| - 1]) {
      b := [];
    } else {
      var n := |text| - 1;
      b := StripRightSplits(text[..n]);
      assert text == text[..n] + [text[n]];
      b := b + [text[n]];
    }
  }

  lemma {:induction false} StripLeftOf(a: Codes, rest: Codes)
    requires Blank(a) && rest != [] && !Space(rest[0])
    ensures Text.StripLeft(a + rest, Space) == rest
  {
    if a == [] {
      assert a + rest == rest;
    } else {
      assert (a + rest)[1..] == a[1..] + rest;
      StripLeftOf(a[1..], rest);
    }
  }

  lemma {:induction false} StripRightOf(rest: Codes, b: Codes)
    requires Blank(b) && rest != [] && !Space(rest[|rest| - 1])
    ensures Text.StripRight(rest + b, Space) == rest
    decreases |b|
  {
    if b == [] {
      assert rest + b == rest;
    } else {
      assert (rest + b)[..|rest + b| - 1] == rest + b[..|b| - 1];
      StripRightOf(rest, b[..|b| - 1]);
    }
  }

  lemma UpidStrips(a: Codes, upid: Codes, b: Codes)
    requires Blank(a) && Blank(b) && IsUpid(upid)
    ensures Strip(a + upid + b) == upid
  {
    UpidShape(upid);
    assert upid[0] == upid[..4][0] == 'U' as int;
    assert a + upid + b == a + (upid + b);
    StripLeftOf(a, upid + b);
    StripRightOf(upid, b);
  }

  /** The whole stripped text is an identity exactly if the answer is bare, and then it is that one. */
  lemma BareIsStripped(text: Codes, upid: Codes)
    ensures IsBare(text, upid) <==> IsUpid(upid) && Strip(text) == upid
  {
    if IsBare(text, upid) {
      var a: Codes, b: Codes :| Blank(a) && Blank(b) && text == a + upid + b;
      UpidStrips(a, upid, b);
    }
    if IsUpid(upid) && Strip(text) == upid {
      var a := StripLeftSplits(text);
      var b := StripRightSplits(Text.StripLeft(text, Space));
      assert text == a + upid + b;
    }
  }

  /** A bare identity ends with a colon, a quoted one with a quote: no answer is both. */
  lemma BareIsNotQuoted(text: Codes, u: Codes, start: nat, v: Codes)
    requires IsBare(text, u)
    ensures !Names(text, start, v)
  {
    if Names(text, start, v) {
      var colon := BareEnd(text, u);
      var quote := NamesEnd(text, start, v);
    }
  }

  /** The candidates of the text: none or one. */
  method Scan(text: Codes) returns (candidates: seq<(nat, Codes)>)
    ensures |candidates| <= 1 && forall c <- candidates :: Names(text, c.0, c.1)
    ensures forall start: nat, upid :: Names(text, start, upid) ==> candidates == [(start, upid)]
  {
    candidates := [];
    for start := 0 to |text|
      invariant |candidates| <= 1 && forall c <- candidates :: c.0 < start && Names(text, c.0, c.1)
      invariant forall i: nat, upid :: i < start && Names(text, i, upid) ==> candidates == [(i, upid)]
    {
      var decoded := Candidate(text, start);
      if decoded.Some? {
        assert Names(text, start, decoded.value);
        if candidates != [] {
          OneCandidate(text, candidates[0].0, candidates[0].1, start, decoded.value);
        }
        forall i: nat, upid | i < start && Names(text, i, upid) ensures false {
          OneCandidate(text, i, upid, start, decoded.value);
        }
        candidates := candidates + [(start, decoded.value)];
      }
    }
  }

  /**
   The reading of one answer; `None` is an answer that is not UTF-8. It yields an identity exactly
   if the answer is that identity alone, or ends with it as a JSON string and mentions none before.
   */
  method ExtractUpid(stdout: Option<Codes>) returns (r: Option<Codes>)
    ensures forall upid :: r == Some(upid) <==> stdout.Some? && Answers(stdout.value, upid)
  {
    if stdout == None { return None; }
    var text := stdout.value;
    forall upid ensures IsBare(text, upid) <==> IsUpid(upid) && Strip(text) == upid {
      BareIsStripped(text, upid);
    }
    var stripped := Strip(text);
    if IsUpid(stripped) {
      forall start: nat, upid ensures !Names(text, start, upid) { BareIsNotQuoted(text, stripped, start, upid); }
      return Some(stripped);
    }
    var candidates := Scan(text);
    if |candidates| != 1 { return None; }
    var (start, upid) := candidates[0];
    r := if Mentions(text[..start]) then None else Some(upid);
  }

  ghost predicate Answers(text: Codes, upid: Codes)
  {
    IsBare(text, upid) || IsQuoted(text, upid)
  }

  /** At most one identity can be read out of an answer. */
  lemma AnswerNamesOne(text: Codes, u: Codes, v: Codes)
    requires Answers(text, u) && Answers(text, v)
    ensures u == v
  {
    BareIsStripped(text, u);
    BareIsStripped(text, v);
    forall i: nat, a, b | Names(text, i, a) && IsBare(text, b) ensures false { BareIsNotQuoted(text, b, i, a); }
    if IsQuoted(text, u) && IsQuoted(text, v) {
      var i: nat :| Names(text, i, u) && !Mentions(text[..i]);
      var j: nat :| Names(text, j, v) && !Mentions(text[..j]);
      OneCandidate(text, i, u, j, v);
    }
  }

  // ---------------------------------------------------------------------------
  // What a printer of JSON writes
  // ---------------------------------------------------------------------------

  /** What stands between the quotes of some JSON spelling of the string. */
  predicate Spells(spelled: Codes, s: Codes)
  {
    ReadString(spelled + [QUOTE], 0) == Some((s, |spelled| + 1))
  }

  /** The text `a`, which ends with a quote, stands in `b` at this place. */
  predicate Embedded(a: Codes, b: Codes, place: nat)
  {
    && a != [] && a[|a| - 1] == QUOTE && place + |a| <= |b|
    && forall i :: 0 <= i < |a| ==> b[place + i] == a[i]
  }

  /** Six characters that reach the closing quote are no escape, wherever they stand. */
  lemma UnitMoves(a: Codes, b: Codes, place: nat, at: nat)
    requires Embedded(a, b, place) && at < |a|
    ensures ReadUnit(b, place + at) == ReadUnit(a, at)
  {
    if at + 6 <= |a| {
      assert b[place + at] == a[at] && b[place + at + 1] == a[at + 1] && b[place + at + 2] == a[at + 2];
      assert b[place + at + 3] == a[at + 3] && b[place + at + 4] == a[at + 4] && b[place + at + 5] == a[at + 5];
    } else {
      var quote := place + (|a| - 1);
      assert b[quote] == QUOTE && place + at <= quote < place + at + 6;
    }
  }

  lemma CodeMoves(a: Codes, b: Codes, place: nat, at: nat)
    requires Embedded(a, b, place) && at < |a| && ReadCode(a, at).Some? && ReadCode(a, at).value.1 < |a|
    ensures ReadCode(b, place + at) == Some((ReadCode(a, at).value.0, place + ReadCode(a, at).value.1))
  {
    assert b[place + at] == a[at];
    if at + 1 < |a| { assert b[place + at + 1] == a[at + 1]; }
    UnitMoves(a, b, place, at);
    if at + 6 < |a| { UnitMoves(a, b, place, at + 6); }
  }

  ghost predicate Moves(read: Reader, a: Codes, b: Codes, place: nat)
  {
    forall at: nat :: at < |a| && read(a, at).Some? && read(a, at).value.1 < |a| ==>
      read(b, place + at) == Some((read(a, at).value.0, place + read(a, at).value.1))
  }

  /** A string reads the same wherever it stands and whatever follows it. */
  lemma {:induction false} StringMoves(read: Reader, a: Codes, b: Codes, place: nat, at: nat, s: Codes)
    requires Advances(read) && Embedded(a, b, place) && Moves(read, a, b, place)
    requires at < |a| && ReadWith(read, a, at) == Some((s, |a|))
    ensures ReadWith(read, b, place + at) == Some((s, place + |a|))
    decreases |a| - at
  {
    assert b[place + at] == a[at];
    if a[at] != QUOTE {
      var next := read(a, at).value.1;
      StringMoves(read, a, b, place, next, ReadWith(read, a, next).value.0);
    }
  }

  /** However the identity is spelled, any progress text that mentions none may come first, quotes and all. */
  lemma PrintedIsQuoted(progress: Codes, spelled: Codes, upid: Codes, blank: Codes)
    requires IsUpid(upid) && Spells(spelled, upid) && Blank(blank) && !Mentions(progress)
    ensures IsQuoted(progress + [QUOTE] + spelled + [QUOTE] + blank, upid)
  {
    var text, start := progress + [QUOTE] + spelled + [QUOTE] + blank, |progress|;
    assert Embedded(spelled + [QUOTE], text, start + 1);
    StringReadsThere(spelled + [QUOTE], text, start + 1, upid);
    PrintedParts(progress, spelled, blank);
    PrintedNames(text, start, start + |spelled| + 2, upid, blank);
  }

  lemma PrintedNames(text: Codes, start: nat, end: nat, upid: Codes, blank: Codes)
    requires start < |text| && text[start] == QUOTE && IsUpid(upid) && ReadString(text, start + 1) == Some((upid, end))
    requires text[end..] == blank && Blank(blank)
    ensures Names(text, start, upid)
  {
  }

  lemma CodesMove(a: Codes, b: Codes, place: nat)
    requires Embedded(a, b, place)
    ensures Moves(ReadCode, a, b, place)
  {
    forall at: nat | at < |a| && ReadCode(a, at).Some? && ReadCode(a, at).value.1 < |a|
      ensures ReadCode(b, place + at) == Some((ReadCode(a, at).value.0, place + ReadCode(a, at).value.1))
    {
      CodeMoves(a, b, place, at);
    }
  }

  lemma StringReadsThere(a: Codes, b: Codes, place: nat, s: Codes)
    requires Embedded(a, b, place) && ReadString(a, 0) == Some((s, |a|))
    ensures ReadString(b, place) == Some((s, place + |a|))
  {
    CodesMove(a, b, place);
    CodesAdvance();
    StringMoves(ReadCode, a, b, place, 0, s);
  }

  lemma PrintedParts(progress: Codes, spelled: Codes, blank: Codes)
    ensures var text, start := progress + [QUOTE] + spelled + [QUOTE] + blank, |progress|;
            text[start + |spelled| + 2..] == blank && text[..start] == progress && text[start] == QUOTE
  {
  }

  function CodesOf(s: string): (codes: Codes)
    ensures |codes| == |s| && forall i :: 0 <= i < |s| ==> codes[i] == s[i] as int
  {
    seq(|s|, i requires 0 <= i < |s| => s[i] as int)
  }

  /** A text that needs no escaping spells itself. */
  predicate Plain(s: Codes)
  {
    forall i :: 0 <= i < |s| ==> s[i] >= 0x20 && s[i] != QUOTE && s[i] != BACKSLASH
  }

  lemma PlainSpells(s: Codes)
    requires Plain(s)
    ensures Spells(s, s)
  {
    PlainFrom(s, 0);
    assert s[0..] == s;
  }

  lemma {:induction false} PlainFrom(s: Codes, at: nat)
    requires Plain(s) && at <= |s|
    ensures ReadString(s + [QUOTE], at) == Some((s[at..], |s| + 1))
    decreases |s| - at
  {
    if at < |s| {
      PlainFrom(s, at + 1);
      assert ReadCode(s + [QUOTE], at) == Some((s[at], at + 1));
      assert [s[at]] + s[at + 1..] == s[at..];
    }
  }

  /** So does the ASCII form, in which everything else is escaped. */
  lemma EscapedSpells(s: string)
    ensures Spells(CodesOf(JsonText.EscapeAll(s)), CodesOf(s))
  {
    var spelled := CodesOf(JsonText.EscapeAll(s));
    var text := spelled + [QUOTE];
    assert text[0..|spelled|] == spelled;
    forall c, at: nat ensures ReadsEscape(ReadCode, text, c, at) {
      if Stands(text, at, JsonText.Escaped(c)) { EscapedCode(c, text, at); }
    }
    CodesAdvance();
    EscapedFrom(ReadCode, s, text, 0, |spelled|);
  }

  /** This text stands at this place. */
  predicate Stands(text: Codes, at: nat, part: string)
  {
    at + |part| <= |text| && text[at..at + |part|] == CodesOf(part)
  }

  lemma StandsAt(text: Codes, at: nat, part: string, i: nat)
    requires Stands(text, at, part) && i < |part|
    ensures text[at + i] == part[i] as int
  {
    assert text[at..at + |part|][i] == CodesOf(part)[i];
  }

  lemma StandsApart(text: Codes, at: nat, first: string, second: string)
    requires Stands(text, at, first + second)
    ensures Stands(text, at, first) && Stands(text, at + |first|, second)
  {
    var whole := text[at..at + |first + second|];
    assert CodesOf(first + second) == CodesOf(first) + CodesOf(second);
    assert text[at..at + |first|] == whole[..|first|] == CodesOf(first);
    assert text[at + |first|..at + |first| + |second|] == whole[|first|..] == CodesOf(second);
  }

  lemma EscapeSplits(s: string, text: Codes, at: nat)
    requires s != "" && Stands(text, at, JsonText.EscapeAll(s))
    ensures var first := JsonText.Escaped(s[0]);
            && Stands(text, at, first) && Stands(text, at + |first|, JsonText.EscapeAll(s[1..]))
            && |JsonText.EscapeAll(s)| == |first| + |JsonText.EscapeAll(s[1..])|
  {
    StandsApart(text, at, JsonText.Escaped(s[0]), JsonText.EscapeAll(s[1..]));
  }

  predicate ReadsEscape(read: Reader, text: Codes, c: char, at: nat)
  {
    Stands(text, at, JsonText.Escaped(c)) ==>
      at < |text| && text[at] != QUOTE && read(text, at) == Some((c as int, at + |JsonText.Escaped(c)|))
  }

  lemma {:induction false} EscapedFrom(read: Reader, s: string, text: Codes, at: nat, end: nat)
    requires Advances(read)
    requires forall c, i: nat :: ReadsEscape(read, text, c, i)
    requires Stands(text, at, JsonText.EscapeAll(s)) && end == at + |JsonText.EscapeAll(s)|
    requires end < |text| && text[end] == QUOTE
    ensures ReadWith(read, text, at) == Some((CodesOf(s), end + 1))
    decreases |s|
  {
    if s == "" {
      assert CodesOf(s) == [];
    } else {
      EscapeSplits(s, text, at);
      assert ReadsEscape(read, text, s[0], at);
      EscapedFrom(read, s[1..], text, at + |JsonText.Escaped(s[0])|, end);
      CodesOfCons(s);
    }
  }

  lemma CodesOfCons(s: string)
    requires s != ""
    ensures CodesOf(s) == [s[0] as int] + CodesOf(s[1..])
  {
  }

  lemma UnitReads(text: Codes, at: nat, n: nat)
    requires n < 0x10000 && Stands(text, at, JsonText.Unit(n))
    ensures ReadUnit(text, at) == Some(n) && text[at] == BACKSLASH && at + 6 <= |text|
    ensures at + 1 < |text| && Short(text[at + 1]) == None
  {
    var unit := JsonText.Unit(n);
    JsonText.PlacesOf(n);
    assert unit == ['\\', 'u', JsonText.HexDigit(n / 4096), JsonText.HexDigit(n / 256 % 16),
                    JsonText.HexDigit(n / 16 % 16), JsonText.HexDigit(n % 16)];
    StandsAt(text, at, unit, 0);
    StandsAt(text, at, unit, 1);
    StandsAt(text, at, unit, 2);
    StandsAt(text, at, unit, 3);
    StandsAt(text, at, unit, 4);
    StandsAt(text, at, unit, 5);
    DigitReads(n / 4096);
    DigitReads(n / 256 % 16);
    DigitReads(n / 16 % 16);
    DigitReads(n % 16);
  }

  lemma DigitReads(n: nat)
    requires n < 16
    ensures HexValue(JsonText.HexDigit(n) as int) == Some(n)
  {
  }

  /** Every escaped character reads back as itself. */
  lemma EscapedCode(c: char, text: Codes, at: nat)
    requires Stands(text, at, JsonText.Escaped(c))
    ensures JsonText.Escaped(c) != "" && text[at] != QUOTE
    ensures ReadCode(text, at) == Some((c as int, at + |JsonText.Escaped(c)|))
  {
    if JsonText.Letter(c).Some? { LetterCode(c, text, at); }
    else if ' ' <= c <= '~' { StandsAt(text, at, JsonText.Escaped(c), 0); }
    else if (c as int) < 0x10000 { UnitCode(c, text, at); }
    else { PairCode(c, text, at); }
  }

  lemma LetterCode(c: char, text: Codes, at: nat)
    requires JsonText.Letter(c).Some? && Stands(text, at, JsonText.Escaped(c))
    ensures JsonText.Escaped(c) != "" && text[at] != QUOTE
    ensures ReadCode(text, at) == Some((c as int, at + |JsonText.Escaped(c)|))
  {
    JsonText.LetterEscapes(c);
    StandsAt(text, at, JsonText.Escaped(c), 0);
    StandsAt(text, at, JsonText.Escaped(c), 1);
  }

  lemma UnitCode(c: char, text: Codes, at: nat)
    requires JsonText.Letter(c) == None && !(' ' <= c <= '~') && (c as int) < 0x10000
    requires Stands(text, at, JsonText.Escaped(c))
    ensures JsonText.Escaped(c) != "" && text[at] != QUOTE
    ensures ReadCode(text, at) == Some((c as int, at + |JsonText.Escaped(c)|))
  {
    assert JsonText.Escaped(c) == JsonText.Unit(c as int);
    UnitReads(text, at, c as int);
  }

  lemma PairCode(c: char, text: Codes, at: nat)
    requires 0x10000 <= c as int && Stands(text, at, JsonText.Escaped(c))
    ensures JsonText.Escaped(c) != "" && text[at] != QUOTE
    ensures ReadCode(text, at) == Some((c as int, at + |JsonText.Escaped(c)|))
  {
    JsonText.EscapedIsPair(c);
    var n := c as int - 0x10000;
    var high, low := 0xD800 + n / 1024, 0xDC00 + n % 1024;
    StandsApart(text, at, JsonText.Unit(high), JsonText.Unit(low));
    UnitReads(text, at, high);
    UnitReads(text, at + 6, low);
    HalvesJoin(text, at, high, low);
    assert n == n / 1024 * 1024 + n % 1024;
  }

  lemma HalvesJoin(text: Codes, at: nat, high: nat, low: nat)
    requires at + 1 < |text| && text[at] == BACKSLASH && Short(text[at + 1]) == None
    requires ReadUnit(text, at) == Some(high) && ReadUnit(text, at + 6) == Some(low) && HighHalf(high) && LowHalf(low)
    ensures ReadCode(text, at) == Some((0x10000 + (high - 0xD800) * 1024 + (low - 0xDC00), at + 12))
  {
  }
}
