/**
 JSON strings in ASCII, escaped as section 7 of RFC 8259 allows, and a decoder for that section.
 Characters are Unicode scalar values, so no string here holds a surrogate.
 */
module JsonText {
  import opened Wrappers

  function HexDigit(n: nat): char
    requires n < 16
  {
    if n < 10 then ('0' as int + n) as char else ('a' as int + n - 10) as char
  }

  function Hex4(n: nat): string
    requires n < 0x10000
  {
    [HexDigit(n / 4096), HexDigit(n / 256 % 16), HexDigit(n / 16 % 16), HexDigit(n % 16)]
  }

  function Unit(n: nat): string
    requires n < 0x10000
  {
    "\\u" + Hex4(n)
  }

  /** A surrogate pair. */
  function Pair(n: nat): string
    requires n < 0x100000
  {
    Unit(0xD800 + n / 1024) + Unit(0xDC00 + n % 1024)
  }

  /** One character of a JSON string, in printable ASCII only. */
  function Escaped(c: char): string
  {
    if c == '"' then "\\\""
    else if c == '\\' then "\\\\"
    else if ' ' <= c <= '~' then [c]
    else if c == '\n' then "\\n"
    else if c == '\r' then "\\r"
    else if c == '\t' then "\\t"
    else if c == '\U{0C}' then "\\f"
    else if c == '\U{08}' then "\\b"
    else if (c as int) < 0x10000 then Unit(c as int)
    else Pair(c as int - 0x10000)
  }

  function EscapeAll(s: string): string
  {
    if s == [] then "" else Escaped(s[0]) + EscapeAll(s[1..])
  }

  function Quote(s: string): string
  {
    "\"" + EscapeAll(s) + "\""
  }

  function HexValue(c: char): (r: Option<nat>)
    ensures r.Some? ==> r.value < 16
  {
    if '0' <= c <= '9' then Some(c as int - '0' as int)
    else if 'a' <= c <= 'f' then Some(c as int - 'a' as int + 10)
    else if 'A' <= c <= 'F' then Some(c as int - 'A' as int + 10)
    else None
  }

  function FourHex(a: char, b: char, c: char, d: char): (r: Option<nat>)
    ensures r.Some? ==> r.value < 0x10000
  {
    var h, i, j, k := HexValue(a), HexValue(b), HexValue(c), HexValue(d);
    if h.Some? && i.Some? && j.Some? && k.Some?
    then Some(h.value * 4096 + i.value * 256 + j.value * 16 + k.value) else None
  }

  /** The code unit of a `\uXXXX` escape at the start of the text. */
  function ReadUnit(text: string): (r: Option<nat>)
    ensures r.Some? ==> r.value < 0x10000 && |text| >= 6
  {
    if |text| < 6 || text[0] != '\\' || text[1] != 'u' then None
    else FourHex(text[2], text[3], text[4], text[5])
  }

  /** The character of a two-character escape. */
  function Short(c: char): Option<char>
  {
    match c
    case '"' => Some('"')
    case '\\' => Some('\\')
    case '/' => Some('/')
    case 'b' => Some('\U{08}')
    case 'f' => Some('\U{0C}')
    case 'n' => Some('\n')
    case 'r' => Some('\r')
    case 't' => Some('\t')
    case _ => None
  }

  /** One character and how much of the text spells it; a surrogate counts only as half of a pair. */
  function ReadChar(text: string): (r: Option<(char, nat)>)
    ensures r.Some? ==> 0 < r.value.1 <= |text|
  {
    if text == [] || text[0] < ' ' || text[0] == '"' then None
    else if text[0] != '\\' then Some((text[0], 1))
    else if |text| >= 2 && Short(text[1]).Some? then Some((Short(text[1]).value, 2))
    else
      match ReadUnit(text)
      case None => None
      case Some(high) =>
        if 0xDC00 <= high < 0xE000 then None
        else if high < 0xD800 || 0xE000 <= high then Some((high as char, 6))
        else
          match ReadUnit(text[6..])
          case None => None
          case Some(low) =>
            if 0xDC00 <= low < 0xE000
            then Some(((0x10000 + (high - 0xD800) * 1024 + (low - 0xDC00)) as char, 12)) else None
  }

  /** What stands before the closing quote, and what follows it. */
  function ReadString(text: string): Option<(string, string)>
    decreases |text|
  {
    if text == [] then None
    else if text[0] == '"' then Some(("", text[1..]))
    else
      match ReadChar(text)
      case None => None
      case Some((c, n)) =>
        match ReadString(text[n..])
        case None => None
        case Some((s, rest)) => Some(([c] + s, rest))
  }

  lemma HexReadsBack(n: nat)
    requires n < 16
    ensures HexValue(HexDigit(n)) == Some(n)
  {
  }

  lemma DigitsReadBack(n: nat)
    requires n < 0x10000
    ensures FourHex(HexDigit(n / 4096), HexDigit(n / 256 % 16), HexDigit(n / 16 % 16), HexDigit(n % 16)) == Some(n)
  {
    HexReadsBack(n / 4096);
    HexReadsBack(n / 256 % 16);
    HexReadsBack(n / 16 % 16);
    HexReadsBack(n % 16);
    PlacesOf(n);
  }

  lemma PlacesOf(n: nat)
    requires n < 0x10000
    ensures n == n / 4096 * 4096 + n / 256 % 16 * 256 + n / 16 % 16 * 16 + n % 16
  {
    assert n == n / 16 * 16 + n % 16;
    assert n / 16 == n / 256 * 16 + n / 16 % 16;
    assert n / 256 == n / 4096 * 16 + n / 256 % 16;
  }

  lemma UnitReadsBack(n: nat, rest: string)
    requires n < 0x10000
    ensures |Unit(n)| == 6 && ReadUnit(Unit(n) + rest) == Some(n)
    ensures (Unit(n) + rest)[6..] == rest && (Unit(n) + rest)[0] == '\\' && (Unit(n) + rest)[1] == 'u'
  {
    DigitsReadBack(n);
    var text, unit := Unit(n) + rest, Unit(n);
    assert |unit| == 6 && forall i :: 0 <= i < 6 ==> text[i] == unit[i];
    assert unit[2] == Hex4(n)[0] && unit[3] == Hex4(n)[1] && unit[4] == Hex4(n)[2] && unit[5] == Hex4(n)[3];
  }

  lemma UnitReadsChar(n: nat, rest: string)
    requires n < 0xD800 || 0xE000 <= n < 0x10000
    ensures ReadChar(Unit(n) + rest) == Some((n as char, 6))
  {
    UnitReadsBack(n, rest);
  }

  lemma PairReadsChar(n: nat, rest: string)
    requires n < 0x100000
    ensures |Pair(n)| == 12 && Pair(n)[0] == '\\' && ReadChar(Pair(n) + rest) == Some(((0x10000 + n) as char, 12))
  {
    var high, low := 0xD800 + n / 1024, 0xDC00 + n % 1024;
    var text := Unit(high) + (Unit(low) + rest);
    assert Pair(n) + rest == text;
    UnitReadsBack(high, Unit(low) + rest);
    UnitReadsBack(low, rest);
  }

  lemma PlainReadsBack(c: char, rest: string)
    requires ' ' <= c <= '~' && c != '"' && c != '\\'
    ensures ReadChar([c] + rest) == Some((c, 1))
  {
  }

  lemma ShortReadsBack(c: char, x: char, rest: string)
    requires Short(x) == Some(c)
    ensures ReadChar(['\\', x] + rest) == Some((c, 2))
  {
  }

  /** The letter of the two-character escape of a character that has one. */
  function Letter(c: char): Option<char>
  {
    match c
    case '"' => Some('"')
    case '\\' => Some('\\')
    case '\n' => Some('n')
    case '\r' => Some('r')
    case '\t' => Some('t')
    case '\U{0C}' => Some('f')
    case '\U{08}' => Some('b')
    case _ => None
  }

  lemma LetterEscapes(c: char)
    requires Letter(c).Some?
    ensures Escaped(c) == ['\\', Letter(c).value] && Short(Letter(c).value) == Some(c)
  {
  }

  lemma UnitCase(c: char, rest: string)
    requires Letter(c) == None && !(' ' <= c <= '~') && (c as int) < 0x10000
    ensures Escaped(c) == Unit(c as int) && |Escaped(c)| == 6 && Escaped(c)[0] == '\\'
    ensures ReadChar(Escaped(c) + rest) == Some((c, 6))
  {
    UnitReadsChar(c as int, rest);
  }

  lemma EscapedIsPair(c: char)
    requires 0x10000 <= c as int
    ensures Escaped(c) == Pair(c as int - 0x10000)
  {
  }

  lemma PairCase(c: char, rest: string)
    requires 0x10000 <= c as int
    ensures |Escaped(c)| == 12 && Escaped(c)[0] == '\\' && ReadChar(Escaped(c) + rest) == Some((c, 12))
  {
    calc {
      ReadChar(Escaped(c) + rest);
      { EscapedIsPair(c); }
      ReadChar(Pair(c as int - 0x10000) + rest);
      { PairReadsChar(c as int - 0x10000, rest); }
      Some((c, 12));
    }
    EscapedIsPair(c);
    PairReadsChar(c as int - 0x10000, rest);
  }

  lemma CharReadsBack(c: char, rest: string)
    ensures Escaped(c) != "" && Escaped(c)[0] != '"'
    ensures ReadChar(Escaped(c) + rest) == Some((c, |Escaped(c)|))
  {
    if Letter(c).Some? {
      LetterEscapes(c);
      ShortReadsBack(c, Letter(c).value, rest);
    } else if ' ' <= c <= '~' {
      PlainReadsBack(c, rest);
    } else if (c as int) < 0x10000 {
      UnitCase(c, rest);
    } else {
      PairCase(c, rest);
    }
  }

  /** Any string, escaped and closed, reads back as itself, and what follows is untouched. */
  lemma {:induction false} StringReadsBack(s: string, rest: string)
    ensures ReadString(EscapeAll(s) + "\"" + rest) == Some((s, rest))
  {
    var text := EscapeAll(s) + "\"" + rest;
    if s == [] {
      assert text == "\"" + rest;
    } else {
      var more := EscapeAll(s[1..]) + "\"" + rest;
      assert text == Escaped(s[0]) + more;
      CharReadsBack(s[0], more);
      assert text[|Escaped(s[0])|..] == more && text[0] == Escaped(s[0])[0];
      StringReadsBack(s[1..], rest);
      assert [s[0]] + s[1..] == s;
    }
  }

  /** Every character of the text is printable ASCII, so its UTF-8 encoding is itself. */
  lemma {:induction false} EscapedIsAscii(s: string)
    ensures forall c <- EscapeAll(s) :: ' ' <= c <= '~'
  {
    if s != [] {
      EscapedIsAscii(s[1..]);
      forall c | c in Escaped(s[0]) ensures ' ' <= c <= '~' { EscapedCharIsAscii(s[0], c); }
    }
  }

  lemma EscapedCharIsAscii(c: char, x: char)
    requires x in Escaped(c)
    ensures ' ' <= x <= '~'
  {
  }
}
