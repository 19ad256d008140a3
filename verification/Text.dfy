/** Lines and blank-separated fields, as the shell reads them. */
module Text {

  function IndexOf(text: string, c: char): (n: nat)
    ensures n <= |text| && c !in text[..n]
    ensures n < |text| ==> text[n] == c
  {
    if text == [] || text[0] == c then 0
    else
      var n := 1 + IndexOf(text[1..], c);
      assert text[..n] == [text[0]] + text[1..][..n - 1];
      n
  }

  lemma IndexOfFirst(line: string, c: char, rest: string)
    requires c !in line
    ensures IndexOf(line + [c] + rest, c) == |line|
  {
    var text := line + [c] + rest;
    assert forall i :: 0 <= i < |line| ==> text[i] == line[i];
    assert text[|line|] == c;
    assert forall i :: 0 <= i < IndexOf(text, c) ==> text[i] in text[..IndexOf(text, c)];
  }

  /** The newline-terminated lines; an unterminated tail is not among them. */
  function Lines(text: string): seq<string>
    decreases |text|
  {
    var n := IndexOf(text, '\n');
    if n == |text| then [] else [text[..n]] + Lines(text[n + 1..])
  }

  /** What follows the last newline. */
  function Tail(text: string): string
    decreases |text|
  {
    var n := IndexOf(text, '\n');
    if n == |text| then text else Tail(text[n + 1..])
  }

  function AllLines(text: string): seq<string>
  {
    Lines(text) + if Tail(text) == "" then [] else [Tail(text)]
  }

  function Unlines(lines: seq<string>): string
  {
    if lines == [] then "" else lines[0] + "\n" + Unlines(lines[1..])
  }

  predicate NoBreaks(lines: seq<string>)
  {
    forall line <- lines :: '\n' !in line
  }

  lemma OneLine(line: string, rest: string)
    requires '\n' !in line
    ensures Lines(line + "\n" + rest) == [line] + Lines(rest) && Tail(line + "\n" + rest) == Tail(rest)
  {
    var text := line + "\n" + rest;
    IndexOfFirst(line, '\n', rest);
    assert text == line + ['\n'] + rest;
    assert text[..|line|] == line && text[|line| + 1..] == rest;
  }

  lemma NoLine(tail: string)
    requires '\n' !in tail
    ensures Lines(tail) == [] && Tail(tail) == tail
  {
    assert IndexOf(tail, '\n') == |tail|;
  }

  lemma UnlinesStep(lines: seq<string>, tail: string)
    requires lines != []
    ensures Unlines(lines) + tail == lines[0] + "\n" + (Unlines(lines[1..]) + tail)
  {
  }

  lemma {:induction false} LinesOfUnlines(lines: seq<string>, tail: string)
    requires NoBreaks(lines) && '\n' !in tail
    ensures Lines(Unlines(lines) + tail) == lines && Tail(Unlines(lines) + tail) == tail
  {
    if lines == [] {
      assert Unlines(lines) + tail == tail;
      NoLine(tail);
    } else {
      var more := Unlines(lines[1..]) + tail;
      calc {
        Lines(Unlines(lines) + tail);
        { UnlinesStep(lines, tail); }
        Lines(lines[0] + "\n" + more);
        { OneLine(lines[0], more); }
        [lines[0]] + Lines(more);
        { LinesOfUnlines(lines[1..], tail); }
        lines;
      }
      calc {
        Tail(Unlines(lines) + tail);
        { UnlinesStep(lines, tail); }
        Tail(lines[0] + "\n" + more);
        { OneLine(lines[0], more); }
        Tail(more);
        { LinesOfUnlines(lines[1..], tail); }
        tail;
      }
    }
  }

  lemma UnlinesReadBack(lines: seq<string>)
    requires NoBreaks(lines)
    ensures Lines(Unlines(lines)) == lines && AllLines(Unlines(lines)) == lines
  {
    LinesOfUnlines(lines, "");
    assert Unlines(lines) + "" == Unlines(lines);
  }

  predicate Blank(c: char)
  {
    c == ' ' || c == '\t'
  }

  predicate IsField(s: string)
  {
    s != [] && forall c <- s :: !Blank(c)
  }

  function WordEnd(line: string): (n: nat)
    ensures n <= |line| && (forall i :: 0 <= i < n ==> !Blank(line[i])) && (n < |line| ==> Blank(line[n]))
  {
    if line == [] || Blank(line[0]) then 0 else 1 + WordEnd(line[1..])
  }

  /** Maximal runs of non-blank characters. */
  function Fields(line: string): (fields: seq<string>)
    ensures forall f <- fields :: IsField(f) && forall c <- f :: c in line
    decreases |line|
  {
    if line == [] then []
    else if Blank(line[0]) then Fields(line[1..])
    else [line[..WordEnd(line)]] + Fields(line[WordEnd(line)..])
  }

  /** Single spaces between the fields. */
  function Join(fields: seq<string>): string
  {
    if fields == [] then "" else if |fields| == 1 then fields[0] else fields[0] + " " + Join(fields[1..])
  }

  lemma WordEndAt(word: string, rest: string)
    requires IsField(word) && (rest == "" || Blank(rest[0]))
    ensures WordEnd(word + rest) == |word|
  {
    var line := word + rest;
    assert forall i :: 0 <= i < |word| ==> line[i] == word[i];
    assert rest != "" ==> line[|word|] == rest[0];
  }

  lemma {:induction false} FieldsOfJoin(fields: seq<string>)
    requires forall f <- fields :: IsField(f)
    ensures Fields(Join(fields)) == fields
  {
    if fields != [] {
      var line, word := Join(fields), fields[0];
      var rest := if |fields| == 1 then "" else " " + Join(fields[1..]);
      assert line == word + rest;
      WordEndAt(word, rest);
      assert line[..|word|] == word && line[|word|..] == rest && !Blank(line[0]);
      FieldsOfJoin(fields[1..]);
      if |fields| > 1 {
        assert rest[1..] == Join(fields[1..]);
      }
    }
  }

  lemma JoinIsInjective(a: seq<string>, b: seq<string>)
    requires (forall f <- a :: IsField(f)) && (forall f <- b :: IsField(f)) && Join(a) == Join(b)
    ensures a == b
  {
    FieldsOfJoin(a);
    FieldsOfJoin(b);
  }

  // ---------------------------------------------------------------------------
  // Lines as Python splits them
  // ---------------------------------------------------------------------------

  /** Every character Python's `str.splitlines` ends a line at. */
  predicate IsBreak(c: char)
  {
    || c == '\n' || c == '\r' || c == '\U{0B}' || c == '\U{0C}' || '\U{1C}' <= c <= '\U{1E}'
    || c == '\U{85}' || c == '\U{2028}' || c == '\U{2029}'
  }

  function LineLength(text: string): (n: nat)
    ensures n <= |text| && (n < |text| ==> IsBreak(text[n])) && forall i :: 0 <= i < n ==> !IsBreak(text[i])
  {
    if text == [] || IsBreak(text[0]) then 0 else 1 + LineLength(text[1..])
  }

  function SplitLines(text: string): seq<string>
    decreases |text|
  {
    var n := LineLength(text);
    if text == [] then []
    else if n == |text| then [text]
    else
      var width := if text[n] == '\r' && n + 1 < |text| && text[n + 1] == '\n' then 2 else 1;
      [text[..n]] + SplitLines(text[n + width..])
  }

  predicate Unbroken(line: string)
  {
    forall i :: 0 <= i < |line| ==> !IsBreak(line[i])
  }

  lemma LineLengthIs(line: string, rest: string)
    requires Unbroken(line) && (rest == "" || IsBreak(rest[0]))
    ensures LineLength(line + rest) == |line|
  {
    var text := line + rest;
    assert forall i :: 0 <= i < |line| ==> text[i] == line[i];
    assert rest != "" ==> text[|line|] == rest[0];
  }

  lemma OneLineSplits(line: string, rest: string)
    requires Unbroken(line)
    ensures SplitLines(line + "\n" + rest) == [line] + SplitLines(rest)
  {
    var text := line + "\n" + rest;
    assert text == line + ("\n" + rest);
    LineLengthIs(line, "\n" + rest);
    assert text[|line|] == '\n' && text[..|line|] == line && text[|line| + 1..] == rest;
  }

  lemma LastLineSplits(line: string)
    requires Unbroken(line) && line != ""
    ensures SplitLines(line) == [line]
  {
    LineLengthIs(line, "");
    assert line + "" == line;
  }

  /** Lines joined by single newlines, none at the end. */
  function JoinLines(lines: seq<string>): string
  {
    if lines == [] then "" else if |lines| == 1 then lines[0] else lines[0] + "\n" + JoinLines(lines[1..])
  }

  lemma {:induction false} JoinedLinesSplit(lines: seq<string>)
    requires forall line <- lines :: Unbroken(line) && line != ""
    ensures SplitLines(JoinLines(lines)) == lines
  {
    if |lines| == 1 {
      LastLineSplits(lines[0]);
    } else if |lines| > 1 {
      JoinedLinesSplit(lines[1..]);
      OneLineSplits(lines[0], JoinLines(lines[1..]));
      assert lines == [lines[0]] + lines[1..];
    }
  }

  /** What Python's `str.strip` takes off either end. */
  predicate Whitespace(c: char)
  {
    || IsBreak(c) || c == ' ' || c == '\t' || c == '\U{1F}' || c == '\U{A0}' || c == '\U{1680}'
    || '\U{2000}' <= c <= '\U{200A}' || c == '\U{202F}' || c == '\U{205F}' || c == '\U{3000}'
  }

  function StripLeft<T>(text: seq<T>, space: T -> bool): seq<T>
  {
    if text == [] || !space(text[0]) then text else StripLeft(text[1..], space)
  }

  function StripRight<T>(text: seq<T>, space: T -> bool): seq<T>
  {
    if text == [] || !space(text[|text| - 1]) then text else StripRight(text[..|text| - 1], space)
  }

  function StripBoth<T>(text: seq<T>, space: T -> bool): seq<T>
  {
    StripRight(StripLeft(text, space), space)
  }

  function Strip(text: string): string
  {
    StripBoth(text, Whitespace)
  }
}
