/**
 The pre-dpkg action gate: the manifest the host renders from the approved rows, and the shell
 script that lets APT reach dpkg only if APT's own action stream is exactly that manifest.
 */
module ActionGate {
  import opened Wrappers
  import opened Text
  import opened Ordering
  import opened Packages

  datatype Action = Unpack | Configure

  /** One action of APT's Version 3 stream, without the fields the gate does not bind. */
  datatype Record = Record(
    name: string, oldVersion: string, oldArchitecture: string, direction: string,
    newVersion: string, newArchitecture: string, action: Action)

  const MANIFEST_HEADER: string := "hubinet-ops-package-mutation-actions v1"

  // ---------------------------------------------------------------------------
  // The manifest
  // ---------------------------------------------------------------------------

  predicate Alphanumeric(c: char)
  {
    'A' <= c <= 'Z' || 'a' <= c <= 'z' || '0' <= c <= '9'
  }

  predicate ManifestName(s: string)
  {
    s != [] && Alphanumeric(s[0]) && forall c <- s :: Alphanumeric(c) || c in "+._-"
  }

  predicate ManifestVersion(s: string)
  {
    s != [] && Alphanumeric(s[0]) && forall c <- s :: Alphanumeric(c) || c in "+.~:_-"
  }

  predicate Approvable(row: Row)
  {
    && ManifestName(row.name) && Architecture(row.architecture)
    && ManifestVersion(row.installed) && ManifestVersion(row.candidate)
    && row.installed != row.candidate
  }

  function ActionOf(row: Row, action: Action): Record
  {
    Record(row.name, row.installed, row.architecture, "<", row.candidate, row.architecture, action)
  }

  function Expected(rows: seq<Row>): seq<Record>
  {
    if rows == [] then [] else
    Expected(rows[..|rows| - 1]) + [ActionOf(rows[|rows| - 1], Unpack), ActionOf(rows[|rows| - 1], Configure)]
  }

  function Word(action: Action): string
  {
    if action == Unpack then "UNPACK" else "CONFIGURE"
  }

  function FieldsOf(r: Record): seq<string>
  {
    [r.name, r.oldVersion, r.oldArchitecture, "-", r.direction, r.newVersion, r.newArchitecture, "-", Word(r.action)]
  }

  function Render(r: Record): string
  {
    Join(FieldsOf(r))
  }

  function RenderAll(records: seq<Record>): seq<string>
  {
    if records == [] then [] else RenderAll(records[..|records| - 1]) + [Render(records[|records| - 1])]
  }

  function Header(operation: string): string
  {
    MANIFEST_HEADER + " " + operation
  }

  function Manifest(operation: string, rows: seq<Row>): string
  {
    Unlines([Header(operation)] + RenderAll(Expected(rows)))
  }

  method BuildExpectedActionManifest(operation: string, rows: seq<Row>) returns (text: Option<string>)
    ensures text == if forall row <- rows :: Approvable(row) then Some(Manifest(operation, rows)) else None
  {
    var lines := [Header(operation)];
    var i := 0;
    while i < |rows|
      invariant 0 <= i <= |rows| && forall row <- rows[..i] :: Approvable(row)
      invariant lines == [Header(operation)] + RenderAll(Expected(rows[..i]))
    {
      var row := rows[i];
      if !Approvable(row) { return None; }
      var unpack, configure := ActionOf(row, Unpack), ActionOf(row, Configure);
      lines := lines + [Render(unpack)];
      lines := lines + [Render(configure)];
      assert rows[..i + 1][..i] == rows[..i];
      RenderTwo(Expected(rows[..i]), unpack, configure);
      i := i + 1;
    }
    assert rows[..i] == rows;
    text := Some(Unlines(lines));
  }

  lemma RenderOne(records: seq<Record>, r: Record)
    ensures RenderAll(records + [r]) == RenderAll(records) + [Render(r)]
  {
    assert (records + [r])[..|records|] == records;
  }

  lemma RenderTwo(records: seq<Record>, a: Record, b: Record)
    ensures RenderAll(records + [a, b]) == RenderAll(records) + [Render(a), Render(b)]
  {
    RenderOne(records, a);
    RenderOne(records + [a], b);
    assert records + [a, b] == records + [a] + [b];
  }

  // ---------------------------------------------------------------------------
  // The verifier script
  // ---------------------------------------------------------------------------

  /** A line of the stream: nothing on it, an action, or a reason to refuse. */
  datatype Normalised = Skipped | Kept(record: Record) | Refused

  predicate IsArchivePath(s: string)
  {
    |s| >= 5 && s[0] == '/' && s[|s| - 4..] == ".deb"
  }

  function Normalise(line: string): Normalised
  {
    var f := Fields(line);
    if |f| == 0 then Skipped
    else if |f| > 9 then Refused
    else if |f| < 9 then Refused
    else if f[3] !in ["same", "foreign", "allowed", "none"] || f[7] !in ["same", "foreign", "allowed", "none"] then Refused
    else if f[8] == "**CONFIGURE**" then Kept(Record(f[0], f[1], f[2], f[4], f[5], f[6], Configure))
    else if f[8] == "**REMOVE**" then Refused
    else if IsArchivePath(f[8]) then Kept(Record(f[0], f[1], f[2], f[4], f[5], f[6], Unpack))
    else Refused
  }

  /** The lines after the protocol line and the configuration space, which one empty line ends. */
  function ActionSection(lines: seq<string>): Option<seq<string>>
  {
    if lines == [] || lines[0] != "VERSION 3" then None else AfterBlank(lines[1..])
  }

  function AfterBlank(lines: seq<string>): Option<seq<string>>
  {
    if lines == [] then None else if lines[0] == "" then Some(lines[1..]) else AfterBlank(lines[1..])
  }

  predicate Admissible(actions: seq<string>)
  {
    forall line <- actions :: !Normalise(line).Refused?
  }

  function Records(actions: seq<string>): seq<Record>
  {
    if actions == [] then [] else
    var last := Normalise(actions[|actions| - 1]);
    if last.Kept? then Records(actions[..|actions| - 1]) + [last.record] else Records(actions[..|actions| - 1])
  }

  lemma RecordsOneMore(actions: seq<string>, line: string)
    ensures Records(actions + [line]) ==
            if Normalise(line).Kept? then Records(actions) + [Normalise(line).record] else Records(actions)
  {
    assert (actions + [line])[..|actions|] == actions;
  }

  /** What the script decides, on any manifest and any stream. */
  predicate Accepts(operation: string, manifest: string, stream: string)
  {
    var m, section := Lines(manifest), ActionSection(Lines(stream));
    && m != [] && m[0] == Header(operation) && section.Some? && Admissible(section.value)
    && |AllLines(manifest)| > 1 && Records(section.value) != []
    && multiset(AllLines(manifest)[1..]) == multiset(RenderAll(Records(section.value)))
  }

  method NormaliseStream(actions: seq<string>) returns (got: Option<seq<string>>)
    ensures got == if Admissible(actions) then Some(RenderAll(Records(actions))) else None
  {
    var out: seq<string> := [];
    var i := 0;
    while i < |actions|
      invariant 0 <= i <= |actions| && Admissible(actions[..i]) && out == RenderAll(Records(actions[..i]))
    {
      var line := Normalise(actions[i]);
      assert actions[..i + 1] == actions[..i] + [actions[i]];
      RecordsOneMore(actions[..i], actions[i]);
      if line.Refused? { return None; }
      if line.Kept? {
        RenderOne(Records(actions[..i]), line.record);
        out := out + [Render(line.record)];
      }
      i := i + 1;
    }
    assert actions[..i] == actions;
    got := Some(out);
  }

  /** The two sorted files are read line by line, side by side, until both end. */
  method Lockstep(want: seq<string>, got: seq<string>) returns (same: bool)
    ensures same <==> want == got
  {
    var i := 0;
    while true
      invariant 0 <= i <= |want| && i <= |got| && want[..i] == got[..i]
      decreases |want| - i
    {
      var wantRead, gotRead := i < |want|, i < |got|;
      if !wantRead && !gotRead {
        assert want[..i] == want && got[..i] == got;
        return true;
      }
      if !wantRead || !gotRead { return false; }
      if want[i] != got[i] { return false; }
      i := i + 1;
    }
  }

  /** Both sides sorted under the same collation. */
  method SameActions(approved: seq<string>, resolved: seq<string>) returns (same: bool)
    ensures same <==> approved != [] && resolved != [] && multiset(approved) == multiset(resolved)
  {
    var want, got := Sort(approved, Precedes), Sort(resolved, Precedes);
    if want == [] || got == [] { return false; }
    same := Lockstep(want, got);
    SortedLines(approved, resolved);
  }

  method Verify(operation: string, manifest: string, stream: string) returns (accepted: bool)
    ensures accepted <==> Accepts(operation, manifest, stream)
  {
    var header := Lines(manifest);
    if header == [] || header[0] != Header(operation) { return false; }
    var lines := Lines(stream);
    if lines == [] || lines[0] != "VERSION 3" { return false; }
    var next, sawBlank := 1, false;
    while next < |lines| && !sawBlank
      invariant 1 <= next <= |lines|
      invariant ActionSection(lines) == if sawBlank then Some(lines[next..]) else AfterBlank(lines[next..])
    {
      sawBlank := lines[next] == "";
      next := next + 1;
    }
    if !sawBlank { return false; }
    var raw := NormaliseStream(lines[next..]);
    if raw == None { return false; }
    RenderAllKeeps(Records(lines[next..]));
    accepted := SameActions(AllLines(manifest)[1..], raw.value);
  }

  // ---------------------------------------------------------------------------
  // What acceptance means
  // ---------------------------------------------------------------------------

  predicate WellFormed(r: Record)
  {
    IsField(r.name) && IsField(r.oldVersion) && IsField(r.oldArchitecture)
    && IsField(r.direction) && IsField(r.newVersion) && IsField(r.newArchitecture)
  }

  lemma RenderAllKeeps(records: seq<Record>)
    ensures |RenderAll(records)| == |records|
  {
  }

  lemma RenderIsInjective(a: Record, b: Record)
    requires WellFormed(a) && WellFormed(b)
    ensures Render(a) == Render(b) <==> a == b
  {
    if Render(a) == Render(b) {
      var f, g := FieldsOf(a), FieldsOf(b);
      JoinIsInjective(f, g);
      assert f[0] == g[0] && f[1] == g[1] && f[2] == g[2] && f[4] == g[4] && f[5] == g[5] && f[6] == g[6] && f[8] == g[8];
    }
  }

  lemma {:induction false} RenderAllCounts(records: seq<Record>, r: Record)
    requires WellFormed(r) && forall x <- records :: WellFormed(x)
    ensures multiset(RenderAll(records))[Render(r)] == multiset(records)[r]
  {
    if records != [] {
      var last := records[|records| - 1];
      RenderAllCounts(records[..|records| - 1], r);
      RenderIsInjective(last, r);
      assert records == records[..|records| - 1] + [last];
    }
  }

  lemma {:induction false} RenderedCameFrom(records: seq<Record>, line: string)
    requires line in RenderAll(records)
    ensures exists r :: r in records && Render(r) == line
  {
    var last := records[|records| - 1];
    if line == Render(last) {
      assert last in records;
    } else {
      RenderedCameFrom(records[..|records| - 1], line);
      var r :| r in records[..|records| - 1] && Render(r) == line;
      assert r in records;
    }
  }

  /** Comparing rendered lines is comparing records. */
  lemma RenderedEquality(a: seq<Record>, b: seq<Record>)
    requires (forall r <- a :: WellFormed(r)) && (forall r <- b :: WellFormed(r))
    ensures multiset(RenderAll(a)) == multiset(RenderAll(b)) <==> multiset(a) == multiset(b)
  {
    var x, y := multiset(RenderAll(a)), multiset(RenderAll(b));
    if x == y {
      forall r ensures multiset(a)[r] == multiset(b)[r] {
        if r in a || r in b { RenderAllCounts(a, r); RenderAllCounts(b, r); }
      }
    }
    if multiset(a) == multiset(b) {
      forall line ensures x[line] == y[line] {
        if line in RenderAll(a) || line in RenderAll(b) {
          RenderedLineCounts(a, b, line);
        }
      }
    }
  }

  lemma RenderedLineCounts(a: seq<Record>, b: seq<Record>, line: string)
    requires (forall r <- a :: WellFormed(r)) && (forall r <- b :: WellFormed(r)) && multiset(a) == multiset(b)
    requires line in RenderAll(a) || line in RenderAll(b)
    ensures multiset(RenderAll(a))[line] == multiset(RenderAll(b))[line]
  {
    RenderedCameFrom(if line in RenderAll(a) then a else b, line);
    var r :| (r in a || r in b) && Render(r) == line;
    RenderAllCounts(a, r);
    RenderAllCounts(b, r);
  }

  lemma {:induction false} RecordsAreWellFormed(actions: seq<string>)
    ensures forall r <- Records(actions) :: WellFormed(r)
  {
    if actions != [] {
      RecordsAreWellFormed(actions[..|actions| - 1]);
    }
  }

  lemma ApprovableIsWellFormed(row: Row, action: Action)
    requires Approvable(row)
    ensures WellFormed(ActionOf(row, action)) && '\n' !in Render(ActionOf(row, action))
  {
    var f := FieldsOf(ActionOf(row, action));
    forall s <- f ensures '\n' !in s { }
    JoinHasNoBreak(f);
  }

  lemma {:induction false} JoinHasNoBreak(fields: seq<string>)
    requires forall s <- fields :: '\n' !in s
    ensures '\n' !in Join(fields)
  {
    if fields != [] {
      assert fields[0] in fields;
      JoinHasNoBreak(fields[1..]);
    }
  }

  lemma {:induction false} ExpectedIsWellFormed(rows: seq<Row>)
    requires forall row <- rows :: Approvable(row)
    ensures |Expected(rows)| == 2 * |rows| && |RenderAll(Expected(rows))| == 2 * |rows|
    ensures (forall r <- Expected(rows) :: WellFormed(r)) && NoBreaks(RenderAll(Expected(rows)))
  {
    if rows != [] {
      var last := rows[|rows| - 1];
      ExpectedIsWellFormed(rows[..|rows| - 1]);
      ApprovableIsWellFormed(last, Unpack);
      ApprovableIsWellFormed(last, Configure);
      RenderTwo(Expected(rows[..|rows| - 1]), ActionOf(last, Unpack), ActionOf(last, Configure));
    }
  }

  lemma ManifestReadsBack(operation: string, rows: seq<Row>)
    requires '\n' !in operation && forall row <- rows :: Approvable(row)
    ensures var lines := [Header(operation)] + RenderAll(Expected(rows));
            Lines(Manifest(operation, rows)) == lines && AllLines(Manifest(operation, rows)) == lines
  {
    var lines := [Header(operation)] + RenderAll(Expected(rows));
    ExpectedIsWellFormed(rows);
    assert '\n' !in Header(operation);
    UnlinesReadBack(lines);
  }

  /**
   The gate is exact: on any stream, with the manifest of any approved rows, it accepts if and
   only if every line of the action section is admissible and the actions are, as a multiset, one
   unpack and one configure of every approved row. What follows the last newline is not read.
   */
  lemma GateIsExact(operation: string, rows: seq<Row>, stream: string)
    requires '\n' !in operation && rows != [] && forall row <- rows :: Approvable(row)
    ensures Accepts(operation, Manifest(operation, rows), stream) <==>
            var section := ActionSection(Lines(stream));
            section.Some? && Admissible(section.value) && multiset(Records(section.value)) == multiset(Expected(rows))
  {
    ManifestReadsBack(operation, rows);
    ExpectedIsWellFormed(rows);
    var lines := [Header(operation)] + RenderAll(Expected(rows));
    assert lines[1..] == RenderAll(Expected(rows));
    var section := ActionSection(Lines(stream));
    if section.Some? {
      var records := Records(section.value);
      RecordsAreWellFormed(section.value);
      RenderedEquality(Expected(rows), records);
      if multiset(records) == multiset(Expected(rows)) {
        assert |multiset(records)| == |records| && |multiset(Expected(rows))| == |Expected(rows)|;
      }
    }
  }

  lemma {:induction false} ExpectedCounts(rows: seq<Row>, row: Row, action: Action)
    ensures multiset(Expected(rows))[ActionOf(row, action)] == multiset(rows)[row]
  {
    if rows != [] {
      var earlier, last := rows[..|rows| - 1], rows[|rows| - 1];
      ExpectedCounts(earlier, row, action);
      assert rows == earlier + [last];
      assert ActionOf(last, action) == ActionOf(row, action) <==> last == row;
    }
  }

  lemma {:induction false} ExpectedCameFrom(rows: seq<Row>, r: Record)
    requires r in Expected(rows)
    ensures exists row :: row in rows && r == ActionOf(row, r.action)
  {
    var last := rows[|rows| - 1];
    if r == ActionOf(last, r.action) {
      assert last in rows;
    } else {
      ExpectedCameFrom(rows[..|rows| - 1], r);
      var row :| row in rows[..|rows| - 1] && r == ActionOf(row, r.action);
      assert row in rows;
    }
  }

  /** With distinct rows: every accepted action is an approved row's, and each row has exactly its two. */
  lemma AcceptedIsApproved(operation: string, rows: seq<Row>, stream: string)
    requires '\n' !in operation && rows != [] && forall row <- rows :: Approvable(row)
    requires Distinct(rows)
    requires Accepts(operation, Manifest(operation, rows), stream)
    ensures var records := Records(ActionSection(Lines(stream)).value);
            && (forall r <- records :: exists row :: row in rows && r == ActionOf(row, r.action))
            && (forall row, action :: row in rows ==> multiset(records)[ActionOf(row, action)] == 1)
  {
    GateIsExact(operation, rows, stream);
    var records := Records(ActionSection(Lines(stream)).value);
    forall r | r in records ensures exists row :: row in rows && r == ActionOf(row, r.action) {
      assert r in multiset(records) && r in multiset(Expected(rows));
      ExpectedCameFrom(rows, r);
    }
    forall row, action | row in rows ensures multiset(records)[ActionOf(row, action)] == 1 {
      ExpectedCounts(rows, row, action);
      DistinctCounts(rows);
      assert row in multiset(rows);
    }
  }

  /** The action section of a stream made of the protocol line, a configuration space and actions. */
  lemma {:induction false} SectionOfStream(configuration: seq<string>, actions: seq<string>)
    requires forall line <- configuration :: line != ""
    ensures ActionSection(["VERSION 3"] + configuration + [""] + actions) == Some(actions)
  {
    var lines := ["VERSION 3"] + configuration + [""] + actions;
    assert lines[1..] == configuration + [""] + actions;
    AfterConfiguration(configuration, actions);
  }

  lemma {:induction false} AfterConfiguration(configuration: seq<string>, actions: seq<string>)
    requires forall line <- configuration :: line != ""
    ensures AfterBlank(configuration + [""] + actions) == Some(actions)
  {
    var lines := configuration + [""] + actions;
    if configuration == [] {
      assert lines[1..] == actions;
    } else {
      forall line | line in configuration[1..] ensures line != "" { assert line in configuration; }
      assert configuration[0] in configuration;
      assert lines[0] == configuration[0] && lines[1..] == configuration[1..] + [""] + actions;
      AfterConfiguration(configuration[1..], actions);
    }
  }

  /**
   End to end: a stream of the protocol line, any configuration space and these action lines is
   accepted if and only if the lines are admissible and are, as a multiset, the approved actions.
   */
  lemma PrintedStreamIsDecided(operation: string, rows: seq<Row>, configuration: seq<string>, actions: seq<string>)
    requires '\n' !in operation && rows != [] && forall row <- rows :: Approvable(row)
    requires NoBreaks(configuration) && NoBreaks(actions) && forall line <- configuration :: line != ""
    ensures var stream := Unlines(["VERSION 3"] + configuration + [""] + actions);
            Accepts(operation, Manifest(operation, rows), stream)
            <==> Admissible(actions) && multiset(Records(actions)) == multiset(Expected(rows))
  {
    var lines := ["VERSION 3"] + configuration + [""] + actions;
    UnlinesReadBack(lines);
    SectionOfStream(configuration, actions);
    GateIsExact(operation, rows, Unlines(lines));
  }
}
