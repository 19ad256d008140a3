/**
 One batched `systemctl show` for all frozen units of a contract. The answer is matched to the
 request by position, never by the `Id` it reports, because two unit names can be one unit.
 */
module SystemdBatch {
  import opened Wrappers
  import opened Text
  import opened Ordering

  datatype Outcome = Passed | Failed | Unknown

  /** The bounded reasons the host may give for one probe. */
  datatype Reason =
    | UnitActive | UnitNotActive | UnitActivating | UnitDeactivating | UnitReloading | UnitJobPending
    | GuestOperationalConfirmed
    | ProbeTargetNotExact | ProbeTargetAmbiguous | GuestUnavailable | CommandFailed | CommandTimedOut
    | MalformedOutput | SettlingBudgetExhausted

  datatype Observation = Observation(outcome: Outcome, reason: Reason)

  const PROPERTIES: set<string> := {"Id", "LoadState", "ActiveState", "Job"}

  /** Only `active` passes; only a state at rest with no job fails; everything else is unknown. */
  function Classify(activeState: string, job: string): (o: Observation)
    ensures o.outcome == Passed <==> activeState == "active"
    ensures o.outcome == Failed <==>
            activeState == "maintenance" || (activeState in {"inactive", "failed"} && Strip(job) == "")
  {
    if activeState == "active" then Observation(Passed, UnitActive)
    else if activeState == "activating" then Observation(Unknown, UnitActivating)
    else if activeState == "deactivating" then Observation(Unknown, UnitDeactivating)
    else if activeState == "reloading" then Observation(Unknown, UnitReloading)
    else if activeState in {"inactive", "failed"} then
      if Strip(job) != "" then Observation(Unknown, UnitJobPending) else Observation(Failed, UnitNotActive)
    else if activeState == "maintenance" then Observation(Failed, UnitNotActive)
    else Observation(Unknown, MalformedOutput)
  }

  // ---------------------------------------------------------------------------
  // Parsing
  // ---------------------------------------------------------------------------

  /** Where the first empty line begins. */
  function Gap(text: string): (n: nat)
    ensures n <= |text| && (n < |text| ==> n + 1 < |text| && text[n] == '\n' && text[n + 1] == '\n')
    ensures forall i :: 0 <= i < n && i + 1 < |text| ==> !GapAt(text, i)
  {
    if |text| < 2 then |text|
    else if GapAt(text, 0) then 0
    else
      var n := 1 + Gap(text[1..]);
      assert forall i :: 1 <= i < n && i + 1 < |text| ==> GapAt(text, i) == GapAt(text[1..], i - 1);
      n
  }

  predicate GapAt(text: string, i: nat)
    requires i + 1 < |text|
  {
    text[i] == '\n' && text[i + 1] == '\n'
  }

  function SplitBlocks(text: string): seq<string>
    decreases |text|
  {
    var n := Gap(text);
    if n == |text| then [text] else [text[..n]] + SplitBlocks(text[n + 2..])
  }

  function NotBlank(block: string): Option<string>
  {
    if Strip(block) == "" then None else Some(block)
  }

  function Blocks(stdout: string): seq<string>
  {
    Collect(NotBlank, SplitBlocks(Strip(stdout)))
  }

  /** `None` for a line without `=` and for a repeated key. */
  function ParseProperties(lines: seq<string>): Option<map<string, string>>
  {
    if lines == [] then Some(map[]) else
    var line := lines[|lines| - 1];
    var i := IndexOf(line, '=');
    match ParseProperties(lines[..|lines| - 1])
    case None => None
    case Some(m) => if i == |line| || line[..i] in m then None else Some(m[line[..i] := line[i + 1..]])
  }

  function ClassifyBlock(block: string): Observation
  {
    var m := ParseProperties(SplitLines(block));
    if m == None || m.value.Keys != PROPERTIES then Observation(Unknown, MalformedOutput)
    else Classify(m.value["ActiveState"], m.value["Job"])
  }

  /** The answer for each target: its own block's, or unknown for all if the counts differ. */
  function Answers(targets: seq<string>, stdout: string): map<string, Observation>
  {
    var blocks := Blocks(stdout);
    if |blocks| > |targets| then Everywhere(targets, Observation(Unknown, ProbeTargetAmbiguous))
    else if |blocks| < |targets| then Everywhere(targets, Observation(Unknown, MalformedOutput))
    else ByPosition(targets, blocks)
  }

  function Everywhere(targets: seq<string>, o: Observation): map<string, Observation>
  {
    map t | t in targets :: o
  }

  function ByPosition(targets: seq<string>, blocks: seq<string>): map<string, Observation>
    requires |targets| == |blocks|
  {
    if targets == [] then map[] else
    ByPosition(targets[..|targets| - 1], blocks[..|blocks| - 1])[targets[|targets| - 1] := ClassifyBlock(blocks[|blocks| - 1])]
  }

  method ReadBlock(block: string) returns (o: Observation)
    ensures o == ClassifyBlock(block)
  {
    var lines := SplitLines(block);
    var properties: map<string, string> := map[];
    var malformed, i := false, 0;
    while i < |lines| && !malformed
      invariant 0 <= i <= |lines|
      invariant ParseProperties(lines[..i]) == if malformed then None else Some(properties)
    {
      var line := lines[i];
      var split := IndexOf(line, '=');
      assert lines[..i + 1][..i] == lines[..i] && lines[..i + 1][i] == line;
      if split == |line| || line[..split] in properties {
        malformed := true;
      } else {
        properties := properties[line[..split] := line[split + 1..]];
      }
      i := i + 1;
    }
    if malformed {
      StaysMalformed(lines, i);
      return Observation(Unknown, MalformedOutput);
    }
    assert lines[..i] == lines;
    if properties.Keys != PROPERTIES { return Observation(Unknown, MalformedOutput); }
    o := Classify(properties["ActiveState"], properties["Job"]);
  }

  lemma {:induction false} StaysMalformed(lines: seq<string>, i: nat)
    requires i <= |lines| && ParseProperties(lines[..i]) == None
    ensures ParseProperties(lines) == None
  {
    if i < |lines| {
      assert lines[..|lines| - 1][..i] == lines[..i];
      StaysMalformed(lines[..|lines| - 1], i);
    } else {
      assert lines[..i] == lines;
    }
  }

  method ReadAnswers(targets: seq<string>, stdout: string) returns (answers: map<string, Observation>)
    ensures answers == Answers(targets, stdout)
  {
    var blocks := Blocks(stdout);
    if |blocks| != |targets| {
      var reason := if |blocks| > |targets| then ProbeTargetAmbiguous else MalformedOutput;
      return Everywhere(targets, Observation(Unknown, reason));
    }
    answers := map[];
    var i := 0;
    while i < |targets|
      invariant 0 <= i <= |targets| && answers == ByPosition(targets[..i], blocks[..i])
    {
      var o := ReadBlock(blocks[i]);
      OneMorePosition(targets, blocks, i);
      answers := answers[targets[i] := o];
      i := i + 1;
    }
    assert targets[..i] == targets && blocks[..i] == blocks;
  }

  lemma OneMorePosition(targets: seq<string>, blocks: seq<string>, i: nat)
    requires |targets| == |blocks| && i < |targets|
    ensures ByPosition(targets[..i + 1], blocks[..i + 1])
            == ByPosition(targets[..i], blocks[..i])[targets[i] := ClassifyBlock(blocks[i])]
  {
    assert targets[..i + 1][..i] == targets[..i] && blocks[..i + 1][..i] == blocks[..i];
  }

  // ---------------------------------------------------------------------------
  // What the mapping guarantees
  // ---------------------------------------------------------------------------

  /** With distinct targets each one gets the classification of the block at its own position. */
  lemma {:induction false} PositionDecides(targets: seq<string>, blocks: seq<string>, k: nat)
    requires |targets| == |blocks| && Distinct(targets) && k < |targets|
    ensures targets[k] in ByPosition(targets, blocks) && ByPosition(targets, blocks)[targets[k]] == ClassifyBlock(blocks[k])
    ensures ByPosition(targets, blocks).Keys == set t | t in targets
  {
    var n := |targets| - 1;
    var rest := targets[..n];
    KeysAreTargets(targets, blocks);
    if k < n {
      forall i, j | 0 <= i < j < n ensures rest[i] != rest[j] { assert targets[i] != targets[j]; }
      PositionDecides(rest, blocks[..n], k);
      assert targets[k] != targets[n];
    }
  }

  lemma {:induction false} KeysAreTargets(targets: seq<string>, blocks: seq<string>)
    requires |targets| == |blocks|
    ensures ByPosition(targets, blocks).Keys == set t | t in targets
  {
    if targets != [] {
      KeysAreTargets(targets[..|targets| - 1], blocks[..|blocks| - 1]);
      assert targets == targets[..|targets| - 1] + [targets[|targets| - 1]];
    }
  }

  /** A wrong number of blocks makes every target unknown. */
  lemma MiscountIsUnknown(targets: seq<string>, stdout: string, t: string)
    requires |Blocks(stdout)| != |targets| && t in targets
    ensures t in Answers(targets, stdout) && Answers(targets, stdout)[t].outcome == Unknown
  {
  }

  // ---------------------------------------------------------------------------
  // Round trip
  // ---------------------------------------------------------------------------

  /** What one unit reports, in whatever order systemd prints it. */
  type Report = seq<(string, string)>

  function Key(p: (string, string)): string { p.0 }

  predicate Tidy(value: string)
  {
    Unbroken(value) && (value != "" ==> !Whitespace(value[0]) && !Whitespace(value[|value| - 1]))
  }

  predicate WellFormed(report: Report)
  {
    && |report| == 4 && Distinct(Map(Key, report)) && (forall p <- report :: p.0 in PROPERTIES && Tidy(p.1))
  }

  function PropertyLine(p: (string, string)): string { p.0 + "=" + p.1 }

  function RenderBlock(report: Report): string
  {
    JoinLines(Map(PropertyLine, report))
  }

  function JoinBlocks(blocks: seq<string>): string
  {
    if blocks == [] then "" else if |blocks| == 1 then blocks[0] else blocks[0] + "\n\n" + JoinBlocks(blocks[1..])
  }

  function Render(reports: seq<Report>): string
  {
    JoinBlocks(Map(RenderBlock, reports)) + "\n"
  }

  function Value(report: Report, key: string): string
  {
    if report == [] then ""
    else if report[|report| - 1].0 == key then report[|report| - 1].1
    else Value(report[..|report| - 1], key)
  }

  predicate BlockOk(block: string)
  {
    && block != "" && !Whitespace(block[0]) && !Whitespace(block[|block| - 1])
    && forall i :: 0 <= i < |block| - 1 ==> !GapAt(block, i)
  }

  lemma GapAfterBlock(block: string, rest: string)
    requires BlockOk(block) && (rest == "" || (|rest| >= 2 && rest[0] == '\n' && rest[1] == '\n'))
    ensures Gap(block + rest) == |block|
  {
    var text, n := block + rest, Gap(block + rest);
    assert forall i :: 0 <= i < |block| ==> text[i] == block[i];
    assert n < |block| - 1 ==> GapAt(block, n);
    assert text[|block| - 1] != '\n';
    assert rest != "" ==> GapAt(text, |block|);
  }

  lemma BlockSplits(block: string, rest: string)
    requires BlockOk(block)
    ensures SplitBlocks(block + "\n\n" + rest) == [block] + SplitBlocks(rest)
  {
    var text := block + "\n\n" + rest;
    assert text == block + ("\n\n" + rest);
    GapAfterBlock(block, "\n\n" + rest);
    assert text[..|block|] == block && text[|block| + 2..] == rest;
  }

  lemma LastBlockSplits(block: string)
    requires BlockOk(block)
    ensures SplitBlocks(block) == [block]
  {
    GapAfterBlock(block, "");
    assert block + "" == block;
  }

  lemma {:induction false} BlocksOfJoin(blocks: seq<string>)
    requires |blocks| > 0 && forall b <- blocks :: BlockOk(b)
    ensures SplitBlocks(JoinBlocks(blocks)) == blocks
  {
    if |blocks| == 1 {
      LastBlockSplits(blocks[0]);
    } else {
      calc {
        SplitBlocks(JoinBlocks(blocks));
        SplitBlocks(blocks[0] + "\n\n" + JoinBlocks(blocks[1..]));
        { BlockSplits(blocks[0], JoinBlocks(blocks[1..])); }
        [blocks[0]] + SplitBlocks(JoinBlocks(blocks[1..]));
        { BlocksOfJoin(blocks[1..]); }
        blocks;
      }
    }
  }

  lemma {:induction false} JoinedEnds(blocks: seq<string>)
    requires |blocks| > 0 && forall b <- blocks :: BlockOk(b)
    ensures var text := JoinBlocks(blocks); text != "" && !Whitespace(text[0]) && !Whitespace(text[|text| - 1])
  {
    if |blocks| == 1 {
      assert JoinBlocks(blocks) == blocks[0];
    } else {
      JoinedEnds(blocks[1..]);
      var first, rest := blocks[0], JoinBlocks(blocks[1..]);
      var text := first + "\n\n" + rest;
      assert JoinBlocks(blocks) == text && BlockOk(first);
      assert text[0] == first[0] && text[|text| - 1] == rest[|rest| - 1];
    }
  }

  lemma StripKeeps(text: string)
    requires text != "" && !Whitespace(text[0]) && !Whitespace(text[|text| - 1])
    ensures Strip(text) == text && Strip(text + "\n") == text
  {
    assert (text + "\n")[..|text|] == text;
    assert StripLeft(text + "\n", Whitespace) == text + "\n";
    assert StripRight(text + "\n", Whitespace) == StripRight(text, Whitespace);
  }

  lemma BlocksReadBack(blocks: seq<string>)
    requires |blocks| > 0 && forall b <- blocks :: BlockOk(b)
    ensures Blocks(JoinBlocks(blocks) + "\n") == blocks
  {
    BlocksOfJoin(blocks);
    JoinedEnds(blocks);
    StripKeeps(JoinBlocks(blocks));
    forall b | b in blocks ensures NotBlank(b) == Some(b) { StripKeeps(b); }
    KeepsAll(blocks);
  }

  lemma {:induction false} KeepsAll(blocks: seq<string>)
    requires forall b <- blocks :: NotBlank(b) == Some(b)
    ensures Collect(NotBlank, blocks) == blocks
  {
    if blocks != [] {
      var rest, last := blocks[..|blocks| - 1], blocks[|blocks| - 1];
      calc {
        Collect(NotBlank, blocks);
        { assert blocks == rest + [last]; }
        Collect(NotBlank, rest + [last]);
        { CollectOneMore(NotBlank, rest, last); }
        Collect(NotBlank, rest) + [last];
        { KeepsAll(rest); }
        rest + [last];
        blocks;
      }
    }
  }

  lemma KeyShape(key: string)
    requires key in PROPERTIES
    ensures '=' !in key && Unbroken(key) && key != "" && !Whitespace(key[0])
  {
    assert key == "Id" || key == "LoadState" || key == "ActiveState" || key == "Job";
  }

  lemma LineShape(p: (string, string))
    requires p.0 in PROPERTIES && Tidy(p.1)
    ensures var line := PropertyLine(p);
            && Unbroken(line) && line != "" && !Whitespace(line[0]) && !Whitespace(line[|line| - 1])
            && IndexOf(line, '=') == |p.0| && line[..|p.0|] == p.0 && line[|p.0| + 1..] == p.1
  {
    var line := PropertyLine(p);
    KeyShape(p.0);
    assert line == p.0 + ['='] + p.1;
    IndexOfFirst(p.0, '=', p.1);
  }

  lemma {:induction false} JoinedIsBlock(lines: seq<string>)
    requires |lines| > 0
    requires forall line <- lines :: Unbroken(line) && line != "" && !Whitespace(line[0]) && !Whitespace(line[|line| - 1])
    ensures BlockOk(JoinLines(lines))
  {
    if |lines| > 1 {
      var first, rest := lines[0], JoinLines(lines[1..]);
      JoinedIsBlock(lines[1..]);
      var block := JoinLines(lines);
      assert block == first + "\n" + rest;
      assert !Whitespace(block[0]) && block[|block| - 1] == rest[|rest| - 1];
      forall i | 0 <= i < |block| - 1 ensures !GapAt(block, i) {
        if i < |first| {
          assert block[i] == first[i];
        } else if i == |first| {
          assert block[i + 1] == rest[0];
        } else {
          assert GapAt(block, i) == GapAt(rest, i - |first| - 1);
        }
      }
    } else {
      var block := JoinLines(lines);
      assert block == lines[0] && forall i :: 0 <= i < |block| ==> block[i] != '\n';
    }
  }

  function KeysOf(report: Report): set<string>
  {
    set p | p in report :: p.0
  }

  predicate Holds(m: map<string, string>, report: Report)
  {
    m.Keys == KeysOf(report) && forall key <- m :: m[key] == Value(report, key)
  }

  lemma HoldsOneMore(m: map<string, string>, report: Report, p: (string, string))
    requires Holds(m, report)
    ensures Holds(m[p.0 := p.1], report + [p])
  {
    var more := report + [p];
    assert more[..|more| - 1] == report;
    assert KeysOf(more) == KeysOf(report) + {p.0};
  }

  lemma {:induction false} PropertiesReadBack(report: Report)
    requires Distinct(Map(Key, report)) && forall p <- report :: p.0 in PROPERTIES && Tidy(p.1)
    ensures var m := ParseProperties(Map(PropertyLine, report)); m.Some? && Holds(m.value, report)
  {
    if report != [] {
      var rest, last := report[..|report| - 1], report[|report| - 1];
      assert report == rest + [last];
      DistinctKeys(rest, last);
      PropertiesReadBack(rest);
      ParseOneMore(Map(PropertyLine, rest), last);
      MapSplits(PropertyLine, rest, [last]);
      assert Map(PropertyLine, report) == Map(PropertyLine, rest) + [PropertyLine(last)];
      HoldsOneMore(ParseProperties(Map(PropertyLine, rest)).value, rest, last);
    }
  }

  lemma ParseOneMore(lines: seq<string>, p: (string, string))
    requires p.0 in PROPERTIES && Tidy(p.1)
    ensures ParseProperties(lines + [PropertyLine(p)]) ==
            match ParseProperties(lines)
            case None => None
            case Some(m) => if p.0 in m then None else Some(m[p.0 := p.1])
  {
    LineShape(p);
    assert (lines + [PropertyLine(p)])[..|lines|] == lines;
  }

  lemma DistinctKeys(report: Report, p: (string, string))
    requires Distinct(Map(Key, report + [p]))
    ensures Distinct(Map(Key, report)) && p.0 !in KeysOf(report)
  {
    MapSplits(Key, report, [p]);
    assert Map(Key, [p]) == [p.0];
    DistinctOneMore(Map(Key, report), p.0);
  }

  lemma {:induction false} KeysCount(report: Report)
    requires Distinct(Map(Key, report))
    ensures |KeysOf(report)| == |report|
  {
    if report != [] {
      var rest, last := report[..|report| - 1], report[|report| - 1];
      assert report == rest + [last];
      DistinctKeys(rest, last);
      KeysCount(rest);
      assert KeysOf(report) == KeysOf(rest) + {last.0};
    }
  }

  lemma SameSize(a: set<string>, b: set<string>)
    requires a <= b && |a| == |b|
    ensures a == b
  {
    assert b == a + (b - a);
    assert |b - a| == 0;
  }

  lemma AllKeys(report: Report)
    requires WellFormed(report)
    ensures KeysOf(report) == PROPERTIES
  {
    KeysCount(report);
    SameSize(KeysOf(report), PROPERTIES);
  }

  lemma ReportReadsBack(report: Report)
    requires WellFormed(report)
    ensures BlockOk(RenderBlock(report))
    ensures ClassifyBlock(RenderBlock(report)) == Classify(Value(report, "ActiveState"), Value(report, "Job"))
  {
    var lines := Map(PropertyLine, report);
    forall line | line in lines
      ensures Unbroken(line) && line != "" && !Whitespace(line[0]) && !Whitespace(line[|line| - 1])
    {
      var i :| 0 <= i < |lines| && lines[i] == line;
      LineShape(report[i]);
    }
    JoinedIsBlock(lines);
    JoinedLinesSplit(lines);
    PropertiesReadBack(report);
    AllKeys(report);
  }

  /**
   Reports printed in request order, in any property order, come back to their own targets, also
   when units share an `Id`: target k is classified by report k alone.
   */
  lemma BatchReadsBack(targets: seq<string>, reports: seq<Report>, k: nat)
    requires Distinct(targets) && |targets| == |reports| && k < |targets| && forall r <- reports :: WellFormed(r)
    ensures targets[k] in Answers(targets, Render(reports))
    ensures Answers(targets, Render(reports))[targets[k]] == Classify(Value(reports[k], "ActiveState"), Value(reports[k], "Job"))
  {
    var blocks := Map(RenderBlock, reports);
    forall b | b in blocks ensures BlockOk(b) {
      var i :| 0 <= i < |blocks| && blocks[i] == b;
      ReportReadsBack(reports[i]);
    }
    BlocksReadBack(blocks);
    PositionDecides(targets, blocks, k);
    ReportReadsBack(reports[k]);
  }
}
