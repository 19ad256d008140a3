/**
 The two readers of dpkg's four-column inventory: the host helper's, which only refuses, and the
 backend's canonical one. Both are loops over lines; what they return when both accept agrees, and
 where only one of them accepts is said exactly.
 */
module DpkgReaders {
  import opened Wrappers
  import opened Text
  import opened Ordering
  import opened Packages

  /** dpkg's own status words; `Unfinished` is any of the five mid-transaction ones. */
  datatype Status = IsInstalled | NotInstalled | ConfigFiles | Unfinished(word: string) | Unknown(word: string)

  datatype DpkgRow = DpkgRow(name: string, architecture: string, version: string, status: Status)

  function StatusOf(word: string): Status
  {
    if word == "installed" then IsInstalled
    else if word == "not-installed" then NotInstalled
    else if word == "config-files" then ConfigFiles
    else if word in ["half-installed", "unpacked", "half-configured", "triggers-awaited", "triggers-pending"] then Unfinished(word)
    else Unknown(word)
  }

  const MAX_INVENTORY := 16 * 1024 * 1024
  const MAX_NAME := 300
  const MAX_VERSION := 500

  // ---------------------------------------------------------------------------
  // Lines and columns
  // ---------------------------------------------------------------------------

  function Columns(line: string): (columns: seq<string>)
    ensures |columns| > 0
    decreases |line|
  {
    var n := IndexOf(line, '\t');
    if n == |line| then [line] else [line[..n]] + Columns(line[n + 1..])
  }

  function Utf8Size(text: string): nat
  {
    if text == [] then 0
    else Utf8Size(text[..|text| - 1]) + (var c := text[|text| - 1] as int;
                                         if c < 0x80 then 1 else if c < 0x800 then 2 else if c < 0x10000 then 3 else 4)
  }

  /** Empty lines are skipped by both readers. */
  predicate LineOk(line: string)
  {
    line != "" ==> |Columns(line)| == 4
  }

  function RowOf(line: string): Option<DpkgRow>
  {
    var f := Columns(line);
    if line != "" && |f| == 4 then Some(DpkgRow(f[0], f[1], f[2], StatusOf(f[3]))) else None
  }

  predicate LinesOk(lines: seq<string>)
  {
    forall line <- lines :: LineOk(line)
  }

  predicate Tabular(text: string)
  {
    LinesOk(SplitLines(text))
  }

  lemma OneMoreLine(lines: seq<string>, i: nat)
    requires i < |lines|
    ensures LinesOk(lines[..i + 1]) <==> LinesOk(lines[..i]) && LineOk(lines[i])
    ensures Collect(RowOf, lines[..i + 1]) ==
            match RowOf(lines[i]) case None => Collect(RowOf, lines[..i]) case Some(row) => Collect(RowOf, lines[..i]) + [row]
  {
    assert lines[..i + 1] == lines[..i] + [lines[i]];
    CollectOneMore(RowOf, lines[..i], lines[i]);
  }

  function Rows(text: string): seq<DpkgRow>
  {
    Collect(RowOf, SplitLines(text))
  }

  function RowIdentity(row: DpkgRow): Identity { (row.name, row.architecture) }

  function Identities(rows: seq<DpkgRow>): set<Identity>
  {
    set row | row in rows :: RowIdentity(row)
  }

  /** The last installed row of an identity wins; distinct identities make it the only one. */
  function Installed(rows: seq<DpkgRow>): map<Identity, string>
  {
    if rows == [] then map[] else
    var last := rows[|rows| - 1];
    if last.status.IsInstalled? then Installed(rows[..|rows| - 1])[RowIdentity(last) := last.version]
    else Installed(rows[..|rows| - 1])
  }

  // ---------------------------------------------------------------------------
  // The helper's reader
  // ---------------------------------------------------------------------------

  predicate NamesBinary(row: DpkgRow)
  {
    row.name != "" && Architecture(row.architecture)
  }

  function UnfinishedName(row: DpkgRow): Option<string>
  {
    if row.status.Unfinished? then Some(row.name + ":" + row.architecture) else None
  }

  predicate HelperRowsOk(rows: seq<DpkgRow>)
  {
    (forall row <- rows :: NamesBinary(row)) && Distinct(Map(RowIdentity, rows))
  }

  predicate HelperAccepts(text: string)
  {
    Tabular(text) && HelperRowsOk(Rows(text))
  }

  lemma DistinctNames(rows: seq<DpkgRow>, row: DpkgRow)
    ensures Distinct(Map(RowIdentity, rows + [row])) <==>
            Distinct(Map(RowIdentity, rows)) && RowIdentity(row) !in Map(RowIdentity, rows)
  {
    MapSplits(RowIdentity, rows, [row]);
    assert Map(RowIdentity, [row]) == [RowIdentity(row)];
    DistinctOneMore(Map(RowIdentity, rows), RowIdentity(row));
  }

  lemma OneMoreRow(rows: seq<DpkgRow>, row: DpkgRow)
    ensures HelperRowsOk(rows + [row]) <==>
            HelperRowsOk(rows) && NamesBinary(row) && RowIdentity(row) !in Map(RowIdentity, rows)
    ensures Identities(rows + [row]) == Identities(rows) + {RowIdentity(row)}
  {
    DistinctNames(rows, row);
    assert (forall r <- rows + [row] :: NamesBinary(r)) <==> (forall r <- rows :: NamesBinary(r)) && NamesBinary(row);
  }

  lemma OneMoreInstalled(rows: seq<DpkgRow>, row: DpkgRow)
    ensures Installed(rows + [row]) == if row.status.IsInstalled? then Installed(rows)[RowIdentity(row) := row.version] else Installed(rows)
  {
    assert (rows + [row])[..|rows|] == rows;
  }

  /** A prefix that is refused is never saved by what follows. */
  lemma RefusedForGood(lines: seq<string>, i: nat)
    requires i < |lines| && (!LineOk(lines[i]) || !HelperRowsOk(Collect(RowOf, lines[..i + 1])))
    ensures !(LinesOk(lines) && HelperRowsOk(Collect(RowOf, lines)))
  {
    if LineOk(lines[i]) {
      var a, b := Collect(RowOf, lines[..i + 1]), Collect(RowOf, lines[i + 1..]);
      CollectSplits(RowOf, lines[..i + 1], lines[i + 1..]);
      assert lines == lines[..i + 1] + lines[i + 1..];
      assert Collect(RowOf, lines) == a + b;
      if HelperRowsOk(a + b) { PrefixOk(a, b); }
    }
  }

  lemma PrefixOk(a: seq<DpkgRow>, b: seq<DpkgRow>)
    requires HelperRowsOk(a + b)
    ensures HelperRowsOk(a)
  {
    MapSplits(RowIdentity, a, b);
    var x, y := Map(RowIdentity, a), Map(RowIdentity, a + b);
    forall i, j | 0 <= i < j < |x| ensures x[i] != x[j] { assert y[i] != y[j]; }
  }

  method ParseDpkgInventory(text: string) returns (r: Option<(map<Identity, string>, seq<string>)>)
    ensures r == if HelperAccepts(text) then Some((Installed(Rows(text)), Collect(UnfinishedName, Rows(text)))) else None
  {
    var installed: map<Identity, string> := map[];
    var unfinished: seq<string> := [];
    var seen: set<Identity> := {};
    var lines := SplitLines(text);
    ghost var rows: seq<DpkgRow> := [];
    var i := 0;
    while i < |lines|
      invariant 0 <= i <= |lines| && LinesOk(lines[..i])
      invariant rows == Collect(RowOf, lines[..i]) && HelperRowsOk(rows)
      invariant seen == Identities(rows)
      invariant installed == Installed(rows) && unfinished == Collect(UnfinishedName, rows)
    {
      var line := lines[i];
      OneMoreLine(lines, i);
      if line != "" {
        var fields := Columns(line);
        if |fields| != 4 {
          RefusedForGood(lines, i);
          return None;
        }
        var row := DpkgRow(fields[0], fields[1], fields[2], StatusOf(fields[3]));
        OneMoreRow(rows, row);
        OneMoreInstalled(rows, row);
        CollectOneMore(UnfinishedName, rows, row);
        SeenNames(rows, row);
        if !NamesBinary(row) || RowIdentity(row) in seen {
          RefusedForGood(lines, i);
          return None;
        }
        seen := seen + {RowIdentity(row)};
        if row.status.Unfinished? {
          unfinished := unfinished + [row.name + ":" + row.architecture];
        } else if row.status.IsInstalled? {
          installed := installed[RowIdentity(row) := row.version];
        }
        rows := rows + [row];
      }
      i := i + 1;
    }
    assert lines[..i] == lines;
    r := Some((installed, unfinished));
  }

  lemma SeenNames(rows: seq<DpkgRow>, row: DpkgRow)
    ensures RowIdentity(row) in Map(RowIdentity, rows) <==> exists x :: x in rows && RowIdentity(x) == RowIdentity(row)
  {
    if x :| x in rows && RowIdentity(x) == RowIdentity(row) {
      var i :| 0 <= i < |rows| && rows[i] == x;
      assert Map(RowIdentity, rows)[i] == RowIdentity(row);
    }
  }

  // ---------------------------------------------------------------------------
  // The canonical reader
  // ---------------------------------------------------------------------------

  function KeptOf(row: DpkgRow): Option<DpkgRow>
  {
    if row.status.NotInstalled? then None else Some(row)
  }

  function Kept(rows: seq<DpkgRow>): seq<DpkgRow>
  {
    Collect(KeptOf, rows)
  }

  predicate Bounded(row: DpkgRow)
  {
    |row.name| <= MAX_NAME && |row.version| <= MAX_VERSION && (row.status.IsInstalled? ==> row.version != "")
  }

  type Pending = (Identity, string)

  function UnfinishedOf(row: DpkgRow): Option<Pending>
  {
    if row.status.Unfinished? then Some((RowIdentity(row), row.status.word)) else None
  }

  predicate UnfinishedPrecedes(a: Pending, b: Pending)
  {
    if a.0 == b.0 then Precedes(a.1, b.1) else PairPrecedes(a.0, b.0)
  }

  predicate CanonicalRowsOk(rows: seq<DpkgRow>)
  {
    && (forall row <- rows :: !row.status.Unknown?)
    && (forall row <- Kept(rows) :: Bounded(row)) && HelperRowsOk(Kept(rows))
  }

  predicate CanonicalAccepts(text: string)
  {
    Utf8Size(text) <= MAX_INVENTORY && Tabular(text) && CanonicalRowsOk(Rows(text))
  }

  lemma OneMoreKept(rows: seq<DpkgRow>, row: DpkgRow)
    ensures Kept(rows + [row]) == if row.status.NotInstalled? then Kept(rows) else Kept(rows) + [row]
  {
    CollectOneMore(KeptOf, rows, row);
  }

  lemma OneMoreCanonicalRow(rows: seq<DpkgRow>, row: DpkgRow)
    ensures CanonicalRowsOk(rows + [row]) <==>
            && CanonicalRowsOk(rows) && !row.status.Unknown?
            && (!row.status.NotInstalled? ==>
                  Bounded(row) && NamesBinary(row) && RowIdentity(row) !in Map(RowIdentity, Kept(rows)))
  {
    OneMoreKept(rows, row);
    var kept, more := Kept(rows), Kept(rows + [row]);
    assert (forall r <- rows + [row] :: !r.status.Unknown?) <==> (forall r <- rows :: !r.status.Unknown?) && !row.status.Unknown?;
    if !row.status.NotInstalled? {
      assert (forall r <- more :: Bounded(r)) <==> (forall r <- kept :: Bounded(r)) && Bounded(row);
      OneMoreRow(kept, row);
    }
  }

  lemma CanonicalRefusedForGood(lines: seq<string>, i: nat)
    requires i < |lines| && (!LineOk(lines[i]) || !CanonicalRowsOk(Collect(RowOf, lines[..i + 1])))
    ensures !(LinesOk(lines) && CanonicalRowsOk(Collect(RowOf, lines)))
  {
    if LineOk(lines[i]) {
      var a, b := Collect(RowOf, lines[..i + 1]), Collect(RowOf, lines[i + 1..]);
      CollectSplits(RowOf, lines[..i + 1], lines[i + 1..]);
      assert lines == lines[..i + 1] + lines[i + 1..];
      assert Collect(RowOf, lines) == a + b;
      CollectSplits(KeptOf, a, b);
      if CanonicalRowsOk(a + b) { PrefixOk(Kept(a), Kept(b)); }
    }
  }

  method ParseInstalledInventoryState(text: string) returns (r: Option<(map<Identity, string>, seq<Pending>)>)
    ensures r == if CanonicalAccepts(text)
                 then Some((Installed(Kept(Rows(text))), Sort(Collect(UnfinishedOf, Kept(Rows(text))), UnfinishedPrecedes)))
                 else None
  {
    if Utf8Size(text) > MAX_INVENTORY { return None; }
    var inventory: map<Identity, string> := map[];
    var unfinished: seq<Pending> := [];
    var seen: set<Identity> := {};
    var lines := SplitLines(text);
    ghost var rows: seq<DpkgRow> := [];
    var i := 0;
    while i < |lines|
      invariant 0 <= i <= |lines| && LinesOk(lines[..i])
      invariant rows == Collect(RowOf, lines[..i]) && CanonicalRowsOk(rows)
      invariant seen == Identities(Kept(rows))
      invariant inventory == Installed(Kept(rows)) && unfinished == Collect(UnfinishedOf, Kept(rows))
    {
      var line := lines[i];
      OneMoreLine(lines, i);
      if line != "" {
        var fields := Columns(line);
        if |fields| != 4 {
          CanonicalRefusedForGood(lines, i);
          return None;
        }
        var row := DpkgRow(fields[0], fields[1], fields[2], StatusOf(fields[3]));
        OneMoreCanonicalRow(rows, row);
        OneMoreKept(rows, row);
        var taken := TakeRow(row, seen, inventory, unfinished, Kept(rows));
        if taken == None {
          CanonicalRefusedForGood(lines, i);
          return None;
        }
        rows := rows + [row];
        seen, inventory, unfinished := taken.value.0, taken.value.1, taken.value.2;
      }
      i := i + 1;
    }
    assert lines[..i] == lines;
    r := Some((inventory, Sort(unfinished, UnfinishedPrecedes)));
  }

  /** The body of the line loop, past the column count. */
  method TakeRow(row: DpkgRow, seen: set<Identity>, inventory: map<Identity, string>, unfinished: seq<Pending>,
                 ghost kept: seq<DpkgRow>)
    returns (r: Option<(set<Identity>, map<Identity, string>, seq<Pending>)>)
    requires seen == Identities(kept)
    requires inventory == Installed(kept) && unfinished == Collect(UnfinishedOf, kept)
    ensures r.Some? <==>
            && !row.status.Unknown?
            && (!row.status.NotInstalled? ==>
                  Bounded(row) && NamesBinary(row) && RowIdentity(row) !in Map(RowIdentity, kept))
    ensures r.Some? ==> var more := if row.status.NotInstalled? then kept else kept + [row];
              && r.value.0 == Identities(more)
              && r.value.1 == Installed(more) && r.value.2 == Collect(UnfinishedOf, more)
  {
    OneMoreRow(kept, row);
    OneMoreInstalled(kept, row);
    CollectOneMore(UnfinishedOf, kept, row);
    SeenNames(kept, row);
    if row.status.Unknown? { return None; }
    if row.status.NotInstalled? { return Some((seen, inventory, unfinished)); }
    if !NamesBinary(row) || |row.name| > MAX_NAME || |row.version| > MAX_VERSION { return None; }
    var identity := RowIdentity(row);
    if identity in seen { return None; }
    if row.status.Unfinished? {
      return Some((seen + {identity}, inventory, unfinished + [(identity, row.status.word)]));
    }
    if !row.status.IsInstalled? { return Some((seen + {identity}, inventory, unfinished)); }
    if row.version == "" { return None; }
    r := Some((seen + {identity}, inventory[identity := row.version], unfinished));
  }

  // ---------------------------------------------------------------------------
  // Agreement
  // ---------------------------------------------------------------------------

  lemma KeptInstalledOnce(rows: seq<DpkgRow>, row: DpkgRow)
    requires Installed(Kept(rows)) == Installed(rows)
    ensures Installed(Kept(rows + [row])) == Installed(rows + [row])
  {
    calc {
      Installed(Kept(rows + [row]));
      { OneMoreKept(rows, row); OneMoreInstalled(Kept(rows), row); }
      if row.status.IsInstalled? then Installed(rows)[RowIdentity(row) := row.version] else Installed(rows);
      { OneMoreInstalled(rows, row); }
      Installed(rows + [row]);
    }
  }

  lemma {:induction false} KeptInstalled(rows: seq<DpkgRow>)
    ensures Installed(Kept(rows)) == Installed(rows)
  {
    if rows == [] {
      CollectEmpty(KeptOf);
    } else {
      var rest, last := rows[..|rows| - 1], rows[|rows| - 1];
      KeptInstalled(rest);
      calc {
        Installed(Kept(rows));
        { assert rows == rest + [last]; }
        Installed(Kept(rest + [last]));
        { KeptInstalledOnce(rest, last); }
        Installed(rest + [last]);
        { assert rows == rest + [last]; }
        Installed(rows);
      }
    }
  }

  function Qualified(u: Pending): string
  {
    u.0.0 + ":" + u.0.1
  }

  /**
   Whenever both readers accept the same text they return the same installed map and the same
   unfinished packages.
   */
  lemma ReadersAgree(text: string)
    requires HelperAccepts(text) && CanonicalAccepts(text)
    ensures Installed(Rows(text)) == Installed(Kept(Rows(text)))
    ensures var unfinished := Sort(Collect(UnfinishedOf, Kept(Rows(text))), UnfinishedPrecedes);
            (set name | name in Collect(UnfinishedName, Rows(text))) == (set u | u in unfinished :: Qualified(u))
  {
    KeptInstalled(Rows(text));
    var rows := Rows(text);
    var listed := Collect(UnfinishedOf, Kept(rows));
    var unfinished := Sort(listed, UnfinishedPrecedes);
    forall name ensures name in Collect(UnfinishedName, rows) <==> exists u :: u in unfinished && Qualified(u) == name {
      UnfinishedAgrees(rows, name);
      forall u ensures u in unfinished <==> u in listed { assert u in unfinished <==> u in multiset(unfinished); }
    }
  }

  lemma UnfinishedAgrees(rows: seq<DpkgRow>, name: string)
    ensures name in Collect(UnfinishedName, rows) <==>
            exists u :: u in Collect(UnfinishedOf, Kept(rows)) && Qualified(u) == name
  {
    CollectedFrom(UnfinishedName, rows, name);
    if name in Collect(UnfinishedName, rows) {
      var row :| row in rows && UnfinishedName(row) == Some(name);
      CollectedFrom(KeptOf, rows, row);
      CollectedFrom(UnfinishedOf, Kept(rows), UnfinishedOf(row).value);
      assert Qualified(UnfinishedOf(row).value) == name;
    }
    if u :| u in Collect(UnfinishedOf, Kept(rows)) && Qualified(u) == name {
      CollectedFrom(UnfinishedOf, Kept(rows), u);
      var row :| row in Kept(rows) && UnfinishedOf(row) == Some(u);
      CollectedFrom(KeptOf, rows, row);
      assert UnfinishedName(row) == Some(name);
    }
  }

  /** What the map means: exactly the installed rows, each at its own version. */
  lemma {:induction false} InstalledMeans(rows: seq<DpkgRow>, id: Identity, version: string)
    requires Distinct(Map(RowIdentity, rows))
    ensures id in Installed(rows) && Installed(rows)[id] == version <==>
            DpkgRow(id.0, id.1, version, IsInstalled) in rows
  {
    if rows != [] {
      var rest, last := rows[..|rows| - 1], rows[|rows| - 1];
      assert rows == rest + [last];
      DistinctNames(rest, last);
      InstalledMeans(rest, id, version);
      OneMoreInstalled(rest, last);
      SeenNames(rest, last);
      var row := DpkgRow(id.0, id.1, version, IsInstalled);
      assert RowIdentity(row) == id;
      assert row in rows <==> row in rest || row == last;
      if id == RowIdentity(last) { assert row !in rest; }
    }
  }

  /** The canonical reader's text is one the helper takes too, exactly when its not-installed rows are well-formed. */
  lemma HelperTakesCanonical(text: string)
    requires CanonicalAccepts(text)
    ensures HelperAccepts(text) <==>
            (forall row <- Rows(text) :: row.status.NotInstalled? ==> NamesBinary(row))
            && Distinct(Map(RowIdentity, Rows(text)))
  {
    forall row | row in Rows(text) && !row.status.NotInstalled? ensures NamesBinary(row) {
      CollectedFrom(KeptOf, Rows(text), row);
    }
  }

  /** And the other way round: the canonical reader is stricter in its bounds and its status words only. */
  lemma CanonicalTakesHelper(text: string)
    requires HelperAccepts(text)
    ensures CanonicalAccepts(text) <==>
            && Utf8Size(text) <= MAX_INVENTORY
            && forall row <- Rows(text) :: !row.status.Unknown? && (!row.status.NotInstalled? ==> Bounded(row))
  {
    var rows := Rows(text);
    forall row | row in Kept(rows) ensures row in rows && !row.status.NotInstalled? { CollectedFrom(KeptOf, rows, row); }
    forall row | row in rows && !row.status.NotInstalled? ensures row in Kept(rows) { CollectedFrom(KeptOf, rows, row); }
    KeptIsDistinct(rows);
  }

  lemma KeptNames(rows: seq<DpkgRow>, row: DpkgRow)
    requires RowIdentity(row) !in Map(RowIdentity, rows)
    ensures RowIdentity(row) !in Map(RowIdentity, Kept(rows))
  {
    SeenNames(rows, row);
    SeenNames(Kept(rows), row);
    forall x | x in Kept(rows) ensures x in rows { CollectedFrom(KeptOf, rows, x); }
  }

  lemma {:induction false} KeptIsDistinct(rows: seq<DpkgRow>)
    requires Distinct(Map(RowIdentity, rows))
    ensures Distinct(Map(RowIdentity, Kept(rows)))
  {
    if rows != [] {
      var rest, last := rows[..|rows| - 1], rows[|rows| - 1];
      assert rows == rest + [last];
      DistinctNames(rest, last);
      KeptIsDistinct(rest);
      KeptNames(rest, last);
      DistinctNames(Kept(rest), last);
      OneMoreKept(rest, last);
    }
  }
}
