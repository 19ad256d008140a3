/**
 The exact material plan, parsed from tokenised `apt-get -s upgrade` lines against dpkg's own
 inventory. The parser is three loops over sets, lists and a map; what it accepts is a plain
 statement about the lines, whatever their order.
 */
module AptPlan {
  import opened Wrappers
  import opened Text
  import opened Ordering
  import opened Packages

  /** The last bracket group of a candidate description is its architecture, if it has one at all. */
  datatype Description = NoArchitecture | Described(origin: Option<string>, architecture: string)

  datatype Line =
    | Removal                                   // `Remv ` or `Purg `
    | Inst(rawName: string, installed: string, candidate: string, description: Description)
    | MalformedInst
    | Conf(rawName: string, candidate: string, description: Description)
    | MalformedConf
    | BadCount                                  // unfinished dpkg state
    | Summary(upgraded: nat, newlyInstalled: nat, removed: nat, held: nat)
    | Other                                     // anything else, the empty line included

  datatype Package = Package(row: Row, origin: Option<string>, security: bool)

  datatype Change = Change(rawName: string, name: string, qualifier: Option<string>, architecture: string,
                           installed: string, candidate: string, origin: Option<string>)

  datatype Configure = Configure(rawName: string, candidate: string, architecture: string)

  type Inventory = map<Identity, string>

  const MAX_ORIGIN := 500

  /** The first colon separates the architecture qualifier. */
  function SplitQualified(rawName: string): (string, Option<string>)
  {
    var i := IndexOf(rawName, ':');
    if i == |rawName| then (rawName, None) else (rawName[..i], Some(rawName[i + 1..]))
  }

  function Bounded(origin: Option<string>): Option<string>
  {
    if origin.Some? && (origin.value == "" || |origin.value| > MAX_ORIGIN) then None else origin
  }

  predicate Agrees(rawName: string, description: Description)
  {
    && description.Described? && Architecture(description.architecture)
    && SplitQualified(rawName).1 in {None, Some(description.architecture)}
  }

  /** What can be refused by looking at one line. */
  predicate LineOk(line: Line)
  {
    match line
    case Inst(raw, _, _, description) => Agrees(raw, description)
    case Conf(raw, _, description) => Agrees(raw, description)
    case Summary(_, _, _, _) => true
    case Other => true
    case _ => false
  }

  function ChangeOf(line: Line): Option<Change>
  {
    if line.Inst? && line.description.Described? then
      var (name, qualifier) := SplitQualified(line.rawName);
      Some(Change(line.rawName, name, qualifier, line.description.architecture,
                  line.installed, line.candidate, Bounded(line.description.origin)))
    else None
  }

  function ConfigureOf(line: Line): Option<Configure>
  {
    if line.Conf? && line.description.Described?
    then Some(Configure(line.rawName, line.candidate, line.description.architecture)) else None
  }

  function SummaryOf(line: Line): Option<(nat, nat, nat)>
  {
    if line.Summary? then Some((line.upgraded, line.newlyInstalled, line.removed)) else None
  }

  function Changes(lines: seq<Line>): seq<Change> { Collect(ChangeOf, lines) }
  function Configures(lines: seq<Line>): seq<Configure> { Collect(ConfigureOf, lines) }
  function Summaries(lines: seq<Line>): seq<(nat, nat, nat)> { Collect(SummaryOf, lines) }

  function RawName(c: Change): string { c.rawName }
  function ConfiguredName(c: Configure): string { c.rawName }
  function IdentityOf(c: Change): Identity { (c.name, c.architecture) }

  // ---------------------------------------------------------------------------
  // What the parser accepts
  // ---------------------------------------------------------------------------

  predicate ScanOk(lines: seq<Line>)
  {
    && (forall line <- lines :: LineOk(line))
    && Distinct(Map(RawName, Changes(lines))) && Distinct(Map(ConfiguredName, Configures(lines)))
    && |Summaries(lines)| <= 1
  }

  predicate Unqualified(name: string, architecture: string, native: string, inventory: Inventory)
  {
    && architecture in {native, "all"}
    && (name, architecture) in inventory
    && !((name, native) in inventory && (name, "all") in inventory)
  }

  /** Exactly one installed row can be meant, and APT's line says of it what dpkg says. */
  predicate Resolves(c: Change, native: string, inventory: Inventory)
  {
    && (c.qualifier == None ==> Unqualified(c.name, c.architecture, native, inventory))
    && IdentityOf(c) in inventory && inventory[IdentityOf(c)] == c.installed
  }

  predicate BoundTo(k: Configure, changes: seq<Change>)
  {
    exists c <- changes :: c.rawName == k.rawName && c.candidate == k.candidate && c.architecture == k.architecture
  }

  predicate Accepts(lines: seq<Line>, native: string, inventory: Inventory)
  {
    && native != "all" && Architecture(native) && ScanOk(lines)
    && Summaries(lines) == [(|Changes(lines)|, 0, 0)]
    && (forall c <- Changes(lines) :: Resolves(c, native, inventory))
    && Distinct(Map(IdentityOf, Changes(lines)))
    && (forall k <- Configures(lines) :: BoundTo(k, Changes(lines)))
  }

  function PackageOf(security: string -> bool): Change -> Package
  {
    (c: Change) => Package(Row(c.name, c.architecture, c.installed, c.candidate), c.origin,
                           c.origin.Some? && security(c.origin.value))
  }

  predicate ByIdentity(p: Package, q: Package)
  {
    PairPrecedes((p.row.name, p.row.architecture), (q.row.name, q.row.architecture))
  }

  function Plan(lines: seq<Line>, native: string, inventory: Inventory, security: string -> bool): Option<seq<Package>>
  {
    if Accepts(lines, native, inventory)
    then Some(Sort(Map(PackageOf(security), Changes(lines)), ByIdentity)) else None
  }

  // ---------------------------------------------------------------------------
  // The parser
  // ---------------------------------------------------------------------------

  datatype Scan = Scan(changes: seq<Change>, configures: seq<Configure>, summary: Option<(nat, nat, nat)>)

  function SetOf<T(==)>(s: seq<T>): set<T>
  {
    set x | x in s
  }

  lemma OneMoreName<T>(name: T -> string, s: seq<T>, x: T)
    ensures SetOf(Map(name, s + [x])) == SetOf(Map(name, s)) + {name(x)}
  {
    MapSplits(name, s, [x]);
    assert Map(name, [x]) == [name(x)];
  }

  lemma OneMoreChangeLine(lines: seq<Line>, line: Line)
    ensures Changes(lines + [line]) == Changes(lines) + Yield(ChangeOf(line))
    ensures LineOk(line) ==> (Distinct(Map(RawName, Changes(lines + [line]))) <==>
              Distinct(Map(RawName, Changes(lines))) && (line.Inst? ==> line.rawName !in Map(RawName, Changes(lines))))
  {
    CollectOneMore(ChangeOf, lines, line);
    if LineOk(line) && line.Inst? {
      MapSplits(RawName, Changes(lines), Yield(ChangeOf(line)));
      assert Map(RawName, Yield(ChangeOf(line))) == [line.rawName];
      DistinctOneMore(Map(RawName, Changes(lines)), line.rawName);
    }
  }

  lemma OneMoreConfigureLine(lines: seq<Line>, line: Line)
    ensures Configures(lines + [line]) == Configures(lines) + Yield(ConfigureOf(line))
    ensures LineOk(line) ==> (Distinct(Map(ConfiguredName, Configures(lines + [line]))) <==>
              Distinct(Map(ConfiguredName, Configures(lines)))
              && (line.Conf? ==> line.rawName !in Map(ConfiguredName, Configures(lines))))
  {
    CollectOneMore(ConfigureOf, lines, line);
    if LineOk(line) && line.Conf? {
      MapSplits(ConfiguredName, Configures(lines), Yield(ConfigureOf(line)));
      assert Map(ConfiguredName, Yield(ConfigureOf(line))) == [line.rawName];
      DistinctOneMore(Map(ConfiguredName, Configures(lines)), line.rawName);
    }
  }

  lemma OneMoreLine(lines: seq<Line>, line: Line)
    ensures Changes(lines + [line]) == Changes(lines) + Yield(ChangeOf(line))
    ensures Configures(lines + [line]) == Configures(lines) + Yield(ConfigureOf(line))
    ensures Summaries(lines + [line]) == Summaries(lines) + Yield(SummaryOf(line))
    ensures ScanOk(lines + [line]) <==>
            && ScanOk(lines) && LineOk(line)
            && (line.Inst? ==> line.rawName !in Map(RawName, Changes(lines)))
            && (line.Conf? ==> line.rawName !in Map(ConfiguredName, Configures(lines)))
            && (line.Summary? ==> Summaries(lines) == [])
  {
    OneMoreChangeLine(lines, line);
    OneMoreConfigureLine(lines, line);
    CollectOneMore(SummaryOf, lines, line);
    assert (forall l <- lines + [line] :: LineOk(l)) <==> (forall l <- lines :: LineOk(l)) && LineOk(line);
    RawNamesOnly(lines, line);
  }

  /** A refused line aside, names already repeated stay repeated. */
  lemma RawNamesOnly(lines: seq<Line>, line: Line)
    ensures ScanOk(lines + [line]) ==> ScanOk(lines)
  {
    OneMoreChangeLine(lines, line);
    OneMoreConfigureLine(lines, line);
    CollectOneMore(SummaryOf, lines, line);
    if ScanOk(lines + [line]) {
      forall l | l in lines ensures LineOk(l) { assert l in lines + [line]; }
      assert line in lines + [line];
    }
  }

  lemma RejectedForGood(lines: seq<Line>, i: nat)
    requires i <= |lines| && !ScanOk(lines[..i])
    ensures !ScanOk(lines)
    decreases |lines| - i
  {
    if i < |lines| {
      OneMoreLine(lines[..i], lines[i]);
      assert lines[..i + 1] == lines[..i] + [lines[i]];
      RejectedForGood(lines, i + 1);
    } else {
      assert lines[..i] == lines;
    }
  }

  method ScanLines(lines: seq<Line>) returns (r: Option<Scan>)
    ensures r.Some? <==> ScanOk(lines)
    ensures r.Some? ==> r.value.changes == Changes(lines) && r.value.configures == Configures(lines)
    ensures r.Some? ==> Yield(r.value.summary) == Summaries(lines)
  {
    var instNames: set<string>, confNames: set<string> := {}, {};
    var scan := Scan([], [], None);
    var i := 0;
    while i < |lines|
      invariant 0 <= i <= |lines| && ScanOk(lines[..i])
      invariant scan.changes == Changes(lines[..i]) && scan.configures == Configures(lines[..i])
      invariant Yield(scan.summary) == Summaries(lines[..i])
      invariant instNames == SetOf(Map(RawName, scan.changes))
      invariant confNames == SetOf(Map(ConfiguredName, scan.configures))
    {
      var line := lines[i];
      OneMoreLine(lines[..i], line);
      assert lines[..i + 1] == lines[..i] + [line];
      var next := TakeLine(scan, line, instNames, confNames);
      if next == None {
        RejectedForGood(lines, i + 1);
        return None;
      }
      scan, instNames, confNames := next.value.0, next.value.1, next.value.2;
      i := i + 1;
    }
    assert lines[..i] == lines;
    r := Some(scan);
  }

  /** The body of the line loop. */
  method TakeLine(scan: Scan, line: Line, instNames: set<string>, confNames: set<string>)
    returns (r: Option<(Scan, set<string>, set<string>)>)
    requires instNames == SetOf(Map(RawName, scan.changes)) && confNames == SetOf(Map(ConfiguredName, scan.configures))
    ensures r.Some? <==>
            && LineOk(line)
            && (line.Inst? ==> line.rawName !in Map(RawName, scan.changes))
            && (line.Conf? ==> line.rawName !in Map(ConfiguredName, scan.configures))
            && (line.Summary? ==> scan.summary == None)
    ensures r.Some? ==>
            && r.value.0.changes == scan.changes + Yield(ChangeOf(line))
            && r.value.0.configures == scan.configures + Yield(ConfigureOf(line))
            && Yield(r.value.0.summary) == Yield(scan.summary) + Yield(SummaryOf(line))
            && r.value.1 == SetOf(Map(RawName, r.value.0.changes))
            && r.value.2 == SetOf(Map(ConfiguredName, r.value.0.configures))
  {
    match line {
      case Inst(raw, installed, candidate, description) =>
        if raw in instNames { return None; }
        if description.NoArchitecture? || !Architecture(description.architecture) { return None; }
        var (name, qualifier) := SplitQualified(raw);
        if qualifier.Some? && qualifier.value != description.architecture { return None; }
        var change := Change(raw, name, qualifier, description.architecture, installed, candidate,
                             Bounded(description.origin));
        OneMoreName(RawName, scan.changes, change);
        r := Some((scan.(changes := scan.changes + [change]), instNames + {raw}, confNames));
      case Conf(raw, candidate, description) =>
        if description.NoArchitecture? || !Architecture(description.architecture) { return None; }
        var (name, qualifier) := SplitQualified(raw);
        if qualifier.Some? && qualifier.value != description.architecture { return None; }
        if raw in confNames { return None; }
        var configure := Configure(raw, candidate, description.architecture);
        OneMoreName(ConfiguredName, scan.configures, configure);
        r := Some((scan.(configures := scan.configures + [configure]), instNames, confNames + {raw}));
      case Summary(upgraded, newlyInstalled, removed, _) =>
        if scan.summary.Some? { return None; }
        r := Some((scan.(summary := Some((upgraded, newlyInstalled, removed))), instNames, confNames));
      case Other =>
        r := Some((scan, instNames, confNames));
      case _ =>
        r := None;
    }
  }

  /** `None` unless exactly one of the architectures that can be meant is installed. */
  function ResolveInstalledArchitecture(name: string, qualifier: Option<string>, native: string, inventory: Inventory)
    : (r: Option<string>)
    requires native != "all"
    ensures forall a :: r == Some(a) <==>
              (name, a) in inventory
              && if qualifier.Some? then a == qualifier.value
                 else a in {native, "all"} && !((name, native) in inventory && (name, "all") in inventory)
  {
    var candidates := if qualifier.Some? then [qualifier.value] else [native, "all"];
    var matches := if |candidates| == 1
                   then if (name, candidates[0]) in inventory then candidates else []
                   else (if (name, native) in inventory then [native] else [])
                        + (if (name, "all") in inventory then ["all"] else []);
    if |matches| == 1 then Some(matches[0]) else None
  }

  lemma OneMoreChange(changes: seq<Change>, c: Change, security: string -> bool)
    ensures Map(PackageOf(security), changes + [c]) == Map(PackageOf(security), changes) + [PackageOf(security)(c)]
    ensures Map(IdentityOf, changes + [c]) == Map(IdentityOf, changes) + [IdentityOf(c)]
    ensures Distinct(Map(IdentityOf, changes + [c])) <==>
            Distinct(Map(IdentityOf, changes)) && IdentityOf(c) !in Map(IdentityOf, changes)
  {
    MapSplits(PackageOf(security), changes, [c]);
    MapSplits(IdentityOf, changes, [c]);
    DistinctOneMore(Map(IdentityOf, changes), IdentityOf(c));
  }

  predicate ChangesOk(changes: seq<Change>, native: string, inventory: Inventory)
  {
    (forall c <- changes :: Resolves(c, native, inventory)) && Distinct(Map(IdentityOf, changes))
  }

  lemma ChangesRejectedForGood(changes: seq<Change>, i: nat, native: string, inventory: Inventory)
    requires i <= |changes| && !ChangesOk(changes[..i], native, inventory)
    ensures !ChangesOk(changes, native, inventory)
  {
    var ids := Map(IdentityOf, changes);
    assert Map(IdentityOf, changes[..i]) == ids[..i];
    if Distinct(ids) {
      forall j, k | 0 <= j < k < i ensures ids[..i][j] != ids[..i][k] { assert ids[j] != ids[k]; }
    }
    if c :| c in changes[..i] && !Resolves(c, native, inventory) { assert c in changes; }
  }

  method ResolveChanges(changes: seq<Change>, native: string, inventory: Inventory, security: string -> bool)
    returns (r: Option<(seq<Package>, map<(string, string), string>)>)
    requires native != "all" && Distinct(Map(RawName, changes))
    requires forall c <- changes :: c.qualifier in {None, Some(c.architecture)}
    ensures r.Some? <==> ChangesOk(changes, native, inventory)
    ensures r.Some? ==> r.value.0 == Map(PackageOf(security), changes) && Approves(r.value.1, changes)
  {
    var packages: seq<Package>, identities: set<Identity> := [], {};
    var approved: map<(string, string), string> := map[];
    var i := 0;
    while i < |changes|
      invariant 0 <= i <= |changes| && ChangesOk(changes[..i], native, inventory)
      invariant packages == Map(PackageOf(security), changes[..i])
      invariant identities == SetOf(Map(IdentityOf, changes[..i]))
      invariant Approves(approved, changes[..i])
    {
      var c := changes[i];
      assert changes[..i + 1] == changes[..i] + [c];
      OneMoreChange(changes[..i], c, security);
      var architecture := ResolveInstalledArchitecture(c.name, c.qualifier, native, inventory);
      if || architecture == None || inventory[(c.name, architecture.value)] != c.installed
         || architecture.value != c.architecture || (c.name, architecture.value) in identities
      {
        assert !ChangesOk(changes[..i + 1], native, inventory) by { assert c in changes[..i + 1]; }
        ChangesRejectedForGood(changes, i + 1, native, inventory);
        return None;
      }
      ApprovesOneMore(approved, changes, i);
      identities := identities + {(c.name, architecture.value)};
      approved := approved[(c.rawName, c.candidate) := architecture.value];
      packages := packages + [Package(Row(c.name, architecture.value, c.installed, c.candidate), c.origin,
                                      c.origin.Some? && security(c.origin.value))];
      i := i + 1;
    }
    assert changes[..i] == changes;
    r := Some((packages, approved));
  }

  /** The map of the approved (raw name, candidate) pairs to their architectures. */
  predicate Approves(approved: map<(string, string), string>, changes: seq<Change>)
  {
    && (forall c <- changes :: (c.rawName, c.candidate) in approved)
    && (forall key <- approved :: exists c <- changes ::
          key == (c.rawName, c.candidate) && approved[key] == c.architecture)
  }

  lemma ApprovesOneMore(approved: map<(string, string), string>, changes: seq<Change>, i: nat)
    requires i < |changes| && Approves(approved, changes[..i]) && Distinct(Map(RawName, changes))
    ensures var c := changes[i]; Approves(approved[(c.rawName, c.candidate) := c.architecture], changes[..i + 1])
  {
    var c := changes[i];
    var more := approved[(c.rawName, c.candidate) := c.architecture];
    assert changes[..i + 1] == changes[..i] + [c];
    forall key | key in more
      ensures exists d <- changes[..i + 1] :: key == (d.rawName, d.candidate) && more[key] == d.architecture
    {
      if key == (c.rawName, c.candidate) {
        assert c in changes[..i + 1];
      } else {
        var d :| d in changes[..i] && key == (d.rawName, d.candidate) && approved[key] == d.architecture;
        assert d in changes[..i + 1];
      }
    }
  }

  method CheckConfigures(configures: seq<Configure>, approved: map<(string, string), string>, ghost changes: seq<Change>)
    returns (ok: bool)
    requires Approves(approved, changes) && Distinct(Map(RawName, changes))
    ensures ok <==> forall k <- configures :: BoundTo(k, changes)
  {
    var i := 0;
    while i < |configures|
      invariant 0 <= i <= |configures| && forall k <- configures[..i] :: BoundTo(k, changes)
    {
      var k := configures[i];
      ApprovedIsBound(k, approved, changes);
      if (k.rawName, k.candidate) !in approved { return false; }
      if k.architecture != approved[(k.rawName, k.candidate)] { return false; }
      i := i + 1;
    }
    ok := true;
  }

  /** Raw names are distinct, so the map has one answer for each configure action. */
  lemma ApprovedIsBound(k: Configure, approved: map<(string, string), string>, changes: seq<Change>)
    requires Approves(approved, changes) && Distinct(Map(RawName, changes))
    ensures BoundTo(k, changes) <==>
            (k.rawName, k.candidate) in approved && approved[(k.rawName, k.candidate)] == k.architecture
  {
    var key := (k.rawName, k.candidate);
    if key in approved {
      var d :| d in changes && key == (d.rawName, d.candidate) && approved[key] == d.architecture;
      if BoundTo(k, changes) {
        var c :| c in changes && c.rawName == k.rawName && c.candidate == k.candidate && c.architecture == k.architecture;
        SameRawName(changes, c, d);
      }
    }
  }

  lemma SameRawName(changes: seq<Change>, c: Change, d: Change)
    requires c in changes && d in changes && c.rawName == d.rawName && Distinct(Map(RawName, changes))
    ensures c == d
  {
    var i :| 0 <= i < |changes| && changes[i] == c;
    var j :| 0 <= j < |changes| && changes[j] == d;
    assert Map(RawName, changes)[i] == Map(RawName, changes)[j];
  }

  lemma ChangesAgree(lines: seq<Line>)
    requires ScanOk(lines)
    ensures forall c <- Changes(lines) :: c.qualifier in {None, Some(c.architecture)}
  {
    forall c | c in Changes(lines) ensures c.qualifier in {None, Some(c.architecture)} {
      CollectedFrom(ChangeOf, lines, c);
      var line :| line in lines && ChangeOf(line) == Some(c);
      assert LineOk(line);
    }
  }

  method ParseAptSimulation(lines: seq<Line>, native: string, inventory: Inventory, security: string -> bool)
    returns (r: Option<seq<Package>>)
    ensures r == Plan(lines, native, inventory, security)
  {
    if native == "all" || !Architecture(native) { return None; }
    var scan := ScanLines(lines);
    if scan == None || scan.value.summary == None { return None; }
    var (upgraded, newlyInstalled, removed) := scan.value.summary.value;
    if newlyInstalled != 0 || removed != 0 { return None; }
    if upgraded != |scan.value.changes| { return None; }
    ChangesAgree(lines);
    var resolved := ResolveChanges(scan.value.changes, native, inventory, security);
    if resolved == None { return None; }
    var bound := CheckConfigures(scan.value.configures, resolved.value.1, scan.value.changes);
    if !bound { return None; }
    r := Some(Sort(resolved.value.0, ByIdentity));
  }

  // ---------------------------------------------------------------------------
  // What acceptance means
  // ---------------------------------------------------------------------------

  function PackageIdentity(p: Package): Identity { (p.row.name, p.row.architecture) }

  lemma ByIdentityOrders(packages: seq<Package>)
    requires Distinct(Map(PackageIdentity, packages))
    ensures TotalPreorder(ByIdentity) && Separates(ByIdentity, packages)
  {
    forall p, q, r
      ensures ByIdentity(p, q) || ByIdentity(q, p)
      ensures ByIdentity(p, q) && ByIdentity(q, r) ==> ByIdentity(p, r)
    {
      PairPrecedesTotally(PackageIdentity(p), PackageIdentity(q), PackageIdentity(r));
    }
    forall p, q | p in packages && q in packages && ByIdentity(p, q) && ByIdentity(q, p) ensures p == q {
      PairPrecedesTotally(PackageIdentity(p), PackageIdentity(q), PackageIdentity(p));
      SameIdentity(packages, p, q);
    }
  }

  lemma SameIdentity(packages: seq<Package>, p: Package, q: Package)
    requires p in packages && q in packages && PackageIdentity(p) == PackageIdentity(q)
    requires Distinct(Map(PackageIdentity, packages))
    ensures p == q
  {
    var i :| 0 <= i < |packages| && packages[i] == p;
    var j :| 0 <= j < |packages| && packages[j] == q;
    assert Map(PackageIdentity, packages)[i] == Map(PackageIdentity, packages)[j];
  }

  lemma IdentitiesOfChanges(changes: seq<Change>, security: string -> bool)
    ensures Map(PackageIdentity, Map(PackageOf(security), changes)) == Map(IdentityOf, changes)
  {
  }

  /** The row an accepted Inst line stands for. */
  ghost predicate FromLine(p: Package, lines: seq<Line>, security: string -> bool)
  {
    exists line <- lines :: line.Inst? && ChangeOf(line).Some? && PackageOf(security)(ChangeOf(line).value) == p
  }

  predicate Names(line: Line, p: Package)
    requires line.Conf?
  {
    && p.row.name == SplitQualified(line.rawName).0 && p.row.candidate == line.candidate
    && line.description.Described? && line.description.architecture == p.row.architecture
  }

  /** A configure line names one row, at its own version and architecture, and no other. */
  predicate BoundOnce(line: Line, plan: seq<Package>)
    requires line.Conf?
  {
    exists p <- plan :: Names(line, p) && forall q <- plan :: Names(line, q) ==> q == p
  }

  /**
   Every accepted plan is sound: sorted and duplicate-free; each row is one Inst line's, with the
   installed version and architecture dpkg itself reports; nothing is removed; every configure
   action is bound to exactly one row at its version and architecture; APT's count is the plan's.
   */
  lemma AcceptedPlanIsSound(lines: seq<Line>, native: string, inventory: Inventory, security: string -> bool, plan: seq<Package>)
    requires Plan(lines, native, inventory, security) == Some(plan)
    ensures Sorted(plan, ByIdentity) && Distinct(Map(PackageIdentity, plan))
    ensures forall p <- plan :: PackageIdentity(p) in inventory && inventory[PackageIdentity(p)] == p.row.installed
                                && Architecture(p.row.architecture) && FromLine(p, lines, security)
    ensures forall line <- lines :: !line.Removal? && !line.BadCount?
    ensures forall line <- lines :: line.Summary? ==> line.upgraded == |plan| && line.newlyInstalled == 0 && line.removed == 0
    ensures exists line <- lines :: line.Summary?
    ensures forall line <- lines :: line.Conf? ==> BoundOnce(line, plan)
  {
    var changes := Changes(lines);
    var packages := Map(PackageOf(security), changes);
    IdentitiesOfChanges(changes, security);
    ByIdentityOrders(packages);
    SortSorts(packages, ByIdentity);
    SortedIsDistinct(packages, plan);
    forall p | p in plan
      ensures PackageIdentity(p) in inventory && inventory[PackageIdentity(p)] == p.row.installed
      ensures Architecture(p.row.architecture) && FromLine(p, lines, security)
    {
      RowCameFromLine(lines, security, p);
      var line :| line in lines && line.Inst? && ChangeOf(line).Some? && PackageOf(security)(ChangeOf(line).value) == p;
      CollectedFrom(ChangeOf, lines, ChangeOf(line).value);
      assert LineOk(line) && Resolves(ChangeOf(line).value, native, inventory);
    }
    forall line | line in lines && line.Summary?
      ensures line.upgraded == |plan| && line.newlyInstalled == 0 && line.removed == 0
    {
      CollectedFrom(SummaryOf, lines, SummaryOf(line).value);
    }
    CollectedFrom(SummaryOf, lines, Summaries(lines)[0]);
    forall line | line in lines && line.Conf?
      ensures BoundOnce(line, plan)
    {
      ConfigureIsBound(lines, native, inventory, security, plan, line);
    }
  }

  lemma SortedIsDistinct(packages: seq<Package>, plan: seq<Package>)
    requires Distinct(Map(PackageIdentity, packages)) && multiset(plan) == multiset(packages)
    ensures Distinct(Map(PackageIdentity, plan))
  {
    DistinctKeepsRearrangement(PackageIdentity, packages, plan);
  }

  lemma RowCameFromLine(lines: seq<Line>, security: string -> bool, p: Package)
    requires p in Sort(Map(PackageOf(security), Changes(lines)), ByIdentity)
    ensures FromLine(p, lines, security)
  {
    var packages := Map(PackageOf(security), Changes(lines));
    assert p in multiset(Sort(packages, ByIdentity)) && p in multiset(packages);
    var i :| 0 <= i < |packages| && packages[i] == p;
    var c := Changes(lines)[i];
    CollectedFrom(ChangeOf, lines, c);
    var line :| line in lines && ChangeOf(line) == Some(c);
    assert line.Inst?;
  }

  lemma ConfiguredChange(lines: seq<Line>, native: string, inventory: Inventory, line: Line) returns (c: Change)
    requires Accepts(lines, native, inventory) && line in lines && line.Conf?
    ensures line.description.Described?
    ensures c in Changes(lines) && c.rawName == line.rawName && c.candidate == line.candidate
    ensures c.architecture == line.description.architecture && c.name == SplitQualified(line.rawName).0
  {
    assert LineOk(line);
    var k := ConfigureOf(line).value;
    CollectedFrom(ConfigureOf, lines, k);
    assert BoundTo(k, Changes(lines));
    c :| c in Changes(lines) && c.rawName == k.rawName && c.candidate == k.candidate && c.architecture == k.architecture;
    CollectedFrom(ChangeOf, lines, c);
    var inst :| inst in lines && ChangeOf(inst) == Some(c);
  }

  lemma PlannedChange(lines: seq<Line>, native: string, inventory: Inventory, security: string -> bool, plan: seq<Package>, c: Change)
    requires Plan(lines, native, inventory, security) == Some(plan) && c in Changes(lines)
    ensures PackageOf(security)(c) in plan
  {
    var packages := Map(PackageOf(security), Changes(lines));
    var i :| 0 <= i < |Changes(lines)| && Changes(lines)[i] == c;
    assert packages[i] in multiset(packages) && packages[i] in multiset(plan);
  }

  lemma ConfigureIsBound(lines: seq<Line>, native: string, inventory: Inventory, security: string -> bool, plan: seq<Package>, line: Line)
    requires Plan(lines, native, inventory, security) == Some(plan) && line in lines && line.Conf?
    requires Distinct(Map(PackageIdentity, plan))
    ensures BoundOnce(line, plan)
  {
    var c := ConfiguredChange(lines, native, inventory, line);
    PlannedChange(lines, native, inventory, security, plan, c);
    var p := PackageOf(security)(c);
    assert Names(line, p);
    forall q | q in plan && Names(line, q) ensures q == p { SameIdentity(plan, p, q); }
  }

  // ---------------------------------------------------------------------------
  // The order of the lines does not matter
  // ---------------------------------------------------------------------------

  lemma AcceptanceIgnoresOrder(lines: seq<Line>, lines': seq<Line>, native: string, inventory: Inventory)
    requires multiset(lines) == multiset(lines') && Accepts(lines, native, inventory)
    ensures Accepts(lines', native, inventory)
  {
    CollectKeepsRearrangement(ChangeOf, lines, lines');
    CollectKeepsRearrangement(ConfigureOf, lines, lines');
    CollectKeepsRearrangement(SummaryOf, lines, lines');
    DistinctKeepsRearrangement(RawName, Changes(lines), Changes(lines'));
    DistinctKeepsRearrangement(ConfiguredName, Configures(lines), Configures(lines'));
    DistinctKeepsRearrangement(IdentityOf, Changes(lines), Changes(lines'));
    SameElements(lines, lines');
    SameElements(Changes(lines), Changes(lines'));
    SameElements(Configures(lines), Configures(lines'));
    SingletonKept(Summaries(lines), Summaries(lines'));
    forall k | k in Configures(lines') ensures BoundTo(k, Changes(lines')) {
      assert BoundTo(k, Changes(lines));
    }
  }

  lemma SameElements<T>(a: seq<T>, b: seq<T>)
    requires multiset(a) == multiset(b)
    ensures |a| == |b| && forall x :: x in a <==> x in b
  {
    assert |multiset(a)| == |a| && |multiset(b)| == |b|;
    forall x ensures x in a <==> x in b {
      assert x in a <==> x in multiset(a);
      assert x in b <==> x in multiset(b);
    }
  }

  lemma SingletonKept<T>(a: seq<T>, b: seq<T>)
    requires multiset(a) == multiset(b) && |a| == 1
    ensures a == b
  {
    SameElements(a, b);
    assert b[0] in b && b[0] in a;
  }

  /** Rearranging the lines changes neither the verdict nor the plan. */
  lemma PlanIgnoresOrder(lines: seq<Line>, lines': seq<Line>, native: string, inventory: Inventory, security: string -> bool)
    requires multiset(lines) == multiset(lines')
    ensures Plan(lines, native, inventory, security) == Plan(lines', native, inventory, security)
  {
    if Accepts(lines, native, inventory) {
      AcceptanceIgnoresOrder(lines, lines', native, inventory);
      CollectKeepsRearrangement(ChangeOf, lines, lines');
      MapKeepsRearrangement(PackageOf(security), Changes(lines), Changes(lines'));
      IdentitiesOfChanges(Changes(lines), security);
      ByIdentityOrders(Map(PackageOf(security), Changes(lines)));
      SortedEquality(Map(PackageOf(security), Changes(lines)), Map(PackageOf(security), Changes(lines')), ByIdentity);
    } else if Accepts(lines', native, inventory) {
      AcceptanceIgnoresOrder(lines', lines, native, inventory);
    }
  }

  // ---------------------------------------------------------------------------
  // Round trip
  // ---------------------------------------------------------------------------

  /** A plan the guest's own dpkg state supports. */
  predicate Supported(p: Package, native: string, inventory: Inventory, security: string -> bool)
  {
    && ':' !in p.row.name && Architecture(p.row.architecture)
    && PackageIdentity(p) in inventory && inventory[PackageIdentity(p)] == p.row.installed
    && (p.row.architecture in {native, "all"} ==> Unqualified(p.row.name, p.row.architecture, native, inventory))
    && Bounded(p.origin) == p.origin
    && p.security == (p.origin.Some? && security(p.origin.value))
  }

  predicate Consistent(plan: seq<Package>, native: string, inventory: Inventory, security: string -> bool)
  {
    && native != "all" && Architecture(native)
    && Distinct(Map(PackageIdentity, plan))
    && forall p <- plan :: Supported(p, native, inventory, security)
  }

  /** APT qualifies the name of a foreign-architecture package only. */
  function Printed(p: Package, native: string): string
  {
    if p.row.architecture in {native, "all"} then p.row.name else p.row.name + ":" + p.row.architecture
  }

  function InstLine(native: string): Package -> Line
  {
    (p: Package) => Inst(Printed(p, native), p.row.installed, p.row.candidate, Described(p.origin, p.row.architecture))
  }

  function ConfLine(native: string): Package -> Line
  {
    (p: Package) => Conf(Printed(p, native), p.row.candidate, Described(p.origin, p.row.architecture))
  }

  function Print(plan: seq<Package>, configured: seq<Package>, native: string, held: nat, noise: seq<Line>): seq<Line>
  {
    Map(InstLine(native), plan) + Map(ConfLine(native), configured) + [Summary(|plan|, 0, 0, held)] + noise
  }

  function PrintedChange(native: string): Package -> Change
  {
    (p: Package) =>
      Change(Printed(p, native), p.row.name, if p.row.architecture in {native, "all"} then None else Some(p.row.architecture),
             p.row.architecture, p.row.installed, p.row.candidate, p.origin)
  }

  function PrintedConfigure(native: string): Package -> Configure
  {
    (p: Package) => Configure(Printed(p, native), p.row.candidate, p.row.architecture)
  }

  lemma PrintedSplits(p: Package, native: string)
    requires ':' !in p.row.name
    ensures SplitQualified(Printed(p, native))
            == (p.row.name, if p.row.architecture in {native, "all"} then None else Some(p.row.architecture))
  {
    var raw := Printed(p, native);
    if p.row.architecture in {native, "all"} {
      assert IndexOf(raw, ':') == |raw|;
    } else {
      assert raw == p.row.name + [':'] + p.row.architecture;
      IndexOfFirst(p.row.name, ':', p.row.architecture);
      assert raw[..|p.row.name|] == p.row.name && raw[|p.row.name| + 1..] == p.row.architecture;
    }
  }

  lemma CollectPrinted<U>(f: Line -> Option<U>, plan: seq<Package>, configured: seq<Package>, native: string, held: nat, noise: seq<Line>)
    ensures Collect(f, Print(plan, configured, native, held, noise))
            == Collect(f, Map(InstLine(native), plan)) + Collect(f, Map(ConfLine(native), configured))
               + Yield(f(Summary(|plan|, 0, 0, held))) + Collect(f, noise)
  {
    var a, b, x := Map(InstLine(native), plan), Map(ConfLine(native), configured), Summary(|plan|, 0, 0, held);
    CollectAround(f, a + b, x, noise);
    CollectSplits(f, a, b);
  }

  lemma PrintedLines(p: Package, native: string, inventory: Inventory, security: string -> bool)
    requires native != "all" && Supported(p, native, inventory, security)
    ensures ChangeOf(InstLine(native)(p)) == Some(PrintedChange(native)(p)) && LineOk(InstLine(native)(p))
    ensures ConfigureOf(ConfLine(native)(p)) == Some(PrintedConfigure(native)(p)) && LineOk(ConfLine(native)(p))
  {
    PrintedSplits(p, native);
  }

  lemma PrintedChanges(plan: seq<Package>, configured: seq<Package>, native: string, inventory: Inventory,
                       security: string -> bool, held: nat, noise: seq<Line>)
    requires native != "all" && (forall p <- plan :: Supported(p, native, inventory, security))
    requires forall line <- noise :: line.Other?
    ensures Changes(Print(plan, configured, native, held, noise)) == Map(PrintedChange(native), plan)
  {
    forall p | p in plan ensures ChangeOf(InstLine(native)(p)) == Some(PrintedChange(native)(p)) {
      PrintedLines(p, native, inventory, security);
    }
    CollectPrinted(ChangeOf, plan, configured, native, held, noise);
    CollectMap(ChangeOf, InstLine(native), PrintedChange(native), plan);
    CollectNothing(ChangeOf, Map(ConfLine(native), configured));
    CollectNothing(ChangeOf, noise);
  }

  lemma PrintedConfigures(plan: seq<Package>, configured: seq<Package>, native: string, held: nat, noise: seq<Line>)
    requires forall line <- noise :: line.Other?
    ensures Configures(Print(plan, configured, native, held, noise)) == Map(PrintedConfigure(native), configured)
  {
    CollectPrinted(ConfigureOf, plan, configured, native, held, noise);
    CollectMap(ConfigureOf, ConfLine(native), PrintedConfigure(native), configured);
    CollectNothing(ConfigureOf, Map(InstLine(native), plan));
    CollectNothing(ConfigureOf, noise);
  }

  lemma PrintedSummary(plan: seq<Package>, configured: seq<Package>, native: string, held: nat, noise: seq<Line>)
    requires forall line <- noise :: line.Other?
    ensures Summaries(Print(plan, configured, native, held, noise)) == [(|plan|, 0, 0)]
  {
    CollectPrinted(SummaryOf, plan, configured, native, held, noise);
    CollectNothing(SummaryOf, Map(InstLine(native), plan));
    CollectNothing(SummaryOf, Map(ConfLine(native), configured));
    CollectNothing(SummaryOf, noise);
  }

  /** Two supported packages print alike only if they are the same installed package. */
  lemma PrintedIsInjective(p: Package, q: Package, native: string, inventory: Inventory, security: string -> bool)
    requires Supported(p, native, inventory, security) && Supported(q, native, inventory, security)
    requires Printed(p, native) == Printed(q, native)
    ensures PackageIdentity(p) == PackageIdentity(q)
  {
    PrintedSplits(p, native);
    PrintedSplits(q, native);
  }

  lemma PrintedNamesDistinct(plan: seq<Package>, native: string, inventory: Inventory, security: string -> bool)
    requires Distinct(Map(PackageIdentity, plan)) && forall p <- plan :: Supported(p, native, inventory, security)
    ensures Distinct(Map(RawName, Map(PrintedChange(native), plan)))
    ensures Distinct(Map(ConfiguredName, Map(PrintedConfigure(native), plan)))
  {
    var names := Map((p: Package) => Printed(p, native), plan);
    forall i, j | 0 <= i < j < |plan| ensures names[i] != names[j] {
      assert Map(PackageIdentity, plan)[i] != Map(PackageIdentity, plan)[j];
      if names[i] == names[j] { PrintedIsInjective(plan[i], plan[j], native, inventory, security); }
    }
    assert Map(RawName, Map(PrintedChange(native), plan)) == names;
    assert Map(ConfiguredName, Map(PrintedConfigure(native), plan)) == names;
  }

  lemma PrintedResolves(p: Package, native: string, inventory: Inventory, security: string -> bool)
    requires native != "all" && Supported(p, native, inventory, security)
    ensures var c := PrintedChange(native)(p);
            Resolves(c, native, inventory) && IdentityOf(c) == PackageIdentity(p) && PackageOf(security)(c) == p
  {
  }

  lemma PrintedLinesOk(plan: seq<Package>, configured: seq<Package>, native: string, inventory: Inventory,
                       security: string -> bool, held: nat, noise: seq<Line>)
    requires native != "all" && (forall p <- plan :: Supported(p, native, inventory, security))
    requires (forall line <- noise :: line.Other?) && forall p <- configured :: p in plan
    ensures forall line <- Print(plan, configured, native, held, noise) :: LineOk(line)
  {
    forall p | p in plan ensures LineOk(InstLine(native)(p)) && LineOk(ConfLine(native)(p)) {
      PrintedLines(p, native, inventory, security);
    }
  }

  lemma PrintedPlan(plan: seq<Package>, native: string, inventory: Inventory, security: string -> bool)
    requires Consistent(plan, native, inventory, security)
    ensures var changes := Map(PrintedChange(native), plan);
            && (forall c <- changes :: Resolves(c, native, inventory))
            && Map(IdentityOf, changes) == Map(PackageIdentity, plan) && Map(PackageOf(security), changes) == plan
  {
    forall p | p in plan
      ensures var c := PrintedChange(native)(p);
              Resolves(c, native, inventory) && IdentityOf(c) == PackageIdentity(p) && PackageOf(security)(c) == p
    {
      PrintedResolves(p, native, inventory, security);
    }
  }

  lemma PrintedBound(plan: seq<Package>, configured: seq<Package>, native: string)
    requires forall p <- configured :: p in plan
    ensures forall k <- Map(PrintedConfigure(native), configured) :: BoundTo(k, Map(PrintedChange(native), plan))
  {
    var changes := Map(PrintedChange(native), plan);
    forall k | k in Map(PrintedConfigure(native), configured) ensures BoundTo(k, changes) {
      var j :| 0 <= j < |configured| && k == PrintedConfigure(native)(configured[j]);
      assert configured[j] in plan;
      var i :| 0 <= i < |plan| && plan[i] == configured[j];
      assert changes[i] in changes;
    }
  }

  lemma PrintedIsAccepted(plan: seq<Package>, configured: seq<Package>, native: string, inventory: Inventory,
                          security: string -> bool, held: nat, noise: seq<Line>)
    requires Consistent(plan, native, inventory, security) && (forall line <- noise :: line.Other?)
    requires Distinct(Map(PackageIdentity, configured)) && forall p <- configured :: p in plan
    ensures Accepts(Print(plan, configured, native, held, noise), native, inventory)
    ensures Map(PackageOf(security), Changes(Print(plan, configured, native, held, noise))) == plan
  {
    PrintedChanges(plan, configured, native, inventory, security, held, noise);
    PrintedConfigures(plan, configured, native, held, noise);
    PrintedSummary(plan, configured, native, held, noise);
    PrintedLinesOk(plan, configured, native, inventory, security, held, noise);
    PrintedNamesDistinct(plan, native, inventory, security);
    PrintedNamesDistinct(configured, native, inventory, security);
    PrintedPlan(plan, native, inventory, security);
    PrintedBound(plan, configured, native);
  }

  /**
   Printing a supported plan as Inst lines, any of its packages also as Conf lines, and the
   summary, in any order and among any other lines, parses back to exactly that plan, sorted.
   */
  lemma RoundTrip(lines: seq<Line>, plan: seq<Package>, configured: seq<Package>, native: string, inventory: Inventory,
                  security: string -> bool, held: nat, noise: seq<Line>)
    requires Consistent(plan, native, inventory, security) && (forall line <- noise :: line.Other?)
    requires Distinct(Map(PackageIdentity, configured)) && forall p <- configured :: p in plan
    requires multiset(lines) == multiset(Print(plan, configured, native, held, noise))
    ensures Plan(lines, native, inventory, security) == Some(Sort(plan, ByIdentity))
  {
    PrintedIsAccepted(plan, configured, native, inventory, security, held, noise);
    PlanIgnoresOrder(lines, Print(plan, configured, native, held, noise), native, inventory, security);
  }
}
