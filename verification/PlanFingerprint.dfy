/**
 The canonical text whose digest binds a plan: compact ASCII JSON of the rows, sorted by identity.
 */
module PlanFingerprint {
  import opened JsonText
  import opened Ordering
  import opened Packages

  lemma QuoteUnfolds(s: string, x: string)
    ensures (Quote(s) + x)[1..] == EscapeAll(s) + "\"" + x
  {
  }

  lemma QuoteSplits(s: string, t: string, x: string, y: string)
    requires Quote(s) + x == Quote(t) + y
    ensures s == t && x == y
  {
    QuoteUnfolds(s, x);
    QuoteUnfolds(t, y);
    StringReadsBack(s, x);
    StringReadsBack(t, y);
  }

  // ---------------------------------------------------------------------------
  // Rows and plans
  // ---------------------------------------------------------------------------

  /** Keys in order, no spaces. */
  function ObjectText(row: Row): string
  {
    "{\"architecture\":" + Quote(row.architecture)
    + (",\"candidate_version\":" + Quote(row.candidate)
       + (",\"installed_version\":" + Quote(row.installed)
          + (",\"package_name\":" + Quote(row.name) + "}")))
  }

  function ArrayTail<T>(text: T -> string, items: seq<T>): string
  {
    if items == [] then "]"
    else if |items| == 1 then text(items[0]) + "]"
    else text(items[0]) + "," + ArrayTail(text, items[1..])
  }

  predicate ByIdentity(a: Row, b: Row)
  {
    PairPrecedes((a.name, a.architecture), (b.name, b.architecture))
  }

  /** What is digested. */
  function PlanText(rows: seq<Row>): string
  {
    "[" + ArrayTail(ObjectText, Sort(rows, ByIdentity))
  }

  lemma PrefixCancels(p: string, x: string, y: string)
    requires p + x == p + y
    ensures x == y
  {
    assert (p + x)[|p|..] == x && (p + y)[|p|..] == y;
  }

  lemma FieldSplits(key: string, s: string, t: string, x: string, y: string)
    requires key + Quote(s) + x == key + Quote(t) + y
    ensures s == t && x == y
  {
    assert key + Quote(s) + x == key + (Quote(s) + x) && key + Quote(t) + y == key + (Quote(t) + y);
    PrefixCancels(key, Quote(s) + x, Quote(t) + y);
    QuoteSplits(s, t, x, y);
  }

  function AfterArchitecture(row: Row, x: string): string
  {
    ",\"candidate_version\":" + Quote(row.candidate) + AfterCandidate(row, x)
  }

  function AfterCandidate(row: Row, x: string): string
  {
    ",\"installed_version\":" + Quote(row.installed) + AfterInstalled(row, x)
  }

  function AfterInstalled(row: Row, x: string): string
  {
    ",\"package_name\":" + Quote(row.name) + ("}" + x)
  }

  lemma ObjectUnfolds(row: Row, x: string)
    ensures ObjectText(row) + x == "{\"architecture\":" + Quote(row.architecture) + AfterArchitecture(row, x)
  {
  }

  lemma ObjectSplits(r: Row, s: Row, x: string, y: string)
    requires ObjectText(r) + x == ObjectText(s) + y
    ensures r == s && x == y
  {
    ObjectUnfolds(r, x);
    ObjectUnfolds(s, y);
    FieldSplits("{\"architecture\":", r.architecture, s.architecture, AfterArchitecture(r, x), AfterArchitecture(s, y));
    FieldSplits(",\"candidate_version\":", r.candidate, s.candidate, AfterCandidate(r, x), AfterCandidate(s, y));
    FieldSplits(",\"installed_version\":", r.installed, s.installed, AfterInstalled(r, x), AfterInstalled(s, y));
    FieldSplits(",\"package_name\":", r.name, s.name, "}" + x, "}" + y);
    PrefixCancels("}", x, y);
  }

  /** No item's text is a prefix of another's, and none starts like the end of the array. */
  ghost predicate Delimits<T(!new)>(text: T -> string)
  {
    && (forall t :: text(t) != "" && text(t)[0] == '{')
    && (forall s, t, x, y :: text(s) + x == text(t) + y ==> s == t && x == y)
  }

  /** What follows the first item. */
  function AfterFirst<T>(text: T -> string, items: seq<T>): string
    requires items != []
  {
    if |items| == 1 then "]" else "," + ArrayTail(text, items[1..])
  }

  lemma TailUnfolds<T>(text: T -> string, items: seq<T>)
    requires items != []
    ensures ArrayTail(text, items) == text(items[0]) + AfterFirst(text, items)
  {
  }

  lemma {:induction false} ArraySplits<T(!new)>(text: T -> string, a: seq<T>, b: seq<T>)
    requires Delimits(text) && ArrayTail(text, a) == ArrayTail(text, b)
    ensures a == b
  {
    if a == [] {
      if b != [] { StartsOpen(text, b); }
    } else if b == [] {
      StartsOpen(text, a);
    } else {
      TailUnfolds(text, a);
      TailUnfolds(text, b);
      RestSplits(text, a, b);
      if |a| > 1 { ArraySplits(text, a[1..], b[1..]); }
      SameParts(a, b);
    }
  }

  lemma SameParts<T>(a: seq<T>, b: seq<T>)
    requires a != [] && b != [] && a[0] == b[0] && (|a| > 1 <==> |b| > 1) && (|a| > 1 ==> a[1..] == b[1..])
    ensures a == b
  {
    assert a == [a[0]] + a[1..] && b == [b[0]] + b[1..];
  }

  lemma StartsOpen<T(!new)>(text: T -> string, items: seq<T>)
    requires Delimits(text) && items != []
    ensures ArrayTail(text, items) != "" && ArrayTail(text, items)[0] == '{'
  {
    TailUnfolds(text, items);
    assert text(items[0]) != "" && text(items[0])[0] == '{';
  }

  lemma RestSplits<T(!new)>(text: T -> string, a: seq<T>, b: seq<T>)
    requires Delimits(text) && a != [] && b != []
    requires text(a[0]) + AfterFirst(text, a) == text(b[0]) + AfterFirst(text, b)
    ensures a[0] == b[0] && (|a| > 1 <==> |b| > 1)
    ensures |a| > 1 ==> ArrayTail(text, a[1..]) == ArrayTail(text, b[1..])
  {
    var x, y := AfterFirst(text, a), AfterFirst(text, b);
    assert a[0] == b[0] && x == y;
    assert x[0] == y[0];
    if |a| > 1 { PrefixCancels(",", ArrayTail(text, a[1..]), ArrayTail(text, b[1..])); }
  }

  lemma ObjectsDelimit()
    ensures Delimits(ObjectText)
  {
    forall r, s, x, y | ObjectText(r) + x == ObjectText(s) + y ensures r == s && x == y {
      ObjectSplits(r, s, x, y);
    }
  }

  function RowIdentity(row: Row): Identity { (row.name, row.architecture) }

  lemma ByIdentityOrders(rows: seq<Row>)
    requires Distinct(Map(RowIdentity, rows))
    ensures TotalPreorder(ByIdentity) && Separates(ByIdentity, rows)
  {
    forall p, q, r
      ensures ByIdentity(p, q) || ByIdentity(q, p)
      ensures ByIdentity(p, q) && ByIdentity(q, r) ==> ByIdentity(p, r)
    {
      PairPrecedesTotally(RowIdentity(p), RowIdentity(q), RowIdentity(r));
    }
    forall p, q | p in rows && q in rows && ByIdentity(p, q) && ByIdentity(q, p) ensures p == q {
      PairPrecedesTotally(RowIdentity(p), RowIdentity(q), RowIdentity(p));
      var i :| 0 <= i < |rows| && rows[i] == p;
      var j :| 0 <= j < |rows| && rows[j] == q;
      assert Map(RowIdentity, rows)[i] == Map(RowIdentity, rows)[j];
    }
  }

  /**
   Two plans with distinct identities have the same digested text if and only if they approve the
   same rows, in whatever order.
   */
  lemma TextIsThePlan(a: seq<Row>, b: seq<Row>)
    requires Distinct(Map(RowIdentity, a)) && Distinct(Map(RowIdentity, b))
    ensures PlanText(a) == PlanText(b) <==> multiset(a) == multiset(b)
  {
    ByIdentityOrders(a);
    SortedEquality(a, b, ByIdentity);
    if PlanText(a) == PlanText(b) {
      PrefixCancels("[", ArrayTail(ObjectText, Sort(a, ByIdentity)), ArrayTail(ObjectText, Sort(b, ByIdentity)));
      ObjectsDelimit();
      ArraySplits(ObjectText, Sort(a, ByIdentity), Sort(b, ByIdentity));
    }
  }
}
