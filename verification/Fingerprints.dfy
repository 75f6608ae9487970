/** `fingerprints` (src/engine.rs): a hash of each node's own fields and of what feeds it. */
module Fingerprints {

  import opened Decimals
  import opened JsonValues
  import opened SortedStrings
  import opened CanonicalJson
  import opened Workflows

  /** SHA-256 in hexadecimal, taken as collision-free. */
  type Hash = string -> string

  ghost predicate GoodHash(hash: Hash) {
    && (forall x, y :: hash(x) == hash(y) ==> x == y)
    && (forall x :: Plain(hash(x)))
  }

  /** No line break and no comma. */
  ghost predicate Plain(s: string) {
    forall c :: c in s ==> c != '\n' && c != ','
  }

  function BoolText(b: bool): string {
    if b then "true" else "false"
  }

  function NumberJson(n: nat): Json {
    Number(Decimal(n))
  }

  function RetryJson(retry: Option<RetryPolicy>): Json {
    match retry
    case None => Null
    case Some(r) => Object([("max_tries", NumberJson(r.maxTries)), ("wait_ms", NumberJson(r.waitMs))])
  }

  function TimeoutJson(timeout: Option<nat>): Json {
    match timeout
    case None => Null
    case Some(t) => NumberJson(t)
  }

  function SettingsJson(s: NodeSettings): Json {
    Object([("retry", RetryJson(s.retry)), ("timeout_ms", TimeoutJson(s.timeoutMs)),
      ("continue_on_fail", Bool(s.continueOnFail))])
  }

  /** One incoming link: the fingerprint at its start and how it connects. */
  function LinkText(prints: map<NodeId, string>, c: Connection): string {
    (if c.fromNode in prints then prints[c.fromNode] else "?" + c.fromNode.name)
    + ":" + Decimal(c.fromOutput) + ":" + Decimal(c.toInput) + ":" + BoolText(c.error)
  }

  function Incoming(links: seq<Connection>, prints: map<NodeId, string>, id: NodeId): seq<(string, ())> {
    if links == [] then []
    else (if links[0].toNode == id then [(LinkText(prints, links[0]), ())] else []) + Incoming(links[1..], prints, id)
  }

  function Keys(s: seq<(string, ())>): seq<string> {
    seq(|s|, i requires 0 <= i < |s| => s[i].0)
  }

  function FeedText(links: seq<Connection>, prints: map<NodeId, string>, id: NodeId): string {
    Join(Keys(SortByKey(Incoming(links, prints, id))))
  }

  function NodeText(n: NodeInstance, feed: string): string {
    var settings := Canonical(SettingsJson(n.settings));
    Line(Line(Line(Line(n.nodeType, Canonical(n.parameters)), settings), BoolText(n.disabled)), feed)
  }

  function Line(first: string, rest: string): string {
    first + ['\n'] + rest
  }

  /** The fingerprints of the first `k` nodes, each from those before it. */
  function Prints(hash: Hash, links: seq<Connection>, order: seq<NodeInstance>, k: nat): map<NodeId, string>
    requires k <= |order|
  {
    if k == 0 then map[]
    else
      var before := Prints(hash, links, order, k - 1);
      var n := order[k - 1];
      before[n.id := hash(NodeText(n, FeedText(links, before, n.id)))]
  }

  method ComputePrints(hash: Hash, links: seq<Connection>, order: seq<NodeInstance>)
    returns (prints: map<NodeId, string>)
    ensures prints == Prints(hash, links, order, |order|)
  {
    prints := map[];
    for k := 0 to |order|
      invariant prints == Prints(hash, links, order, k)
    {
      var n := order[k];
      prints := prints[n.id := hash(NodeText(n, FeedText(links, prints, n.id)))];
    }
  }

  // ---- The text says what it was made of ------------------------------------------------------------------------

  ghost predicate NoBreak(s: string) {
    forall c :: c in s ==> c != '\n'
  }

  lemma LastBreak(a: string, s: string)
    requires NoBreak(s)
    ensures Line(a, s)[|a|] == '\n'
    ensures forall i :: |a| < i < |Line(a, s)| ==> Line(a, s)[i] != '\n'
    ensures Line(a, s)[..|a|] == a && Line(a, s)[|a| + 1..] == s
  {
    forall i | |a| < i < |Line(a, s)| ensures Line(a, s)[i] != '\n' {
      assert Line(a, s)[i] == s[i - |a| - 1] && s[i - |a| - 1] in s;
    }
  }

  lemma LastLine(a: string, b: string, s: string, t: string)
    requires NoBreak(s) && NoBreak(t) && Line(a, s) == Line(b, t)
    ensures a == b && s == t
  {
    LastBreak(a, s);
    LastBreak(b, t);
    assert |a| == |b|;
  }

  lemma NoBreakConcat(s: string, t: string)
    ensures NoBreak(s + t) <==> NoBreak(s) && NoBreak(t)
  {
    assert forall c :: c in s + t <==> c in s || c in t;
  }

  lemma {:induction false} EscapeNoBreak(s: string)
    ensures NoBreak(Escape(s))
  {
    if s != "" {
      EscapeCharShape(s[0]);
      EscapeNoBreak(s[1..]);
    }
  }

  lemma {:induction false} JoinNoBreak(parts: seq<string>)
    requires forall i :: 0 <= i < |parts| ==> NoBreak(parts[i])
    ensures NoBreak(Join(parts))
  {
    if |parts| > 1 {
      JoinNoBreak(parts[1..]);
    }
  }

  lemma QuoteNoBreak(s: string)
    ensures NoBreak(Quote(s))
  {
    EscapeNoBreak(s);
  }

  lemma {:induction false} CanonicalNoBreak(v: Json)
    requires WellFormed(v)
    ensures NoBreak(Canonical(v))
    decreases v, 1
  {
    match v
    case String(s) => QuoteNoBreak(s);
    case Array(items) =>
      forall i | 0 <= i < |items| ensures NoBreak(CanonicalItems(v)[i]) { CanonicalNoBreak(items[i]); }
      JoinNoBreak(CanonicalItems(v));
    case Object(entries) =>
      var p := SortedEntries(v);
      forall i | 0 <= i < |p| ensures NoBreak(Parts(p)[i]) {
        var j := PrintedEntry(v, p[i]);
        CanonicalNoBreak(entries[j].1);
        QuoteNoBreak(p[i].0);
        NoBreakConcat(Quote(p[i].0) + [':'], p[i].1);
      }
      JoinNoBreak(Parts(p));
    case _ =>
  }

  lemma NumberWellFormed(n: nat)
    ensures WellFormed(NumberJson(n))
  {
    DecimalValue(n);
    assert Decimal(n)[0] in Decimal(n);
  }

  lemma RetryWellFormed(retry: Option<RetryPolicy>)
    ensures WellFormed(RetryJson(retry))
  {
    if retry.Some? {
      var entries := RetryJson(retry).entries;
      NumberWellFormed(retry.value.maxTries);
      NumberWellFormed(retry.value.waitMs);
      assert |entries| == 2 && entries[0].1 == NumberJson(retry.value.maxTries) &&
        entries[1].1 == NumberJson(retry.value.waitMs);
      assert entries[0].0[0] != entries[1].0[0];
    }
  }

  lemma SettingsWellFormed(s: NodeSettings)
    ensures WellFormed(SettingsJson(s))
  {
    var entries := SettingsJson(s).entries;
    RetryWellFormed(s.retry);
    if s.timeoutMs.Some? { NumberWellFormed(s.timeoutMs.value); }
    assert |entries| == 3 && entries[0].1 == RetryJson(s.retry) && entries[1].1 == TimeoutJson(s.timeoutMs);
    assert entries[0].0[0] == 'r' && entries[1].0[0] == 't' && entries[2].0[0] == 'c';
  }

  /** Settings that print the same are the same. */
  lemma SettingsInjective(a: NodeSettings, b: NodeSettings)
    requires Canonical(SettingsJson(a)) == Canonical(SettingsJson(b))
    ensures a == b
  {
    SettingsWellFormed(a);
    SettingsWellFormed(b);
    CanonicalIff(SettingsJson(a), SettingsJson(b));
    var x, y := SettingsJson(a).entries, SettingsJson(b).entries;
    assert x[0].0 == y[0].0 && x[1].0 == y[1].0 && x[2].0 == y[2].0;
    assert SameUpToKeyOrder(x[0].1, y[0].1) && SameUpToKeyOrder(x[1].1, y[1].1) && SameUpToKeyOrder(x[2].1, y[2].1);
    RetrySame(a.retry, b.retry);
    if a.timeoutMs.Some? && b.timeoutMs.Some? {
      DecimalInjective(a.timeoutMs.value, b.timeoutMs.value);
    }
  }

  lemma RetrySame(a: Option<RetryPolicy>, b: Option<RetryPolicy>)
    requires SameUpToKeyOrder(RetryJson(a), RetryJson(b))
    ensures a == b
  {
    if a.Some? && b.Some? {
      var x, y := RetryJson(a).entries, RetryJson(b).entries;
      assert x[0].0 == y[0].0 && x[1].0 == y[1].0;
      assert SameUpToKeyOrder(x[0].1, y[0].1) && SameUpToKeyOrder(x[1].1, y[1].1);
      DecimalInjective(a.value.maxTries, b.value.maxTries);
      DecimalInjective(a.value.waitMs, b.value.waitMs);
    }
  }

  /** Two nodes agree in everything a fingerprint covers of the node itself. */
  ghost predicate SameFields(a: NodeInstance, b: NodeInstance) {
    && a.nodeType == b.nodeType
    && Canonical(a.parameters) == Canonical(b.parameters)
    && a.settings == b.settings
    && a.disabled == b.disabled
  }

  /** The hashed text gives back the node's fields and what feeds it. */
  lemma TextTellsNode(a: NodeInstance, b: NodeInstance, feedA: string, feedB: string)
    requires WellFormed(a.parameters) && WellFormed(b.parameters) && NoBreak(feedA) && NoBreak(feedB)
    requires NodeText(a, feedA) == NodeText(b, feedB)
    ensures SameFields(a, b) && feedA == feedB
  {
    var s, t := Canonical(SettingsJson(a.settings)), Canonical(SettingsJson(b.settings));
    var p, q := Canonical(a.parameters), Canonical(b.parameters);
    CanonicalNoBreak(a.parameters);
    CanonicalNoBreak(b.parameters);
    SettingsWellFormed(a.settings);
    SettingsWellFormed(b.settings);
    CanonicalNoBreak(SettingsJson(a.settings));
    CanonicalNoBreak(SettingsJson(b.settings));
    LastLine(Line(Line(Line(a.nodeType, p), s), BoolText(a.disabled)),
      Line(Line(Line(b.nodeType, q), t), BoolText(b.disabled)), feedA, feedB);
    LastLine(Line(Line(a.nodeType, p), s), Line(Line(b.nodeType, q), t), BoolText(a.disabled), BoolText(b.disabled));
    LastLine(Line(a.nodeType, p), Line(b.nodeType, q), s, t);
    LastLine(a.nodeType, b.nodeType, p, q);
    SettingsInjective(a.settings, b.settings);
    assert BoolText(a.disabled)[0] == if a.disabled then 't' else 'f';
    assert BoolText(b.disabled)[0] == if b.disabled then 't' else 'f';
  }

  // ---- What feeds a node, as text -------------------------------------------------------------------------------

  ghost predicate Printed(hash: Hash, prints: map<NodeId, string>) {
    forall id :: id in prints ==> IsHash(hash, prints[id])
  }

  ghost predicate IsHash(hash: Hash, text: string) {
    exists x :: hash(x) == text
  }

  lemma LinkTextPlain(hash: Hash, prints: map<NodeId, string>, c: Connection)
    requires GoodHash(hash) && Printed(hash, prints) && c.fromNode in prints
    ensures Plain(LinkText(prints, c))
  {
    DecimalValue(c.fromOutput);
    DecimalValue(c.toInput);
    var x :| hash(x) == prints[c.fromNode];
    assert Plain(prints[c.fromNode]);
  }

  lemma {:induction false} IncomingTexts(links: seq<Connection>, prints: map<NodeId, string>, id: NodeId,
      p: (string, ()))
    requires p in Incoming(links, prints, id)
    ensures exists c :: c in links && c.toNode == id && p.0 == LinkText(prints, c)
  {
    if links[0].toNode == id && p == (LinkText(prints, links[0]), ()) {
      assert links[0] in links;
    } else {
      IncomingTexts(links[1..], prints, id, p);
      var c :| c in links[1..] && c.toNode == id && p.0 == LinkText(prints, c);
      assert c in links;
    }
  }

  lemma FeedNoBreak(hash: Hash, links: seq<Connection>, prints: map<NodeId, string>, id: NodeId)
    requires GoodHash(hash) && Printed(hash, prints)
    requires forall c :: c in links && c.toNode == id ==> c.fromNode in prints
    ensures NoBreak(FeedText(links, prints, id))
  {
    var incoming := Incoming(links, prints, id);
    var sorted := SortByKey(incoming);
    SortElements(incoming);
    forall i | 0 <= i < |sorted| ensures NoBreak(Keys(sorted)[i]) {
      assert sorted[i] in incoming;
      IncomingTexts(links, prints, id, sorted[i]);
      var c :| c in links && c.toNode == id && sorted[i].0 == LinkText(prints, c);
      LinkTextPlain(hash, prints, c);
    }
    JoinNoBreak(Keys(sorted));
  }

  // ---- Fingerprints of a whole workflow -------------------------------------------------------------------------

  lemma PrintsStep(hash: Hash, links: seq<Connection>, order: seq<NodeInstance>, k: nat, id: NodeId)
    requires k < |order|
    ensures id != order[k].id && id in Prints(hash, links, order, k) ==>
      id in Prints(hash, links, order, k + 1) && Prints(hash, links, order, k + 1)[id] ==
        Prints(hash, links, order, k)[id]
    ensures order[k].id in Prints(hash, links, order, k + 1)
    ensures Prints(hash, links, order, k + 1)[order[k].id] ==
      hash(NodeText(order[k], FeedText(links, Prints(hash, links, order, k), order[k].id)))
  {
  }

  lemma {:induction false} PrintsAt(hash: Hash, links: seq<Connection>, order: seq<NodeInstance>, k: nat, i: nat)
    requires DistinctIds(order) && i < k <= |order|
    ensures order[i].id in Prints(hash, links, order, k)
    ensures Prints(hash, links, order, k)[order[i].id] ==
      hash(NodeText(order[i], FeedText(links, Prints(hash, links, order, i), order[i].id)))
  {
    PrintsStep(hash, links, order, k - 1, order[i].id);
    if i < k - 1 {
      PrintsAt(hash, links, order, k - 1, i);
    }
  }

  lemma {:induction false} PrintsPrinted(hash: Hash, links: seq<Connection>, order: seq<NodeInstance>, k: nat)
    requires k <= |order|
    ensures Printed(hash, Prints(hash, links, order, k))
  {
    if k > 0 {
      PrintsPrinted(hash, links, order, k - 1);
      var before := Prints(hash, links, order, k - 1);
      OnePrintMore(hash, before, order[k - 1].id, NodeText(order[k - 1], FeedText(links, before, order[k - 1].id)));
    }
  }

  lemma OnePrintMore(hash: Hash, prints: map<NodeId, string>, n: NodeId, text: string)
    requires Printed(hash, prints)
    ensures Printed(hash, prints[n := hash(text)])
  {
    var more := prints[n := hash(text)];
    assert IsHash(hash, hash(text));
    forall id | id in more ensures IsHash(hash, more[id]) {
      if id != n {
        assert more[id] == prints[id];
      }
    }
  }

  /** The same fingerprint means the same fields and the same feed, whatever the two workflows. */
  lemma {:induction false} SamePrintSameFields(
    hash: Hash, la: seq<Connection>, a: seq<NodeInstance>, i: nat, lb: seq<Connection>, b: seq<NodeInstance>, j: nat)
    requires GoodHash(hash) && i < |a| && j < |b|
    requires DistinctIds(a) && DistinctIds(b) && Forwards(la, a) && Forwards(lb, b)
    requires WellFormed(a[i].parameters) && WellFormed(b[j].parameters)
    ensures a[i].id in Prints(hash, la, a, |a|) && b[j].id in Prints(hash, lb, b, |b|)
    ensures Prints(hash, la, a, |a|)[a[i].id] == Prints(hash, lb, b, |b|)[b[j].id] <==>
      SameFields(a[i], b[j]) &&
      FeedText(la, Prints(hash, la, a, i), a[i].id) == FeedText(lb, Prints(hash, lb, b, j), b[j].id)
  {
    PrintsAt(hash, la, a, |a|, i);
    PrintsAt(hash, lb, b, |b|, j);
    var feedA, feedB := FeedText(la, Prints(hash, la, a, i), a[i].id), FeedText(lb, Prints(hash, lb, b, j), b[j].id);
    UpstreamPrinted(hash, la, a, i);
    UpstreamPrinted(hash, lb, b, j);
    PrintsPrinted(hash, la, a, i);
    PrintsPrinted(hash, lb, b, j);
    FeedNoBreak(hash, la, Prints(hash, la, a, i), a[i].id);
    FeedNoBreak(hash, lb, Prints(hash, lb, b, j), b[j].id);
    if NodeText(a[i], feedA) == NodeText(b[j], feedB) {
      TextTellsNode(a[i], b[j], feedA, feedB);
    }
  }

  lemma {:induction false} UpstreamPrinted(hash: Hash, links: seq<Connection>, order: seq<NodeInstance>, i: nat)
    requires DistinctIds(order) && Forwards(links, order) && i < |order|
    ensures forall c :: c in links && c.toNode == order[i].id ==> c.fromNode in Prints(hash, links, order, i)
  {
    forall c | c in links && c.toNode == order[i].id ensures c.fromNode in Prints(hash, links, order, i) {
      var j := EarlierFeeder(links, order, c, i);
      PrintsAt(hash, links, order, i, j);
    }
  }
}
