/** What a fingerprint stands for: a node's fields and, one level up after the other, the fields of everything
    upstream, with the links into each node as a bag. */
module FingerprintMeaning {

  import opened Decimals
  import opened SortedStrings
  import opened CanonicalJson
  import opened Workflows
  import opened Fingerprints

  /** A node unfolded with all that feeds it, without ids. */
  datatype Shape = Shape(nodeType: string, parameters: string, settings: NodeSettings, disabled: bool,
    feeds: multiset<Feed>)

  datatype Feed = Feed(source: Shape, fromOutput: nat, toInput: nat, error: bool)

  /** The last place before `i` where the id stands. */
  function EarlierPosition(order: seq<NodeInstance>, id: NodeId, i: nat): (p: Option<nat>)
    requires i <= |order|
    ensures p.Some? ==> p.value < i && order[p.value].id == id
    ensures p.None? ==> forall k :: 0 <= k < i ==> order[k].id != id
  {
    if i == 0 then None
    else if order[i - 1].id == id then Some(i - 1)
    else EarlierPosition(order, id, i - 1)
  }

  function ShapeOf(links: seq<Connection>, order: seq<NodeInstance>, i: nat): Shape
    requires i < |order|
    decreases i, |links| + 1
  {
    var n := order[i];
    Shape(n.nodeType, Canonical(n.parameters), n.settings, n.disabled, multiset(FeedsOf(links, links, order, i)))
  }

  function FeedOf(links: seq<Connection>, c: Connection, order: seq<NodeInstance>, p: nat): Feed
    requires p < |order|
    decreases p, |links| + 2
  {
    Feed(ShapeOf(links, order, p), c.fromOutput, c.toInput, c.error)
  }

  function FeedsOf(links: seq<Connection>, ls: seq<Connection>, order: seq<NodeInstance>, i: nat): seq<Feed>
    requires i < |order|
    decreases i, |ls|
  {
    if ls == [] then []
    else
      var p := EarlierPosition(order, ls[0].fromNode, i);
      (if ls[0].toNode == order[i].id && p.Some? then [FeedOf(links, ls[0], order, p.value)] else [])
      + FeedsOf(links, ls[1..], order, i)
  }

  // ---- Counting -------------------------------------------------------------------------------------------------

  lemma {:induction false} CountTransfer<A, B>(s: seq<A>, x: A, t: seq<B>, y: B)
    requires |s| == |t| && forall k :: 0 <= k < |s| ==> (s[k] == x <==> t[k] == y)
    ensures multiset(s)[x] == multiset(t)[y]
  {
    if s != [] {
      var n := |s| - 1;
      CountTransfer(s[..n], x, t[..n], y);
      assert s == s[..n] + [s[n]] && t == t[..n] + [t[n]];
    }
  }

  /** Renaming elements so that equal ones stay equal and others stay apart keeps bags equal. */
  lemma BagTransfer<A(!new), B(!new)>(sa: seq<A>, sb: seq<A>, ta: seq<B>, tb: seq<B>)
    requires |sa| == |ta| && |sb| == |tb|
    requires forall k, l :: 0 <= k < |sa| && 0 <= l < |sb| ==> (sa[k] == sb[l] <==> ta[k] == tb[l])
    requires multiset(sa) == multiset(sb)
    ensures multiset(ta) == multiset(tb)
  {
    forall y ensures multiset(ta)[y] == multiset(tb)[y] {
      if y in ta {
        var k :| 0 <= k < |ta| && ta[k] == y;
        OneCount(sa, sb, ta, tb, k);
      } else if y in tb {
        var l :| 0 <= l < |tb| && tb[l] == y;
        OneCount(sb, sa, tb, ta, l);
      }
    }
  }

  lemma OneCount<A(!new), B(!new)>(sa: seq<A>, sb: seq<A>, ta: seq<B>, tb: seq<B>, k: nat)
    requires |sa| == |ta| && |sb| == |tb| && k < |ta|
    requires forall k, l :: 0 <= k < |sa| && 0 <= l < |sb| ==> (sa[k] == sb[l] <==> ta[k] == tb[l])
    requires multiset(sa) == multiset(sb)
    ensures multiset(ta)[ta[k]] == multiset(tb)[ta[k]]
  {
    assert sa[k] in multiset(sa);
    assert sa[k] in sb;
    var l :| 0 <= l < |sb| && sb[l] == sa[k];
    assert ta[k] == tb[l];
    CountTransfer(sa, sa[k], ta, ta[k]);
    CountTransfer(sb, sb[l], tb, tb[l]);
  }

  // ---- A sorted list of texts is a bag of texts -----------------------------------------------------------------

  type Tagged = (string, ())

  function KeyCount(s: seq<Tagged>, x: string): nat {
    if s == [] then 0 else (if s[0].0 == x then 1 else 0) + KeyCount(s[1..], x)
  }

  lemma {:induction false} KeysAre(s: seq<Tagged>, x: string)
    ensures multiset(Keys(s))[x] == KeyCount(s, x)
    ensures KeyCount(s, x) > 0 <==> x in Keys(s)
  {
    if s != [] {
      KeysAre(s[1..], x);
      assert Keys(s) == [s[0].0] + Keys(s[1..]);
    }
  }

  lemma {:induction false} InsertCount(p: Tagged, s: seq<Tagged>, x: string)
    ensures KeyCount(Insert(p, s), x) == (if p.0 == x then 1 else 0) + KeyCount(s, x)
  {
    if s != [] && Less(s[0].0, p.0) {
      InsertCount(p, s[1..], x);
      assert Insert(p, s)[1..] == Insert(p, s[1..]);
    } else {
      assert Insert(p, s)[1..] == s;
    }
  }

  lemma {:induction false} SortCount(s: seq<Tagged>, x: string)
    ensures KeyCount(SortByKey(s), x) == KeyCount(s, x)
  {
    if s != [] {
      SortCount(s[1..], x);
      InsertCount(s[0], SortByKey(s[1..]), x);
    }
  }

  /** No later entry comes before an earlier one. */
  ghost predicate Ordered(s: seq<Tagged>) {
    s == [] || ((forall x :: x in s[1..] ==> !Less(x.0, s[0].0)) && Ordered(s[1..]))
  }

  lemma {:induction false} InsertOrdered(p: Tagged, s: seq<Tagged>)
    requires Ordered(s)
    ensures Ordered(Insert(p, s))
  {
    var r := Insert(p, s);
    if s == [] {
      assert r[1..] == [];
    } else {
      LessTotal(s[0].0, p.0);
      assert s == [s[0]] + s[1..];
      if Less(s[0].0, p.0) {
        InsertOrdered(p, s[1..]);
        InsertElements(p, s[1..]);
        assert r[1..] == Insert(p, s[1..]);
      } else {
        assert r[1..] == s;
        forall x | x in s ensures !Less(x.0, p.0) { NotBelow(p, s, x); }
      }
    }
  }

  lemma {:induction false} NotBelow(p: Tagged, s: seq<Tagged>, x: Tagged)
    requires s != [] && Ordered(s) && !Less(s[0].0, p.0) && x in s
    ensures !Less(x.0, p.0)
  {
    assert s == [s[0]] + s[1..];
    LessTotal(s[0].0, p.0);
    LessTotal(x.0, s[0].0);
    if Less(x.0, p.0) && Less(p.0, s[0].0) {
      LessTransitive(x.0, p.0, s[0].0);
    }
  }

  lemma {:induction false} SortOrdered(s: seq<Tagged>)
    ensures Ordered(SortByKey(s))
  {
    if s != [] {
      SortOrdered(s[1..]);
      InsertOrdered(s[0], SortByKey(s[1..]));
    }
  }

  lemma {:induction false} OrderedFirst(s: seq<Tagged>, x: string)
    requires s != [] && Ordered(s) && x in Keys(s)
    ensures !Less(x, s[0].0)
  {
    var k :| 0 <= k < |s| && Keys(s)[k] == x;
    assert k > 0 ==> s[k] in s[1..];
    LessTotal(s[0].0, s[0].0);
  }

  /** There is one sorted list with given counts. */
  lemma {:induction false} OrderedUnique(s: seq<Tagged>, t: seq<Tagged>)
    requires Ordered(s) && Ordered(t) && forall x :: KeyCount(s, x) == KeyCount(t, x)
    ensures Keys(s) == Keys(t)
  {
    if s != [] {
      SameFirst(s, t);
      forall x ensures KeyCount(s[1..], x) == KeyCount(t[1..], x) {
        assert KeyCount(s, x) == KeyCount(t, x);
      }
      OrderedUnique(s[1..], t[1..]);
      assert Keys(s) == [s[0].0] + Keys(s[1..]) && Keys(t) == [t[0].0] + Keys(t[1..]);
    } else {
      NoKeys(t);
    }
  }

  lemma NoKeys(t: seq<Tagged>)
    requires forall x :: KeyCount(t, x) == KeyCount([], x)
    ensures t == []
  {
    assert t != [] ==> KeyCount(t, t[0].0) > 0;
  }

  lemma {:induction false} SameFirst(s: seq<Tagged>, t: seq<Tagged>)
    requires Ordered(s) && Ordered(t) && s != [] && forall x :: KeyCount(s, x) == KeyCount(t, x)
    ensures t != [] && s[0].0 == t[0].0
  {
    assert KeyCount(s, s[0].0) == KeyCount(t, s[0].0);
    assert t != [];
    assert KeyCount(s, t[0].0) == KeyCount(t, t[0].0);
    KeysAre(t, s[0].0);
    KeysAre(s, t[0].0);
    OrderedFirst(t, s[0].0);
    OrderedFirst(s, t[0].0);
    LessTotal(s[0].0, t[0].0);
  }

  /** Two sorted lists are equal exactly when the lists they were sorted from are the same bag of texts. */
  lemma {:induction false} SortedIffSameBag(s: seq<Tagged>, t: seq<Tagged>)
    ensures Keys(SortByKey(s)) == Keys(SortByKey(t)) <==> multiset(Keys(s)) == multiset(Keys(t))
  {
    forall x
      ensures multiset(Keys(SortByKey(s)))[x] == multiset(Keys(s))[x]
      ensures multiset(Keys(SortByKey(t)))[x] == multiset(Keys(t))[x]
    {
      KeysAre(s, x); KeysAre(t, x);
      KeysAre(SortByKey(s), x); KeysAre(SortByKey(t), x);
      SortCount(s, x); SortCount(t, x);
    }
    if multiset(Keys(s)) == multiset(Keys(t)) {
      SortOrdered(s);
      SortOrdered(t);
      forall x ensures KeyCount(SortByKey(s), x) == KeyCount(SortByKey(t), x) {
        KeysAre(s, x); KeysAre(t, x);
        SortCount(s, x); SortCount(t, x);
      }
      OrderedUnique(SortByKey(s), SortByKey(t));
    }
  }

  // ---- The joined text gives back the links ---------------------------------------------------------------------

  ghost predicate Lacks(s: string, c: char) {
    forall x :: x in s ==> x != c
  }

  lemma FirstSeparator(c: char, p: string, x: string, q: string, y: string)
    requires Lacks(p, c) && Lacks(q, c) && p + [c] + x == q + [c] + y
    ensures p == q && x == y
  {
    var s := p + [c] + x;
    assert s[|p|] == c && s[|q|] == c;
    assert forall i :: 0 <= i < |p| ==> s[i] == p[i] && p[i] in p;
    assert forall i :: 0 <= i < |q| ==> s[i] == q[i] && q[i] in q;
    assert |p| == |q|;
    assert p == s[..|p|] == q;
    assert x == s[|p| + 1..] == y;
  }

  lemma LastSeparator(c: char, p: string, x: string, q: string, y: string)
    requires Lacks(x, c) && Lacks(y, c) && p + [c] + x == q + [c] + y
    ensures p == q && x == y
  {
    var s := p + [c] + x;
    assert s[|p|] == c && s[|q|] == c;
    assert forall i :: |p| < i < |s| ==> s[i] == x[i - |p| - 1] && s[i] in x;
    assert forall i :: |q| < i < |s| ==> s[i] == y[i - |q| - 1] && s[i] in y;
    assert |p| == |q|;
    assert p == s[..|p|] == q;
    assert x == s[|p| + 1..] == y;
  }

  ghost predicate Separable(parts: seq<string>) {
    forall i :: 0 <= i < |parts| ==> parts[i] != "" && Lacks(parts[i], ',')
  }

  lemma {:induction false} JoinTwo(parts: seq<string>)
    requires |parts| >= 2
    ensures Join(parts) == parts[0] + [','] + Join(parts[1..]) && !Lacks(Join(parts), ',')
  {
    assert Join(parts)[|parts[0]|] == ',';
    assert ',' in Join(parts);
  }

  lemma {:induction false} JoinInjective(a: seq<string>, b: seq<string>)
    requires Separable(a) && Separable(b) && Join(a) == Join(b)
    ensures a == b
  {
    if |a| >= 2 { JoinTwo(a); }
    if |b| >= 2 { JoinTwo(b); }
    if |a| >= 2 && |b| >= 2 {
      FirstSeparator(',', a[0], Join(a[1..]), b[0], Join(b[1..]));
      JoinInjective(a[1..], b[1..]);
      assert a == [a[0]] + a[1..] && b == [b[0]] + b[1..];
    }
  }

  function LinkSuffix(c: Connection): (nat, nat, bool) {
    (c.fromOutput, c.toInput, c.error)
  }

  lemma {:induction false} NoColon(n: nat)
    ensures Lacks(Decimal(n), ':')
  {
    DecimalValue(n);
  }

  lemma LinkTextTells(pa: map<NodeId, string>, c: Connection, pb: map<NodeId, string>, d: Connection)
    requires c.fromNode in pa && d.fromNode in pb && LinkText(pa, c) == LinkText(pb, d)
    ensures pa[c.fromNode] == pb[d.fromNode] && LinkSuffix(c) == LinkSuffix(d)
  {
    NoColon(c.fromOutput); NoColon(c.toInput); NoColon(d.fromOutput); NoColon(d.toInput);
    var p, q := pa[c.fromNode], pb[d.fromNode];
    var p1, q1 := p + ":" + Decimal(c.fromOutput), q + ":" + Decimal(d.fromOutput);
    LastSeparator(':', p1 + ":" + Decimal(c.toInput), BoolText(c.error), q1 + ":" + Decimal(d.toInput),
      BoolText(d.error));
    LastSeparator(':', p1, Decimal(c.toInput), q1, Decimal(d.toInput));
    LastSeparator(':', p, Decimal(c.fromOutput), q, Decimal(d.fromOutput));
    DecimalInjective(c.toInput, d.toInput);
    DecimalInjective(c.fromOutput, d.fromOutput);
    assert BoolText(c.error)[0] == BoolText(d.error)[0];
  }

  // ---- Links, texts and feeds, one by one -----------------------------------------------------------------------

  /** The text and the feed of one incoming link, from a node at `p`. */
  ghost predicate OfLink(
    links: seq<Connection>, order: seq<NodeInstance>, i: nat, prints: map<NodeId, string>, text: string,
    feed: Feed, c: Connection, p: nat)
    requires i < |order|
  {
    && c in links && c.toNode == order[i].id && p < i && order[p].id == c.fromNode
    && text == LinkText(prints, c) && feed == FeedOf(links, c, order, p)
  }

  ghost predicate Paired(links: seq<Connection>, order: seq<NodeInstance>, i: nat, prints: map<NodeId, string>,
      text: string, feed: Feed)
    requires i < |order|
  {
    exists c, p :: OfLink(links, order, i, prints, text, feed, c, p)
  }

  lemma {:induction false} TextsAndFeeds(
    links: seq<Connection>, ls: seq<Connection>, order: seq<NodeInstance>, i: nat, prints: map<NodeId, string>)
    requires Forwards(links, order) && i < |order| && forall c :: c in ls ==> c in links
    ensures var texts, feeds := Keys(Incoming(ls, prints, order[i].id)), FeedsOf(links, ls, order, i);
            |texts| == |feeds| && forall k :: 0 <= k < |texts| ==> Paired(links, order, i, prints, texts[k], feeds[k])
  {
    if ls != [] {
      TextsAndFeeds(links, ls[1..], order, i, prints);
      if ls[0].toNode == order[i].id {
        var p := OneMoreFeed(links, ls, order, i, prints);
        assert OfLink(links, order, i, prints, LinkText(prints, ls[0]), FeedOf(links, ls[0], order, p), ls[0], p);
      } else {
        assert Incoming(ls, prints, order[i].id) == Incoming(ls[1..], prints, order[i].id);
        assert FeedsOf(links, ls, order, i) == FeedsOf(links, ls[1..], order, i);
      }
    }
  }

  lemma OneMoreFeed(
    links: seq<Connection>, ls: seq<Connection>, order: seq<NodeInstance>, i: nat, prints: map<NodeId, string>)
    returns (p: nat)
    requires Forwards(links, order) && i < |order| && ls != [] && ls[0] in links && ls[0].toNode == order[i].id
    ensures p < i && order[p].id == ls[0].fromNode
    ensures Keys(Incoming(ls, prints, order[i].id)) == [LinkText(prints, ls[0])]
        + Keys(Incoming(ls[1..], prints, order[i].id))
    ensures FeedsOf(links, ls, order, i) == [FeedOf(links, ls[0], order, p)] + FeedsOf(links, ls[1..], order, i)
  {
    var q := EarlierFeeder(links, order, ls[0], i);
    p := EarlierPosition(order, ls[0].fromNode, i).value;
  }

  ghost predicate AllWellFormed(order: seq<NodeInstance>) {
    forall i :: 0 <= i < |order| ==> WellFormed(order[i].parameters)
  }

  /** A workflow as `fingerprints` sees it: an order that the links follow. */
  ghost predicate Sound(links: seq<Connection>, order: seq<NodeInstance>) {
    DistinctIds(order) && Forwards(links, order) && AllWellFormed(order)
  }

  function TextsOf(hash: Hash, links: seq<Connection>, order: seq<NodeInstance>, i: nat): seq<string>
    requires i < |order|
  {
    Keys(Incoming(links, Prints(hash, links, order, i), order[i].id))
  }

  lemma {:induction false} TextsSeparable(hash: Hash, links: seq<Connection>, order: seq<NodeInstance>, i: nat)
    requires GoodHash(hash) && Sound(links, order) && i < |order|
    ensures Separable(Keys(SortByKey(Incoming(links, Prints(hash, links, order, i), order[i].id))))
  {
    var prints := Prints(hash, links, order, i);
    var incoming := Incoming(links, prints, order[i].id);
    var sorted := SortByKey(incoming);
    SortElements(incoming);
    PrintsPrinted(hash, links, order, i);
    UpstreamPrinted(hash, links, order, i);
    forall k | 0 <= k < |sorted| ensures Keys(sorted)[k] != "" && Lacks(Keys(sorted)[k], ',') {
      assert sorted[k] in incoming;
      IncomingTexts(links, prints, order[i].id, sorted[k]);
      var c :| c in links && c.toNode == order[i].id && sorted[k].0 == LinkText(prints, c);
      LinkTextPlain(hash, prints, c);
    }
  }

  /** The joined texts are equal exactly when they are the same bag. */
  lemma {:induction false} FeedTextIffBag(
    hash: Hash, la: seq<Connection>, a: seq<NodeInstance>, i: nat, lb: seq<Connection>, b: seq<NodeInstance>, j: nat)
    requires GoodHash(hash) && Sound(la, a) && Sound(lb, b) && i < |a| && j < |b|
    ensures FeedText(la, Prints(hash, la, a, i), a[i].id) == FeedText(lb, Prints(hash, lb, b, j), b[j].id) <==>
            multiset(TextsOf(hash, la, a, i)) == multiset(TextsOf(hash, lb, b, j))
  {
    var s, t := Incoming(la, Prints(hash, la, a, i), a[i].id), Incoming(lb, Prints(hash, lb, b, j), b[j].id);
    SortedIffSameBag(s, t);
    TextsSeparable(hash, la, a, i);
    TextsSeparable(hash, lb, b, j);
    if Join(Keys(SortByKey(s))) == Join(Keys(SortByKey(t))) {
      JoinInjective(Keys(SortByKey(s)), Keys(SortByKey(t)));
    }
  }

  // ---- Equal fingerprints, equal shapes -------------------------------------------------------------------------

  lemma {:induction false} EarlierPrint(hash: Hash, links: seq<Connection>, order: seq<NodeInstance>, p: nat, i: nat)
    requires Sound(links, order) && p < i <= |order|
    ensures order[p].id in Prints(hash, links, order, i) && order[p].id in Prints(hash, links, order, |order|)
    ensures Prints(hash, links, order, i)[order[p].id] == Prints(hash, links, order, |order|)[order[p].id]
  {
    PrintsAt(hash, links, order, i, p);
    PrintsAt(hash, links, order, |order|, p);
  }

  lemma {:induction false} OneFeed(
    hash: Hash, la: seq<Connection>, a: seq<NodeInstance>, i: nat, lb: seq<Connection>, b: seq<NodeInstance>, j: nat,
    s: string, f: Feed, t: string, g: Feed)
    requires GoodHash(hash) && Sound(la, a) && Sound(lb, b) && i < |a| && j < |b|
    requires Paired(la, a, i, Prints(hash, la, a, i), s, f) && Paired(lb, b, j, Prints(hash, lb, b, j), t, g)
    ensures s == t <==> f == g
    decreases i, 0
  {
    var c, p :| OfLink(la, a, i, Prints(hash, la, a, i), s, f, c, p);
    var d, q :| OfLink(lb, b, j, Prints(hash, lb, b, j), t, g, d, q);
    EarlierPrint(hash, la, a, p, i);
    EarlierPrint(hash, lb, b, q, j);
    SamePrintIffSameShape(hash, la, a, p, lb, b, q);
    if s == t {
      LinkTextTells(Prints(hash, la, a, i), c, Prints(hash, lb, b, j), d);
    }
  }

  /** Two nodes, of one workflow or two, have the same fingerprint exactly when they have the same shape: the same
      fields, and the same bag of incoming links from nodes of the same shape. */
  lemma {:induction false} SamePrintIffSameShape(
    hash: Hash, la: seq<Connection>, a: seq<NodeInstance>, i: nat, lb: seq<Connection>, b: seq<NodeInstance>, j: nat)
    requires GoodHash(hash) && Sound(la, a) && Sound(lb, b) && i < |a| && j < |b|
    ensures a[i].id in Prints(hash, la, a, |a|) && b[j].id in Prints(hash, lb, b, |b|)
    ensures Prints(hash, la, a, |a|)[a[i].id] == Prints(hash, lb, b, |b|)[b[j].id] <==>
        ShapeOf(la, a, i) == ShapeOf(lb, b, j)
    decreases i, 1
  {
    SamePrintSameFields(hash, la, a, i, lb, b, j);
    FeedTextIffBag(hash, la, a, i, lb, b, j);
    var s, t := TextsOf(hash, la, a, i), TextsOf(hash, lb, b, j);
    var f, g := FeedsOf(la, la, a, i), FeedsOf(lb, lb, b, j);
    TextsAndFeeds(la, la, a, i, Prints(hash, la, a, i));
    TextsAndFeeds(lb, lb, b, j, Prints(hash, lb, b, j));
    forall k, l | 0 <= k < |s| && 0 <= l < |t| ensures s[k] == t[l] <==> f[k] == g[l] {
      OneFeed(hash, la, a, i, lb, b, j, s[k], f[k], t[l], g[l]);
    }
    if multiset(s) == multiset(t) { BagTransfer(s, t, f, g); }
    if multiset(f) == multiset(g) { BagTransfer(f, g, s, t); }
  }
}
