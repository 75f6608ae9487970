/** `canonical_json` (src/engine.rs): JSON printed with every object's keys sorted. Two values print the
    same exactly when they are equal up to the order of object keys. */
module CanonicalJson {

  import opened JsonValues
  import opened Sequences
  import opened SortedStrings

  // ---- Printing, as serde_json does -----------------------------------------------------------------------------

  function HexDigit(d: int): char
    requires 0 <= d < 16
  {
    if d < 10 then ('0' as int + d) as char else ('a' as int + d - 10) as char
  }

  function EscapeChar(c: char): string {
    var n := c as int;
    if c == '"' then "\\\""
    else if c == '\\' then "\\\\"
    else if n == 8 then "\\b"
    else if n == 9 then "\\t"
    else if n == 10 then "\\n"
    else if n == 12 then "\\f"
    else if n == 13 then "\\r"
    else if n < 32 then ['\\', 'u', '0', '0', HexDigit(n / 16), HexDigit(n % 16)]
    else [c]
  }

  function Escape(s: string): string {
    if s == "" then "" else EscapeChar(s[0]) + Escape(s[1..])
  }

  function Quote(s: string): string {
    ['"'] + Escape(s) + ['"']
  }

  function Join(parts: seq<string>): string {
    if parts == [] then ""
    else if |parts| == 1 then parts[0]
    else parts[0] + [','] + Join(parts[1..])
  }

  function Canonical(v: Json): string
    decreases v, 1
  {
    match v
    case Null => "null"
    case Bool(b) => if b then "true" else "false"
    case Number(text) => text
    case String(s) => Quote(s)
    case Array(_) => ['['] + Join(CanonicalItems(v)) + [']']
    case Object(_) => ['{'] + Join(Parts(SortByKey(Render(v)))) + ['}']
  }

  function CanonicalItems(v: Json): (texts: seq<string>)
    requires v.Array?
    decreases v, 0
  {
    seq(|v.items|, i requires 0 <= i < |v.items| => Canonical(v.items[i]))
  }

  /** Each entry's value printed, the entries still in their own order. */
  function Render(v: Json): (printed: seq<(string, string)>)
    requires v.Object?
    decreases v, 0
  {
    seq(|v.entries|, i requires 0 <= i < |v.entries| => (v.entries[i].0, Canonical(v.entries[i].1)))
  }

  function Part(p: (string, string)): string {
    Quote(p.0) + [':'] + p.1
  }

  function Parts(printed: seq<(string, string)>): seq<string> {
    seq(|printed|, i requires 0 <= i < |printed| => Part(printed[i]))
  }

  // ---- The reference: equality up to key order ------------------------------------------------------------------

  predicate NumberChar(c: char) {
    '0' <= c <= '9' || c == '-' || c == '+' || c == '.' || c == 'e' || c == 'E'
  }

  /** Numbers are what serde_json prints for some number; objects have no key twice. */
  ghost predicate WellFormed(v: Json) {
    match v
    case Number(text) =>
      text != "" && (text[0] == '-' || '0' <= text[0] <= '9') && forall c :: c in text ==> NumberChar(c)
    case Array(items) => forall i :: 0 <= i < |items| ==> WellFormed(items[i])
    case Object(entries) =>
      DistinctKeys(entries) && forall i :: 0 <= i < |entries| ==> WellFormed(entries[i].1)
    case _ => true
  }

  ghost predicate HasKey(entries: seq<(string, Json)>, key: string) {
    exists i :: 0 <= i < |entries| && entries[i].0 == key
  }

  ghost predicate SameKeys(a: seq<(string, Json)>, b: seq<(string, Json)>) {
    forall key :: HasKey(a, key) <==> HasKey(b, key)
  }

  ghost predicate SameUpToKeyOrder(v: Json, w: Json) {
    match v
    case Array(items) =>
      w.Array? && |items| == |w.items| && forall i :: 0 <= i < |items| ==> SameUpToKeyOrder(items[i], w.items[i])
    case Object(entries) =>
      && w.Object? && SameKeys(entries, w.entries)
      && forall i, j :: 0 <= i < |entries| && 0 <= j < |w.entries| && entries[i].0 == w.entries[j].0 ==>
           SameUpToKeyOrder(entries[i].1, w.entries[j].1)
    case _ => v == w
  }

  // ---- A printed value ends where it must -----------------------------------------------------------------------

  /** What can follow a printed value. */
  ghost predicate Tail(s: string) {
    s == "" || s[0] == ',' || s[0] == ']' || s[0] == '}'
  }

  /** Where one ends and the other ends are the same place. */
  ghost predicate Delimited(x: string, y: string) {
    forall s, t :: Tail(s) && Tail(t) && x + s == y + t ==> x == y && s == t
  }

  /** A character escaped as `\\u00xx`. */
  predicate HexEscaped(c: char) {
    var n := c as int;
    n < 32 && n != 8 && n != 9 && n != 10 && n != 12 && n != 13
  }

  lemma EscapeCharShape(c: char)
    ensures HexEscaped(c) <==> |EscapeChar(c)| == 6
    ensures !HexEscaped(c) ==> |EscapeChar(c)| == 1 || |EscapeChar(c)| == 2
    ensures |EscapeChar(c)| == 1 <==> EscapeChar(c)[0] != '\\'
    ensures |EscapeChar(c)| == 6 <==> EscapeChar(c)[0] == '\\' && EscapeChar(c)[1] == 'u'
    ensures EscapeChar(c)[0] != '"'
    ensures forall d :: d in EscapeChar(c) ==> d != '\n'
  {
  }

  lemma EscapeCharInjective(a: char, b: char)
    requires EscapeChar(a) == EscapeChar(b)
    ensures a == b
  {
    EscapeCharShape(a);
    EscapeCharShape(b);
    if |EscapeChar(a)| == 6 {
      assert EscapeChar(a)[4] == HexDigit(a as int / 16) && EscapeChar(a)[5] == HexDigit(a as int % 16);
      assert EscapeChar(b)[4] == HexDigit(b as int / 16) && EscapeChar(b)[5] == HexDigit(b as int % 16);
    } else if |EscapeChar(a)| == 2 {
      assert EscapeChar(a)[1] == EscapeChar(b)[1];
    } else {
      assert EscapeChar(a)[0] == a && EscapeChar(b)[0] == b;
    }
  }

  lemma EqualLengthPrefix(x: string, y: string, s: string, t: string)
    requires x + s == y + t && |x| == |y|
    ensures x == y && s == t
  {
    assert x == (x + s)[..|x|] && y == (y + t)[..|y|];
    assert s == (x + s)[|x|..] && t == (y + t)[|y|..];
  }

  lemma EscapeCharDelimited(a: char, b: char, s: string, t: string)
    requires EscapeChar(a) + s == EscapeChar(b) + t
    ensures a == b && s == t
  {
    var x, y := EscapeChar(a), EscapeChar(b);
    EscapeCharShape(a);
    EscapeCharShape(b);
    assert x[0] == (x + s)[0] == (y + t)[0] == y[0];
    if |x| > 1 {
      assert x[1] == (x + s)[1] == (y + t)[1] == y[1];
    }
    EqualLengthPrefix(x, y, s, t);
    EscapeCharInjective(a, b);
  }

  lemma {:induction false} EscapeFront(a: string, s: string)
    ensures (Escape(a) + ['"'] + s)[0] == '"' <==> a == ""
    ensures a == "" ==> Escape(a) + ['"'] + s == ['"'] + s
    ensures a != "" ==> Escape(a) + ['"'] + s == EscapeChar(a[0]) + (Escape(a[1..]) + ['"'] + s)
  {
    if a == "" {
      assert Escape(a) + ['"'] + s == ['"'] + s;
    } else {
      EscapeCharShape(a[0]);
      assert Escape(a) + ['"'] + s == EscapeChar(a[0]) + (Escape(a[1..]) + ['"'] + s);
    }
  }

  lemma SameTail(c: char, s: string, d: char, t: string)
    requires [c] + s == [d] + t
    ensures c == d && s == t
  {
    assert s == ([c] + s)[1..] && t == ([d] + t)[1..];
    assert ([c] + s)[0] == c && ([d] + t)[0] == d;
  }

  lemma HeadTail(a: string)
    requires a != ""
    ensures a == [a[0]] + a[1..]
  {
  }

  lemma {:induction false} EscapeDelimited(a: string, b: string, s: string, t: string)
    requires Escape(a) + ['"'] + s == Escape(b) + ['"'] + t
    ensures a == b && s == t
  {
    EscapeFront(a, s);
    EscapeFront(b, t);
    if a == "" {
      SameTail('"', s, '"', t);
    } else {
      EscapeCharDelimited(a[0], b[0], Escape(a[1..]) + ['"'] + s, Escape(b[1..]) + ['"'] + t);
      EscapeDelimited(a[1..], b[1..], s, t);
      HeadTail(a);
      HeadTail(b);
    }
  }

  lemma {:induction false} QuoteShape(a: string, s: string)
    ensures Quote(a) + s == ['"'] + (Escape(a) + ['"'] + s)
  {
  }

  /** A quoted string ends at its own closing quote, whatever follows. */
  lemma QuoteDelimited(a: string, b: string, s: string, t: string)
    requires Quote(a) + s == Quote(b) + t
    ensures a == b && s == t
  {
    QuoteShape(a, s);
    QuoteShape(b, t);
    SameTail('"', Escape(a) + ['"'] + s, '"', Escape(b) + ['"'] + t);
    EscapeDelimited(a, b, s, t);
  }

  lemma PartShape(p: (string, string), s: string)
    ensures Part(p) + s == Quote(p.0) + ([':'] + (p.1 + s))
  {
  }

  lemma PartDelimitedAt(p: (string, string), q: (string, string), s: string, t: string)
    requires Delimited(p.1, q.1)
    requires Tail(s) && Tail(t) && Part(p) + s == Part(q) + t
    ensures p == q && s == t
  {
    PartShape(p, s);
    PartShape(q, t);
    QuoteDelimited(p.0, q.0, [':'] + (p.1 + s), [':'] + (q.1 + t));
    SameTail(':', p.1 + s, ':', q.1 + t);
  }

  lemma PartDelimited(p: (string, string), q: (string, string))
    requires Delimited(p.1, q.1)
    ensures Delimited(Part(p), Part(q))
    ensures Part(p) == Part(q) ==> p == q
  {
    forall s, t | Tail(s) && Tail(t) && Part(p) + s == Part(q) + t ensures Part(p) == Part(q) && s == t {
      PartDelimitedAt(p, q, s, t);
    }
    if Part(p) == Part(q) {
      PartDelimitedAt(p, q, "", "");
    }
  }

  /** Printed parts, none empty or starting as their closing bracket, read back one by one. */
  ghost predicate Readable(a: seq<string>, b: seq<string>, close: char) {
    && (forall i, j :: 0 <= i < |a| && 0 <= j < |b| ==> Delimited(a[i], b[j]))
    && Openable(a, close)
    && Openable(b, close)
  }

  ghost predicate Openable(a: seq<string>, close: char) {
    forall i :: 0 <= i < |a| ==> a[i] != "" && a[i][0] != close
  }

  /** What follows the first part. */
  function Rest(parts: seq<string>, close: char, s: string): string
    requires parts != []
  {
    if |parts| == 1 then [close] + s else [','] + (Join(parts[1..]) + [close] + s)
  }

  lemma {:induction false} JoinRest(parts: seq<string>, close: char, s: string)
    requires parts != []
    ensures Join(parts) + [close] + s == parts[0] + Rest(parts, close, s)
  {
    if |parts| == 1 {
      Associates(parts[0], [close], s);
    } else {
      Regroup(parts[0], [','], Join(parts[1..]), [close], s);
    }
  }

  lemma Regroup(a: string, b: string, c: string, d: string, e: string)
    ensures a + b + c + d + e == a + (b + (c + d + e))
  {
  }

  lemma {:induction false} JoinFront(parts: seq<string>, close: char, s: string)
    requires Openable(parts, close)
    ensures (Join(parts) + [close] + s)[0] == close <==> parts == []
    ensures parts == [] ==> Join(parts) + [close] + s == [close] + s
  {
    if parts == [] {
      assert Join(parts) + [close] + s == [close] + s;
    } else {
      JoinRest(parts, close, s);
    }
  }

  lemma PartsHeadTail(a: seq<string>)
    requires a != []
    ensures a == [a[0]] + a[1..]
    ensures |a| == 1 ==> a == [a[0]]
  {
  }

  lemma {:induction false} JoinDelimited(a: seq<string>, b: seq<string>, close: char, s: string, t: string)
    requires close == ']' || close == '}'
    requires Readable(a, b, close)
    requires Join(a) + [close] + s == Join(b) + [close] + t
    ensures a == b && s == t
  {
    JoinFront(a, close, s);
    JoinFront(b, close, t);
    if a == [] {
      SameTail(close, s, close, t);
    } else {
      JoinRest(a, close, s);
      JoinRest(b, close, t);
      var u, v := Rest(a, close, s), Rest(b, close, t);
      assert Delimited(a[0], b[0]);
      assert Tail(u) && Tail(v);
      PartsHeadTail(a);
      PartsHeadTail(b);
      assert u[0] == v[0];
      if |a| == 1 {
        SameTail(close, s, close, t);
      } else {
        SameTail(',', Join(a[1..]) + [close] + s, ',', Join(b[1..]) + [close] + t);
        JoinDelimited(a[1..], b[1..], close, s, t);
      }
    }
  }

  // ---- Values ---------------------------------------------------------------------------------------------------

  /** The first character tells the kind of value. */
  ghost predicate StartsAs(c: char, v: Json) {
    match v
    case Null => c == 'n'
    case Bool(b) => c == if b then 't' else 'f'
    case Number(_) => c == '-' || '0' <= c <= '9'
    case String(_) => c == '"'
    case Array(_) => c == '['
    case Object(_) => c == '{'
  }

  lemma {:induction false} FirstChar(v: Json)
    requires WellFormed(v)
    ensures Canonical(v) != "" && StartsAs(Canonical(v)[0], v)
  {
  }

  lemma NumberEnds(x: string, s: string)
    requires (forall c :: c in x ==> NumberChar(c)) && Tail(s)
    ensures forall k :: 0 <= k < |x| ==> NumberChar((x + s)[k])
    ensures |x| < |x + s| ==> !NumberChar((x + s)[|x|])
  {
    forall k | 0 <= k < |x| ensures NumberChar((x + s)[k]) { assert (x + s)[k] == x[k] && x[k] in x; }
    if |x| < |x + s| { assert (x + s)[|x|] == s[0]; }
  }

  lemma NumberDelimited(x: string, y: string, s: string, t: string)
    requires forall c :: c in x ==> NumberChar(c)
    requires forall c :: c in y ==> NumberChar(c)
    requires Tail(s) && Tail(t) && x + s == y + t
    ensures x == y && s == t
  {
    NumberEnds(x, s);
    NumberEnds(y, t);
    EqualLengthPrefix(x, y, s, t);
  }

  lemma {:induction false} ItemsOpenable(v: Json)
    requires v.Array? && WellFormed(v)
    ensures Openable(CanonicalItems(v), ']')
  {
    forall i | 0 <= i < |v.items| ensures Canonical(v.items[i]) != "" && Canonical(v.items[i])[0] != ']' {
      FirstChar(v.items[i]);
    }
  }

  lemma {:induction false} ArrayShape(v: Json, s: string)
    requires v.Array?
    ensures Canonical(v) + s == ['['] + (Join(CanonicalItems(v)) + [']'] + s)
  {
    var inner := Join(CanonicalItems(v));
    assert (['['] + inner + [']']) + s == ['['] + (inner + [']'] + s);
  }

  lemma {:induction false} ArrayDelimited(v: Json, w: Json, s: string, t: string)
    requires v.Array? && w.Array? && WellFormed(v) && WellFormed(w)
    requires forall i, j :: 0 <= i < |v.items| && 0 <= j < |w.items| ==>
        Delimited(Canonical(v.items[i]), Canonical(w.items[j]))
    requires Canonical(v) + s == Canonical(w) + t
    ensures Canonical(v) == Canonical(w) && s == t
    ensures CanonicalItems(v) == CanonicalItems(w)
  {
    ArrayShape(v, s);
    ArrayShape(w, t);
    ItemsOpenable(v);
    ItemsOpenable(w);
    var a, b := CanonicalItems(v), CanonicalItems(w);
    assert forall i, j :: 0 <= i < |a| && 0 <= j < |b| ==> Delimited(a[i], b[j]);
    SameTail('[', Join(a) + [']'] + s, '[', Join(b) + [']'] + t);
    JoinDelimited(a, b, ']', s, t);
  }

  function SortedEntries(v: Json): seq<(string, string)>
    requires v.Object?
  {
    SortByKey(Render(v))
  }

  lemma PrintedEntry(v: Json, p: (string, string)) returns (i: nat)
    requires v.Object? && p in SortedEntries(v)
    ensures i < |v.entries| && p == (v.entries[i].0, Canonical(v.entries[i].1))
  {
    var printed := Render(v);
    SortElements(printed);
    assert p in printed;
    i :| 0 <= i < |printed| && printed[i] == p;
  }

  lemma PartOpenable(p: (string, string))
    ensures Part(p) != "" && Part(p)[0] == '"'
  {
    PartShape(p, "");
    QuoteShape(p.0, "");
    assert Quote(p.0)[0] == '"';
  }

  lemma PartsOpenable(printed: seq<(string, string)>)
    ensures Openable(Parts(printed), '}')
  {
    forall i | 0 <= i < |printed| ensures Part(printed[i]) != "" && Part(printed[i])[0] != '}' {
      PartOpenable(printed[i]);
    }
  }

  lemma {:induction false} ObjectShape(v: Json, s: string)
    requires v.Object?
    ensures Canonical(v) + s == ['{'] + (Join(Parts(SortedEntries(v))) + ['}'] + s)
  {
    var inner := Join(Parts(SortedEntries(v)));
    assert (['{'] + inner + ['}']) + s == ['{'] + (inner + ['}'] + s);
  }

  ghost predicate EntriesDelimited(v: Json, w: Json)
    requires v.Object? && w.Object?
  {
    forall i, j :: 0 <= i < |v.entries| && 0 <= j < |w.entries| ==>
      Delimited(Canonical(v.entries[i].1), Canonical(w.entries[j].1))
  }

  lemma PartsReadable(v: Json, w: Json)
    requires v.Object? && w.Object? && EntriesDelimited(v, w)
    ensures Readable(Parts(SortedEntries(v)), Parts(SortedEntries(w)), '}')
    ensures Parts(SortedEntries(v)) == Parts(SortedEntries(w)) ==> SortedEntries(v) == SortedEntries(w)
  {
    var p, q := SortedEntries(v), SortedEntries(w);
    PartsOpenable(p);
    PartsOpenable(q);
    forall i, j | 0 <= i < |p| && 0 <= j < |q|
      ensures Delimited(Part(p[i]), Part(q[j])) && (Part(p[i]) == Part(q[j]) ==> p[i] == q[j])
    {
      var i' := PrintedEntry(v, p[i]);
      var j' := PrintedEntry(w, q[j]);
      PartDelimited(p[i], q[j]);
    }
    if Parts(p) == Parts(q) {
      assert |Parts(p)| == |p| && |Parts(q)| == |q|;
      forall i | 0 <= i < |p| ensures p[i] == q[i] {
        assert Part(p[i]) == Parts(p)[i] == Parts(q)[i] == Part(q[i]);
      }
    }
  }

  lemma {:induction false} ObjectDelimited(v: Json, w: Json, s: string, t: string)
    requires v.Object? && w.Object? && EntriesDelimited(v, w)
    requires Canonical(v) + s == Canonical(w) + t
    ensures Canonical(v) == Canonical(w) && s == t
    ensures SortedEntries(v) == SortedEntries(w)
  {
    ObjectShape(v, s);
    ObjectShape(w, t);
    PartsReadable(v, w);
    var a, b := Parts(SortedEntries(v)), Parts(SortedEntries(w));
    SameTail('{', Join(a) + ['}'] + s, '{', Join(b) + ['}'] + t);
    JoinDelimited(a, b, '}', s, t);
  }

  /** Printed values are read back from the front: unique readability. */
  lemma {:induction false} ValueDelimited(v: Json, w: Json)
    requires WellFormed(v) && WellFormed(w)
    ensures Delimited(Canonical(v), Canonical(w))
    decreases v
  {
    if v.Array? && w.Array? {
      forall i, j | 0 <= i < |v.items| && 0 <= j < |w.items|
        ensures Delimited(Canonical(v.items[i]), Canonical(w.items[j]))
      {
        ValueDelimited(v.items[i], w.items[j]);
      }
    }
    if v.Object? && w.Object? {
      forall i, j | 0 <= i < |v.entries| && 0 <= j < |w.entries|
        ensures Delimited(Canonical(v.entries[i].1), Canonical(w.entries[j].1))
      {
        ValueDelimited(v.entries[i].1, w.entries[j].1);
      }
    }
    forall s, t | Tail(s) && Tail(t) && Canonical(v) + s == Canonical(w) + t
      ensures Canonical(v) == Canonical(w) && s == t
    {
      ValueDelimitedAt(v, w, s, t);
    }
  }

  lemma {:induction false} ValueDelimitedAt(v: Json, w: Json, s: string, t: string)
    requires WellFormed(v) && WellFormed(w)
    requires v.Array? && w.Array? ==>
      forall i, j :: 0 <= i < |v.items| && 0 <= j < |w.items| ==>
        Delimited(Canonical(v.items[i]), Canonical(w.items[j]))
    requires v.Object? && w.Object? ==> EntriesDelimited(v, w)
    requires Tail(s) && Tail(t) && Canonical(v) + s == Canonical(w) + t
    ensures Canonical(v) == Canonical(w) && s == t
  {
    FirstChar(v);
    FirstChar(w);
    assert (Canonical(v) + s)[0] == Canonical(v)[0] && (Canonical(w) + t)[0] == Canonical(w)[0];
    match v
    case Null => EqualLengthPrefix(Canonical(v), Canonical(w), s, t);
    case Bool(_) => EqualLengthPrefix(Canonical(v), Canonical(w), s, t);
    case Number(text) => NumberDelimited(text, w.text, s, t);
    case String(str) => QuoteDelimited(str, w.s, s, t);
    case Array(_) => ArrayDelimited(v, w, s, t);
    case Object(_) => ObjectDelimited(v, w, s, t);
  }

  // ---- The two directions ---------------------------------------------------------------------------------------

  lemma {:induction false} SamePrintMeansSame(v: Json, w: Json)
    requires WellFormed(v) && WellFormed(w) && Canonical(v) == Canonical(w)
    ensures SameUpToKeyOrder(v, w)
    decreases v
  {
    FirstChar(v);
    FirstChar(w);
    match v
    case Array(items) =>
      forall i, j | 0 <= i < |items| && 0 <= j < |w.items|
        ensures Delimited(Canonical(items[i]), Canonical(w.items[j]))
      {
        ValueDelimited(items[i], w.items[j]);
      }
      ArrayDelimited(v, w, "", "");
      assert |CanonicalItems(v)| == |items| && |CanonicalItems(w)| == |w.items|;
      forall i | 0 <= i < |items| ensures SameUpToKeyOrder(items[i], w.items[i]) {
        assert CanonicalItems(v)[i] == CanonicalItems(w)[i];
        SamePrintMeansSame(items[i], w.items[i]);
      }
    case Object(entries) =>
      forall i, j | 0 <= i < |entries| && 0 <= j < |w.entries|
        ensures Delimited(Canonical(entries[i].1), Canonical(w.entries[j].1))
      {
        ValueDelimited(entries[i].1, w.entries[j].1);
      }
      ObjectDelimited(v, w, "", "");
      SameEntriesMatch(v, w);
      SameEntriesMatch(w, v);
      forall i, j | 0 <= i < |entries| && 0 <= j < |w.entries| && entries[i].0 == w.entries[j].0
        ensures SameUpToKeyOrder(entries[i].1, w.entries[j].1)
      {
        SamePrintMeansSame(entries[i].1, w.entries[j].1);
      }
    case String(s) => QuoteDelimited(s, w.s, "", "");
    case _ =>
  }

  /** With the same sorted entries, every key is in both objects, with the same printed value. */
  lemma {:induction false} SameEntriesMatch(v: Json, w: Json)
    requires v.Object? && w.Object? && WellFormed(w) && SortedEntries(v) == SortedEntries(w)
    ensures forall key :: HasKey(v.entries, key) ==> HasKey(w.entries, key)
    ensures forall i, j :: 0 <= i < |v.entries| && 0 <= j < |w.entries| && v.entries[i].0 == w.entries[j].0 ==>
              Canonical(v.entries[i].1) == Canonical(w.entries[j].1)
  {
    SortElements(Render(v));
    forall i | 0 <= i < |v.entries|
      ensures HasKey(w.entries, v.entries[i].0)
      ensures forall j :: 0 <= j < |w.entries| && v.entries[i].0 == w.entries[j].0 ==>
                Canonical(v.entries[i].1) == Canonical(w.entries[j].1)
    {
      assert Render(v)[i] in Render(v);
      var k := PrintedEntry(w, Render(v)[i]);
      assert w.entries[k].0 == v.entries[i].0;
    }
  }

  lemma {:induction false} SameMeansSamePrint(v: Json, w: Json)
    requires WellFormed(v) && WellFormed(w) && SameUpToKeyOrder(v, w)
    ensures Canonical(v) == Canonical(w)
    decreases v, 1
  {
    match v
    case Array(items) =>
      forall i | 0 <= i < |items| ensures Canonical(items[i]) == Canonical(w.items[i]) {
        SameMeansSamePrint(items[i], w.items[i]);
      }
      assert CanonicalItems(v) == CanonicalItems(w);
    case Object(entries) =>
      forall i | 0 <= i < |entries| ensures Render(v)[i] in Render(w) {
        var j := KeyIn(entries, w.entries, i);
        SameEntry(v, w, i, j);
      }
      forall j | 0 <= j < |w.entries| ensures Render(w)[j] in Render(v) {
        var i := KeyIn(w.entries, entries, j);
        SameEntry(v, w, i, j);
      }
      RenderSame(v, w);
    case _ =>
  }

  lemma KeyIn(a: seq<(string, Json)>, b: seq<(string, Json)>, i: nat) returns (j: nat)
    requires (SameKeys(a, b) || SameKeys(b, a)) && i < |a|
    ensures j < |b| && b[j].0 == a[i].0
  {
    assert HasKey(a, a[i].0);
    j :| 0 <= j < |b| && b[j].0 == a[i].0;
  }

  lemma {:induction false} SameEntry(v: Json, w: Json, i: nat, j: nat)
    requires v.Object? && WellFormed(v) && WellFormed(w) && SameUpToKeyOrder(v, w)
    requires i < |v.entries| && j < |w.entries| && v.entries[i].0 == w.entries[j].0
    ensures Render(v)[i] == Render(w)[j]
    decreases v, 0
  {
    SameMeansSamePrint(v.entries[i].1, w.entries[j].1);
  }

  lemma {:induction false} RenderDistinct(v: Json)
    requires v.Object? && WellFormed(v)
    ensures DistinctKeys(Render(v))
  {
  }

  lemma {:induction false} RenderSame(v: Json, w: Json)
    requires v.Object? && w.Object? && WellFormed(v) && WellFormed(w)
    requires forall i :: 0 <= i < |Render(v)| ==> Render(v)[i] in Render(w)
    requires forall i :: 0 <= i < |Render(w)| ==> Render(w)[i] in Render(v)
    ensures SortedEntries(v) == SortedEntries(w)
  {
    SortElements(Render(v));
    SortElements(Render(w));
    RenderDistinct(v);
    RenderDistinct(w);
    SortSorted(Render(v));
    SortSorted(Render(w));
    SortedUnique(SortByKey(Render(v)), SortByKey(Render(w)));
  }

  /** `canonical_json` is unambiguous: same text exactly for values equal up to key order. */
  lemma {:induction false} CanonicalIff(v: Json, w: Json)
    requires WellFormed(v) && WellFormed(w)
    ensures Canonical(v) == Canonical(w) <==> SameUpToKeyOrder(v, w)
  {
    if Canonical(v) == Canonical(w) {
      SamePrintMeansSame(v, w);
    }
    if SameUpToKeyOrder(v, w) {
      SameMeansSamePrint(v, w);
    }
  }

  ghost predicate EntryPrint(v: Json, p: (string, string))
    requires v.Object?
  {
    exists i :: 0 <= i < |v.entries| && p == (v.entries[i].0, Canonical(v.entries[i].1))
  }

  /** An object is printed entry by entry, each once, by ascending key. */
  lemma {:induction false} ObjectPrint(v: Json) returns (p: seq<(string, string)>)
    requires WellFormed(v) && v.Object?
    ensures Canonical(v) == ['{'] + Join(Parts(p)) + ['}'] && |p| == |v.entries|
    ensures forall x :: x in p <==> EntryPrint(v, x)
    ensures forall i, j :: 0 <= i < j < |p| ==> ComesBefore(p[i].0, p[j].0)
  {
    p := SortedEntries(v);
    SortSize(Render(v));
    SortElements(Render(v));
    RenderDistinct(v);
    SortSorted(Render(v));
    forall i, j | 0 <= i < j < |p| ensures ComesBefore(p[i].0, p[j].0) { SortedAscends(p, i, j); }
    forall x ensures x in p <==> EntryPrint(v, x) {
      if EntryPrint(v, x) {
        var i :| 0 <= i < |v.entries| && x == (v.entries[i].0, Canonical(v.entries[i].1));
        assert Render(v)[i] == x;
      }
    }
  }
}
