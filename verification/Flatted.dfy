/** Decoding the "flatted" form of execution data (src/n8n/migrate.rs): an array whose first entry is the root and
    whose strings, inside objects and arrays, name other entries by index. */
module Flatted {

  import opened Decimals
  import opened JsonValues
  import opened Workflows

  const DEPTH_LIMIT := 10_000

  // ---- Decoding -------------------------------------------------------------------------------------------------

  /** An unsigned number, perhaps with a plus sign. */
  function ParseIndex(s: string): Option<nat> {
    var digits := if s != "" && s[0] == '+' then s[1..] else s;
    if digits != "" && AllDigits(digits) then Some(Value(digits)) else None
  }

  predicate Container(v: Json) {
    v.Object? || v.Array?
  }

  function Lookup(arr: seq<Json>, idx: string): Option<Json> {
    match ParseIndex(idx)
    case Some(i) => if i < |arr| then Some(arr[i]) else None
    case None => None
  }

  function Deref(arr: seq<Json>, x: Json, depth: nat): Json
    requires depth <= DEPTH_LIMIT
    decreases DEPTH_LIMIT + 1 - depth, 0
  {
    if x.String? then
      match Lookup(arr, x.s)
      case Some(t) => if Container(t) then Resolve(arr, t, depth + 1) else t
      case None => Null
    else x
  }

  function Resolve(arr: seq<Json>, v: Json, depth: nat): Json
    requires depth <= DEPTH_LIMIT + 1
    decreases DEPTH_LIMIT + 1 - depth, 1
  {
    if depth > DEPTH_LIMIT then Null
    else
      match v
      case Object(entries) =>
        Object(seq(|entries|, i requires 0 <= i < |entries| => (entries[i].0, Deref(arr, entries[i].1, depth))))
      case Array(items) => Array(seq(|items|, i requires 0 <= i < |items| => Deref(arr, items[i], depth)))
      case _ => v
  }

  function Unflatten(flat: Json): Json {
    if !flat.Array? then flat
    else if flat.items == [] then Null
    else if Container(flat.items[0]) then Resolve(flat.items, flat.items[0], 0)
    else flat.items[0]
  }

  // ---- What an encoding is --------------------------------------------------------------------------------------

  /** `e` is the entry for `v`: strings and containers inside it are named by index, everything else stands there. */
  ghost predicate EntryFor(arr: seq<Json>, e: Json, v: Json)
    decreases v, 1
  {
    match v
    case Object(entries) =>
      && e.Object? && |e.entries| == |entries|
      && forall i :: 0 <= i < |entries| ==> e.entries[i].0 == entries[i].0 && Names(arr, e.entries[i].1, entries[i].1)
    case Array(items) =>
      && e.Array? && |e.items| == |items|
      && forall i :: 0 <= i < |items| ==> Names(arr, e.items[i], items[i])
    case _ => e == v
  }

  ghost predicate Names(arr: seq<Json>, x: Json, v: Json)
    decreases v, 2
  {
    if Container(v) || v.String? then x.String? && Lookup(arr, x.s).Some? && EntryFor(arr, Lookup(arr, x.s).value, v)
    else x == v || (v.Null? && Dangling(arr, x))
  }

  /** A string that is no index of an entry stands for null. */
  predicate Dangling(arr: seq<Json>, x: Json) {
    x.String? && forall i :: 0 <= i < |arr| ==> !IsIndex(x.s, i)
  }

  /** The number in decimal digits, perhaps with a plus sign. */
  predicate IsIndex(s: string, n: nat) {
    var digits := if s != "" && s[0] == '+' then s[1..] else s;
    digits != "" && AllDigits(digits) && Value(digits) == n
  }

  /** Anything but an array stands for itself, and an empty array for null. */
  ghost predicate Encodes(flat: Json, v: Json) {
    if !flat.Array? then v == flat
    else if flat.items == [] then v.Null?
    else EntryFor(flat.items, flat.items[0], v)
  }

  lemma LookupIs(arr: seq<Json>, s: string, i: nat)
    requires i < |arr|
    ensures IsIndex(s, i) ==> Lookup(arr, s) == Some(arr[i])
    ensures Lookup(arr, s).None? ==> !IsIndex(s, i)
  {
  }

  lemma DanglingIs(arr: seq<Json>, x: Json)
    requires x.String?
    ensures Dangling(arr, x) <==> Lookup(arr, x.s).None?
  {
    if Lookup(arr, x.s).None? {
      forall i | 0 <= i < |arr| ensures !IsIndex(x.s, i) { LookupIs(arr, x.s, i); }
    } else {
      assert IsIndex(x.s, Value(if x.s != "" && x.s[0] == '+' then x.s[1..] else x.s));
    }
  }

  /** At most `n` containers lie one inside the other. */
  predicate NestedWithin(v: Json, n: int)
    decreases v
  {
    match v
    case Object(entries) => n > 0 && forall i :: 0 <= i < |entries| ==> NestedWithin(entries[i].1, n - 1)
    case Array(items) => n > 0 && forall i :: 0 <= i < |items| ==> NestedWithin(items[i], n - 1)
    case _ => true
  }

  // ---- Decoding undoes encoding, down to the depth limit --------------------------------------------------------

  lemma {:induction false} DerefIff(arr: seq<Json>, x: Json, v: Json, depth: nat)
    requires depth <= DEPTH_LIMIT && Names(arr, x, v)
    ensures Deref(arr, x, depth) == v <==> NestedWithin(v, DEPTH_LIMIT - depth)
    decreases v, 2
  {
    if Container(v) {
      ResolveIff(arr, Lookup(arr, x.s).value, v, depth + 1);
    } else if x.String? {
      DanglingIs(arr, x);
    }
  }

  lemma {:induction false} ResolveIff(arr: seq<Json>, e: Json, v: Json, depth: nat)
    requires depth <= DEPTH_LIMIT + 1 && Container(v) && EntryFor(arr, e, v)
    ensures Resolve(arr, e, depth) == v <==> NestedWithin(v, DEPTH_LIMIT + 1 - depth)
    decreases v, 1
  {
    if depth <= DEPTH_LIMIT {
      var r := Resolve(arr, e, depth);
      match v
      case Object(entries) =>
        forall i | 0 <= i < |entries|
          ensures r.entries[i] == entries[i] <==> NestedWithin(entries[i].1, DEPTH_LIMIT - depth)
        {
          DerefIff(arr, e.entries[i].1, entries[i].1, depth);
        }
        assert r.entries == entries <==> forall i :: 0 <= i < |entries| ==> r.entries[i] == entries[i];
      case Array(items) =>
        forall i | 0 <= i < |items| ensures r.items[i] == items[i] <==> NestedWithin(items[i], DEPTH_LIMIT - depth) {
          DerefIff(arr, e.items[i], items[i], depth);
        }
        assert r.items == items <==> forall i :: 0 <= i < |items| ==> r.items[i] == items[i];
    }
  }

  /** Whatever entries it shares, an encoding of a value decodes to the value exactly when no more containers are
      nested in it than the limit allows, the root among them; what is no array is not decoded. */
  lemma {:induction false} UnflattenIff(flat: Json, v: Json)
    requires Encodes(flat, v)
    ensures Unflatten(flat) == v <==> !flat.Array? || NestedWithin(v, 10_001)
  {
    if Container(v) && flat.Array? {
      ResolveIff(flat.items, flat.items[0], v, 0);
    }
  }

  // ---- Every value has an encoding ------------------------------------------------------------------------------

  function Size(v: Json): nat {
    match v
    case Object(entries) => |entries|
    case Array(items) => |items|
    case _ => 0
  }

  function Child(v: Json, i: nat): (c: Json)
    requires i < Size(v)
    ensures c < v
  {
    match v
    case Object(entries) => entries[i].1
    case Array(items) => items[i]
  }

  predicate NeedsEntry(v: Json) {
    Container(v) || v.String?
  }

  /** The entries for `v` and all below it, the first at index `base`. */
  function Block(v: Json, base: nat): (b: seq<Json>)
    ensures b != []
    decreases v, 1, 0
  {
    if Container(v) then [Entry(v, RefsFrom(v, 0, base + 1))] + BlocksFrom(v, 0, base + 1) else [v]
  }

  function Inner(c: Json, base: nat): seq<Json>
    decreases c, 2, 0
  {
    if NeedsEntry(c) then Block(c, base) else []
  }

  function BlocksFrom(v: Json, i: nat, base: nat): seq<Json>
    requires i <= Size(v)
    decreases v, 0, Size(v) - i
  {
    if i == Size(v) then []
    else
      var b := Inner(Child(v, i), base);
      b + BlocksFrom(v, i + 1, base + |b|)
  }

  function RefsFrom(v: Json, i: nat, base: nat): (refs: seq<Json>)
    requires i <= Size(v)
    ensures |refs| == Size(v) - i
    decreases v, 0, Size(v) - i
  {
    if i == Size(v) then []
    else
      var c := Child(v, i);
      [if NeedsEntry(c) then String(Decimal(base)) else c] + RefsFrom(v, i + 1, base + |Inner(c, base)|)
  }

  function Entry(v: Json, refs: seq<Json>): Json
    requires Container(v) && |refs| == Size(v)
  {
    match v
    case Object(entries) => Object(seq(|entries|, i requires 0 <= i < |entries| => (entries[i].0, refs[i])))
    case Array(_) => Array(refs)
  }

  /** One entry for each string and container, none shared. */
  function Flatten(v: Json): Json {
    Array(Block(v, 0))
  }

  ghost predicate HoldsAt(arr: seq<Json>, block: seq<Json>, base: nat) {
    base + |block| <= |arr| && arr[base..base + |block|] == block
  }

  lemma HoldsParts(arr: seq<Json>, x: seq<Json>, y: seq<Json>, base: nat)
    requires HoldsAt(arr, x + y, base)
    ensures HoldsAt(arr, x, base) && HoldsAt(arr, y, base + |x|)
  {
    var all := arr[base..base + |x + y|];
    assert all[..|x|] == x && all[|x|..] == y;
  }

  lemma {:induction false} LookupDecimal(arr: seq<Json>, n: nat)
    requires n < |arr|
    ensures Lookup(arr, Decimal(n)) == Some(arr[n])
  {
    DecimalValue(n);
    assert Decimal(n)[0] in Decimal(n);
  }

  lemma {:induction false} BlockEncodes(arr: seq<Json>, v: Json, base: nat)
    requires HoldsAt(arr, Block(v, base), base)
    ensures base < |arr| && EntryFor(arr, arr[base], v)
    decreases v, 3, 0
  {
    assert arr[base] == arr[base..base + |Block(v, base)|][0];
    if Container(v) {
      var refs := RefsFrom(v, 0, base + 1);
      HoldsParts(arr, [Entry(v, refs)], BlocksFrom(v, 0, base + 1), base);
      forall k | 0 <= k < Size(v) ensures Names(arr, refs[k], Child(v, k)) { RefNames(arr, v, 0, base + 1, k); }
    }
  }

  lemma BlocksSplit(arr: seq<Json>, v: Json, i: nat, base: nat)
    requires i < Size(v) && HoldsAt(arr, BlocksFrom(v, i, base), base)
    ensures var b := Inner(Child(v, i), base);
            HoldsAt(arr, b, base) && HoldsAt(arr, BlocksFrom(v, i + 1, base + |b|), base + |b|)
  {
    var b := Inner(Child(v, i), base);
    HoldsParts(arr, b, BlocksFrom(v, i + 1, base + |b|), base);
  }

  lemma RefsSplit(v: Json, i: nat, base: nat)
    requires i < Size(v)
    ensures var c := Child(v, i);
            RefsFrom(v, i, base) == [if NeedsEntry(c) then String(Decimal(base)) else c]
              + RefsFrom(v, i + 1, base + |Inner(c, base)|)
  {
  }

  lemma {:induction false} RefNames(arr: seq<Json>, v: Json, i: nat, base: nat, k: nat)
    requires i + k < Size(v) && HoldsAt(arr, BlocksFrom(v, i, base), base)
    ensures Names(arr, RefsFrom(v, i, base)[k], Child(v, i + k))
    decreases v, 2, k
  {
    var b := Inner(Child(v, i), base);
    BlocksSplit(arr, v, i, base);
    RefsSplit(v, i, base);
    if k > 0 {
      RefNames(arr, v, i + 1, base + |b|, k - 1);
      assert RefsFrom(v, i, base)[k] == RefsFrom(v, i + 1, base + |b|)[k - 1];
    } else {
      RefNamesChild(arr, v, i, base);
    }
  }

  lemma {:induction false} RefNamesChild(arr: seq<Json>, v: Json, i: nat, base: nat)
    requires i < Size(v) && HoldsAt(arr, Inner(Child(v, i), base), base)
    ensures var c := Child(v, i); Names(arr, if NeedsEntry(c) then String(Decimal(base)) else c, c)
    decreases v, 1, 0
  {
    var c := Child(v, i);
    if NeedsEntry(c) {
      BlockEncodes(arr, c, base);
      LookupDecimal(arr, base);
    }
  }

  /** A round trip gives back every value nested no deeper than the limit allows, and no other. */
  lemma {:induction false} FlattenUnflatten(v: Json)
    ensures Unflatten(Flatten(v)) == v <==> NestedWithin(v, 10_001)
  {
    var arr := Block(v, 0);
    assert arr[0..0 + |arr|] == arr;
    BlockEncodes(arr, v, 0);
    UnflattenIff(Flatten(v), v);
  }
}
