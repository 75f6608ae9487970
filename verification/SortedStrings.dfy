/** Sorting by string keys, in the order Rust compares strings. */
module SortedStrings {

  predicate Less(a: string, b: string) {
    if b == "" then false
    else if a == "" then true
    else a[0] < b[0] || (a[0] == b[0] && Less(a[1..], b[1..]))
  }

  /** The strings are alike up to some place, where the first ends or has the smaller character. */
  ghost predicate ComesBefore(a: string, b: string) {
    exists k: nat :: ParTo(a, b, k) && (k == |a| || a[k] < b[k])
  }

  predicate ParTo(a: string, b: string, k: nat) {
    k <= |a| && k < |b| && a[..k] == b[..k]
  }

  lemma {:induction false} LessIsBefore(a: string, b: string)
    ensures Less(a, b) <==> ComesBefore(a, b)
  {
    if a == "" || b == "" {
      if b != "" { assert ParTo(a, b, 0); }
    } else {
      LessIsBefore(a[1..], b[1..]);
      assert a == [a[0]] + a[1..] && b == [b[0]] + b[1..];
      if a[0] < b[0] { assert ParTo(a, b, 0); }
      if a[0] == b[0] && ComesBefore(a[1..], b[1..]) {
        var k: nat :| ParTo(a[1..], b[1..], k) && (k == |a[1..]| || a[1..][k] < b[1..][k]);
        assert a[..k + 1] == [a[0]] + a[1..][..k] && b[..k + 1] == [b[0]] + b[1..][..k];
        assert ParTo(a, b, k + 1);
      }
      if ComesBefore(a, b) && a[0] >= b[0] {
        var k: nat :| ParTo(a, b, k) && (k == |a| || a[k] < b[k]);
        assert k > 0 && a[..k][0] == a[0] && b[..k][0] == b[0];
        assert a[1..][..k - 1] == a[..k][1..] && b[1..][..k - 1] == b[..k][1..];
        assert ParTo(a[1..], b[1..], k - 1);
      }
    }
  }

  lemma {:induction false} LessTotal(a: string, b: string)
    ensures Less(a, b) || a == b || Less(b, a)
    ensures !(Less(a, b) && Less(b, a))
    ensures !Less(a, a)
  {
    if a != "" && b != "" {
      LessTotal(a[1..], b[1..]);
      LessTotal(a[1..], a[1..]);
      if a[0] == b[0] && a[1..] == b[1..] {
        assert a == [a[0]] + a[1..] && b == [b[0]] + b[1..];
      }
    } else if a != "" {
      LessTotal(a[1..], a[1..]);
    }
  }

  lemma {:induction false} LessTransitive(a: string, b: string, c: string)
    requires Less(a, b) && Less(b, c)
    ensures Less(a, c)
  {
    if a != "" && a[0] == b[0] && b[0] == c[0] {
      LessTransitive(a[1..], b[1..], c[1..]);
    }
  }

  function Insert<T>(p: (string, T), s: seq<(string, T)>): seq<(string, T)> {
    if s == [] then [p]
    else if Less(s[0].0, p.0) then [s[0]] + Insert(p, s[1..])
    else [p] + s
  }

  function SortByKey<T>(s: seq<(string, T)>): seq<(string, T)> {
    if s == [] then [] else Insert(s[0], SortByKey(s[1..]))
  }

  lemma {:induction false} InsertElements<T(!new)>(p: (string, T), s: seq<(string, T)>)
    ensures forall x :: x in Insert(p, s) <==> x == p || x in s
  {
    if s != [] && Less(s[0].0, p.0) {
      InsertElements(p, s[1..]);
      assert s == [s[0]] + s[1..];
    }
  }

  lemma {:induction false} SortElements<T(!new)>(s: seq<(string, T)>)
    ensures forall x :: x in SortByKey(s) <==> x in s
  {
    if s != [] {
      SortElements(s[1..]);
      InsertElements(s[0], SortByKey(s[1..]));
      assert s == [s[0]] + s[1..];
    }
  }

  /** The first entry comes before all others, and so on. */
  ghost predicate StrictlySorted<T(!new)>(s: seq<(string, T)>) {
    s == [] || ((forall x :: x in s[1..] ==> Less(s[0].0, x.0)) && StrictlySorted(s[1..]))
  }

  lemma {:induction false} InsertSorted<T(!new)>(p: (string, T), s: seq<(string, T)>)
    requires StrictlySorted(s) && forall x :: x in s ==> x.0 != p.0
    ensures StrictlySorted(Insert(p, s))
  {
    var r := Insert(p, s);
    if s == [] {
      assert r[1..] == [];
    } else {
      LessTotal(s[0].0, p.0);
      assert s == [s[0]] + s[1..];
      if Less(s[0].0, p.0) {
        InsertSorted(p, s[1..]);
        InsertElements(p, s[1..]);
        assert r[1..] == Insert(p, s[1..]);
      } else {
        assert r[1..] == s;
        forall x | x in s ensures Less(p.0, x.0) {
          if x != s[0] { LessTransitive(p.0, s[0].0, x.0); }
        }
      }
    }
  }

  ghost predicate DistinctKeys<T(!new)>(s: seq<(string, T)>) {
    forall i, j :: 0 <= i < j < |s| ==> s[i].0 != s[j].0
  }

  lemma {:induction false} SortSorted<T(!new)>(s: seq<(string, T)>)
    requires DistinctKeys(s)
    ensures StrictlySorted(SortByKey(s))
  {
    if s != [] {
      SortSorted(s[1..]);
      SortElements(s[1..]);
      InsertSorted(s[0], SortByKey(s[1..]));
    }
  }

  lemma {:induction false} SortedAscends<T(!new)>(s: seq<(string, T)>, i: nat, j: nat)
    requires StrictlySorted(s) && i < j < |s|
    ensures ComesBefore(s[i].0, s[j].0)
  {
    if i == 0 {
      assert s[1..][j - 1] == s[j];
      LessIsBefore(s[0].0, s[j].0);
    } else {
      SortedAscends(s[1..], i - 1, j - 1);
    }
  }

  lemma {:induction false} SortSize<T>(s: seq<(string, T)>)
    ensures |SortByKey(s)| == |s|
  {
    if s != [] {
      SortSize(s[1..]);
      InsertSize(s[0], SortByKey(s[1..]));
    }
  }

  lemma {:induction false} InsertSize<T>(p: (string, T), s: seq<(string, T)>)
    ensures |Insert(p, s)| == |s| + 1
  {
    if s != [] && Less(s[0].0, p.0) { InsertSize(p, s[1..]); }
  }

  lemma {:induction false} SortedHead<T(!new)>(s: seq<(string, T)>, x: (string, T))
    requires StrictlySorted(s) && x in s
    ensures x == s[0] || Less(s[0].0, x.0)
  {
    assert s == [s[0]] + s[1..];
  }

  lemma {:induction false} SortedTail<T(!new)>(s: seq<(string, T)>, x: (string, T))
    requires s != [] && StrictlySorted(s)
    ensures x in s[1..] <==> x in s && x != s[0]
  {
    assert s == [s[0]] + s[1..];
    LessTotal(s[0].0, s[0].0);
  }

  /** There is one strictly sorted list of given entries. */
  lemma {:induction false} SortedUnique<T(!new)>(s: seq<(string, T)>, t: seq<(string, T)>)
    requires StrictlySorted(s) && StrictlySorted(t)
    requires forall x :: x in s <==> x in t
    ensures s == t
  {
    assert s != [] ==> s[0] in s;
    assert t != [] ==> t[0] in t;
    if s != [] && t != [] {
      assert s[0] in t && t[0] in s;
      SortedHead(s, t[0]);
      SortedHead(t, s[0]);
      LessTotal(s[0].0, t[0].0);
      forall x ensures x in s[1..] <==> x in t[1..] {
        SortedTail(s, x);
        SortedTail(t, x);
      }
      SortedUnique(s[1..], t[1..]);
      assert s == [s[0]] + s[1..] && t == [t[0]] + t[1..];
    }
  }
}
