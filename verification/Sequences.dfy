/** Small facts about sequences and finite sets that the other modules lean on. */
module Sequences {

  /** The parts one after another. */
  function Concat<T>(parts: seq<seq<T>>): seq<T> {
    if parts == [] then [] else Concat(parts[..|parts| - 1]) + parts[|parts| - 1]
  }

  lemma {:induction false} ConcatCons<T>(first: seq<T>, parts: seq<seq<T>>)
    ensures Concat([first] + parts) == first + Concat(parts)
  {
    var all := [first] + parts;
    if parts == [] {
      assert all[..0] == [];
    } else {
      ConcatCons(first, parts[..|parts| - 1]);
      assert all[..|all| - 1] == [first] + parts[..|parts| - 1];
    }
  }

  lemma Snoc<T>(s: seq<T>, i: nat)
    requires i < |s|
    ensures s[..i + 1] == s[..i] + [s[i]]
  {
  }

  lemma TakeAll<T>(s: seq<T>)
    ensures s[..|s|] == s
  {
  }

  lemma Associates<T>(a: seq<T>, b: seq<T>, c: seq<T>)
    ensures (a + b) + c == a + (b + c)
  {
  }

  ghost predicate NoRepeats<T(!new)>(s: seq<T>) {
    forall i, j :: 0 <= i < j < |s| ==> s[i] != s[j]
  }

  ghost function Elements<T(!new)>(s: seq<T>): set<T> {
    set x | x in s
  }

  lemma {:induction false} NoRepeatsCount<T(!new)>(s: seq<T>)
    ensures |Elements(s)| <= |s|
    ensures |Elements(s)| == |s| <==> NoRepeats(s)
  {
    if s != [] {
      var t := s[..|s| - 1];
      var x := s[|s| - 1];
      NoRepeatsCount(t);
      assert s == t + [x];
      assert Elements(s) == Elements(t) + {x};
      if x !in t {
        assert NoRepeats(s) <==> NoRepeats(t);
      } else {
        var i :| 0 <= i < |t| && t[i] == x;
        assert s[i] == s[|s| - 1];
        assert Elements(s) == Elements(t);
      }
    }
  }

  lemma SubsetCount<T>(a: set<T>, b: set<T>)
    requires a <= b
    ensures |a| <= |b|
    ensures |a| == |b| ==> a == b
  {
    assert b == a + (b - a);
  }

  lemma {:induction false} NoRepeatsMultiset<T(!new)>(s: seq<T>, x: T)
    requires NoRepeats(s)
    ensures multiset(s)[x] == if x in s then 1 else 0
  {
    if s != [] {
      var t := s[..|s| - 1];
      NoRepeatsMultiset(t, x);
      assert s == t + [s[|s| - 1]];
    }
  }

  lemma SameElementsSameMultiset<T(!new)>(s: seq<T>, t: seq<T>)
    requires NoRepeats(s) && NoRepeats(t)
    requires forall x :: x in s <==> x in t
    ensures multiset(s) == multiset(t)
  {
    forall x ensures multiset(s)[x] == multiset(t)[x] {
      NoRepeatsMultiset(s, x);
      NoRepeatsMultiset(t, x);
    }
  }

  lemma NoRepeatsConcat<T(!new)>(a: seq<T>, b: seq<T>)
    ensures NoRepeats(a + b) <==> NoRepeats(a) && NoRepeats(b) && forall x :: x in a ==> x !in b
  {
    var s := a + b;
    if NoRepeats(s) {
      forall i, j | 0 <= i < j < |a| ensures a[i] != a[j] { assert s[i] == a[i] && s[j] == a[j]; }
      forall i, j | 0 <= i < j < |b| ensures b[i] != b[j] { assert s[|a| + i] == b[i] && s[|a| + j] == b[j]; }
      forall i, j | 0 <= i < |a| && 0 <= j < |b| ensures a[i] != b[j] { assert s[i] == a[i] && s[|a| + j] == b[j]; }
    }
    if NoRepeats(a) && NoRepeats(b) && forall x :: x in a ==> x !in b {
      forall i, j | 0 <= i < j < |s| ensures s[i] != s[j] {
        assert i < |a| ==> s[i] == a[i] && s[i] in a;
        assert j >= |a| ==> s[j] == b[j - |a|] && s[j] in b;
      }
    }
  }
}
