/** Which backups a janitor pass keeps, and what that makes of the history. */
module Retention {
  import opened FileSystem
  import opened Order

  // A backup survives when fewer than `keep` backups are newer.
  function Newer(s: set<nat>, b: nat): set<nat> { set c | c in s && c > b }

  function Top(keep: nat, s: set<nat>): set<nat> { set b | b in s && |Newer(s, b)| < keep }

  function Newest(keep: int, s: set<nat>): set<nat> { if keep <= 0 then s else Top(keep, s) }

  // By name, as the source sorts them: those after p, and those beyond the last `keep`.
  function After(found: set<Path>, p: Path): set<Path> { set q | q in found && Less(Render(p), Render(q)) }

  function Doomed(keep: int, found: set<Path>): set<Path> {
    if keep <= 0 then {} else set p | p in found && |After(found, p)| >= keep
  }

  function LastN<T>(n: nat, s: seq<T>): seq<T> { if |s| <= n then s else s[|s| - n..] }

  // Without a positive retention nothing is pruned.
  function Retained<T>(keep: int, s: seq<T>): seq<T> { if keep <= 0 then s else LastN(keep, s) }

  predicate IsMax(s: set<nat>, m: nat) { m in s && forall c :: c in s ==> c <= m }

  lemma {:induction false} HasMax(s: set<nat>)
    requires s != {}
    ensures exists m :: IsMax(s, m)
  {
    var a :| a in s;
    if s == {a} {
      assert IsMax(s, a);
    } else {
      HasMax(s - {a});
      var m :| IsMax(s - {a}, m);
      assert s == (s - {a}) + {a};
      assert IsMax(s, if a > m then a else m);
    }
  }

  ghost function Max(s: set<nat>): (m: nat)
    requires s != {}
    ensures IsMax(s, m)
  {
    HasMax(s);
    var m :| IsMax(s, m);
    m
  }

  // The elements in increasing order.
  ghost function Sorted(s: set<nat>): (r: seq<nat>)
    ensures |r| == |s| && forall i :: 0 <= i < |r| ==> r[i] in s
  {
    if s == {} then [] else Sorted(s - {Max(s)}) + [Max(s)]
  }

  lemma {:induction false} SortedIncreases(s: set<nat>)
    ensures forall i, j :: 0 <= i < j < |s| ==> Sorted(s)[i] < Sorted(s)[j]
  {
    if s != {} {
      var m, rest := Max(s), s - {Max(s)};
      SortedIncreases(rest);
      assert Sorted(s) == Sorted(rest) + [m];
      assert forall i :: 0 <= i < |rest| ==> Sorted(rest)[i] in rest;
    }
  }

  lemma {:induction false} SortedHasAll(s: set<nat>, b: nat)
    requires b in s
    ensures b in Sorted(s)
  {
    var m, rest := Max(s), s - {Max(s)};
    assert Sorted(s) == Sorted(rest) + [m];
    if b != m { SortedHasAll(rest, b); }
  }

  lemma SortedAppend(s: set<nat>, m: nat)
    requires forall c :: c in s ==> c < m
    ensures Sorted(s + {m}) == Sorted(s) + [m]
  {
    assert IsMax(s + {m}, m) && Max(s + {m}) == m;
    assert s + {m} - {m} == s;
  }

  predicate Increasing(a: seq<nat>) { forall i, j :: 0 <= i < j < |a| ==> a[i] < a[j] }

  lemma {:induction false} IncreasingUnique(a: seq<nat>, b: seq<nat>)
    requires Increasing(a) && Increasing(b) && forall x :: x in a <==> x in b
    ensures a == b
  {
    assert (a != [] ==> a[0] in a) && (b != [] ==> b[0] in b);
    if a != [] && b != [] {
      assert a[0] in b && b[0] in a && a[0] == b[0];
      forall x
        ensures x in a[1..] <==> x in b[1..]
      {
        if x in a[1..] { assert x in a && a[0] < x; }
        if x in b[1..] { assert x in b && b[0] < x; }
      }
      IncreasingUnique(a[1..], b[1..]);
    }
  }

  lemma SortedHas(s: set<nat>)
    ensures forall x :: x in Sorted(s) <==> x in s
  {
    forall x | x in s
      ensures x in Sorted(s)
    {
      SortedHasAll(s, x);
    }
  }

  predicate Precedes(s: set<nat>, t: set<nat>) { forall x, y :: x in s && y in t ==> x < y }

  lemma SortedUnion(s: set<nat>, t: set<nat>, u: set<nat>, a: seq<nat>, b: seq<nat>)
    requires Precedes(s, t) && u == s + t && a == Sorted(s) && b == Sorted(t)
    ensures Sorted(u) == a + b
  {
    SortedIncreases(s);
    SortedIncreases(t);
    SortedIncreases(u);
    SortedHas(s);
    SortedHas(t);
    SortedHas(u);
    forall i, j | 0 <= i < j < |a + b|
      ensures (a + b)[i] < (a + b)[j]
    {
      if i < |a| <= j { assert a[i] in s && b[j - |a|] in t; }
    }
    IncreasingUnique(Sorted(u), a + b);
  }

  lemma TopOfMax(keep: nat, s: set<nat>, m: nat)
    requires keep > 0 && IsMax(s, m)
    ensures Top(keep, s) == Top(keep - 1, s - {m}) + {m}
  {
    assert Newer(s, m) == {};
    forall b | b in s && b != m
      ensures |Newer(s, b)| == |Newer(s - {m}, b)| + 1
    {
      assert Newer(s, b) == Newer(s - {m}, b) + {m};
    }
  }

  lemma LastAppend<T>(n: nat, a: seq<T>, x: T)
    ensures LastN(n + 1, a + [x]) == LastN(n, a) + [x]
  {
  }

  lemma SortedTop(keep: nat, s: set<nat>, m: nat, top: set<nat>)
    requires keep > 0 && IsMax(s, m) && top <= s - {m} && Sorted(top) == LastN(keep - 1, Sorted(s - {m}))
    ensures Sorted(top + {m}) == LastN(keep, Sorted(s))
  {
    SortedAppend(top, m);
    SortedAppend(s - {m}, m);
    assert s - {m} + {m} == s;
    LastAppend(keep - 1, Sorted(s - {m}), m);
  }

  // Pruning keeps exactly the last `keep` backups in time order.
  lemma {:induction false} TopIsLast(keep: nat, s: set<nat>, top: set<nat>)
    requires top == Top(keep, s)
    ensures Sorted(top) == LastN(keep, Sorted(s))
    decreases |s|
  {
    if s == {} || keep == 0 {
      assert top == {};
    } else {
      var m := Max(s);
      TopIsLast(keep - 1, s - {m}, Top(keep - 1, s - {m}));
      SortedTop(keep, s, m, Top(keep - 1, s - {m}));
      TopOfMax(keep, s, m);
    }
  }

  lemma LastTwice<T>(n: nat, a: seq<T>, b: seq<T>)
    ensures LastN(n, LastN(n, a) + b) == LastN(n, a + b)
  {
  }

  // A backup survives exactly when it is among the last `keep` in time order.
  lemma RankSurvives(keep: nat, s: set<nat>, i: nat)
    requires i < |Sorted(s)|
    ensures Sorted(s)[i] in Top(keep, s) <==> i + keep >= |Sorted(s)|
  {
    NewerByRank(s, i);
  }

  // As many are newer as come after it.
  lemma {:induction false} NewerByRank(s: set<nat>, i: nat)
    requires i < |Sorted(s)|
    ensures Sorted(s)[i] in s && |Newer(s, Sorted(s)[i])| == |Sorted(s)| - 1 - i
    decreases |s|
  {
    var m, rest := Max(s), s - {Max(s)};
    if i < |Sorted(rest)| {
      NewerByRank(rest, i);
      assert Newer(s, Sorted(s)[i]) == Newer(rest, Sorted(rest)[i]) + {m};
    } else {
      assert Newer(s, m) == {};
    }
  }
}
