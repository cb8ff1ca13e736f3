/**
 File names as strings: the zero-padded timestamp, the two suffixes, which names
 a backup listing picks up, and what pruning by name order removes.
 */
module Names {
  import opened FileSystem
  import opened Retention
  import opened Order

  // ----- the timestamp -----

  function Pow10(w: nat): nat { if w == 0 then 1 else 10 * Pow10(w - 1) }

  // The last w decimal digits.
  function Pad(n: nat, w: nat): (s: string)
    ensures |s| == w && forall i :: 0 <= i < w ==> IsDigit(s[i])
  {
    if w == 0 then [] else Pad(n / 10, w - 1) + [Digit(n % 10)]
  }

  lemma {:induction false} PadZero(w: nat)
    ensures Pad(0, w) == Zeros(w)
  {
    if w > 0 { PadZero(w - 1); }
  }

  lemma {:induction false} DecimalIsPad(n: nat, w: nat)
    requires n < Pow10(w) && w > 0
    ensures |Decimal(n)| <= w && Pad(n, w) == Zeros(w - |Decimal(n)|) + Decimal(n)
  {
    if n < 10 {
      PadZero(w - 1);
    } else {
      DecimalIsPad(n / 10, w - 1);
      var zeros, d := Zeros(w - |Decimal(n)|), [Digit(n % 10)];
      assert zeros + (Decimal(n / 10) + d) == (zeros + Decimal(n / 10)) + d;
    }
  }

  lemma {:induction false} LessAppend(x: string, y: string, c: char, d: char)
    requires |x| == |y|
    ensures Less(x + [c], y + [d]) <==> Less(x, y) || (x == y && c < d)
    ensures x + [c] == y + [d] <==> x == y && c == d
  {
    assert (x + [c])[..|x|] == x && (y + [d])[..|y|] == y;
    assert (x + [c])[|x|] == c && (y + [d])[|y|] == d;
    if x != [] {
      LessAppend(x[1..], y[1..], c, d);
      assert (x + [c])[1..] == x[1..] + [c] && (y + [d])[1..] == y[1..] + [d];
      assert x == [x[0]] + x[1..] && y == [y[0]] + y[1..];
    }
  }

  lemma {:induction false} PadOrder(a: nat, b: nat, w: nat)
    requires a < Pow10(w) && b < Pow10(w)
    ensures Less(Pad(a, w), Pad(b, w)) <==> a < b
    ensures Pad(a, w) == Pad(b, w) <==> a == b
  {
    if w > 0 {
      PadOrder(a / 10, b / 10, w - 1);
      LessAppend(Pad(a / 10, w - 1), Pad(b / 10, w - 1), Digit(a % 10), Digit(b % 10));
    }
  }

  // Every non-negative 64-bit time is exactly 19 digits.
  lemma NanosStrIsPad(n: nat)
    requires n <= MAX_NANOS
    ensures n < Pow10(19) && NanosStr(n) == Pad(n, 19)
  {
    assert Pow10(4) == 10_000 && Pow10(8) == 100_000_000 && Pow10(12) == 1_000_000_000_000;
    assert Pow10(16) == 10_000_000_000_000_000 && Pow10(19) == 10_000_000_000_000_000_000;
    DecimalIsPad(n, 19);
  }

  // ... and their name order is their time order.
  lemma NanosOrder(a: nat, b: nat)
    requires a <= MAX_NANOS && b <= MAX_NANOS
    ensures |NanosStr(a)| == 19
    ensures Less(NanosStr(a), NanosStr(b)) <==> a < b
    ensures NanosStr(a) == NanosStr(b) <==> a == b
  {
    NanosStrIsPad(a);
    NanosStrIsPad(b);
    PadOrder(a, b, 19);
  }

  // ----- names -----

  lemma SiblingName(d: string, suffix: string, n: nat)
    requires suffix == TEMP_SUFFIX || suffix == BACKUP_SUFFIX
    ensures var s := d + suffix + NanosStr(n);
            && |s| == |d| + 13 + |NanosStr(n)| && s[..|d|] == d
            && s[|d|..|d| + 13] == suffix && s[|d| + 13..] == NanosStr(n)
  {
  }

  lemma SiblingInjective(d: string, s: string, n: nat, e: string, t: string, m: nat)
    requires (s == TEMP_SUFFIX || s == BACKUP_SUFFIX) && (t == TEMP_SUFFIX || t == BACKUP_SUFFIX)
    requires n <= MAX_NANOS && m <= MAX_NANOS && d + s + NanosStr(n) == e + t + NanosStr(m)
    ensures d == e && s == t && n == m
  {
    NanosOrder(n, m);
    NanosOrder(m, n);
    SiblingName(d, s, n);
    SiblingName(e, t, m);
  }

  function SuffixOf(p: Path): string { if p.Temp? then TEMP_SUFFIX else BACKUP_SUFFIX }

  predicate Timely(p: Path) { p.Live? || p.stamp <= MAX_NANOS }

  // The name of some temp or backup.
  ghost predicate IsSibling(s: string) { exists p: Path :: !p.Live? && Timely(p) && Render(p) == s }

  // The one way to write a name as a path.
  ghost predicate Canonical(p: Path) { if p.Live? then !IsSibling(p.of) else Timely(p) }

  lemma EveryNameHasAPath(s: string) returns (p: Path)
    ensures Canonical(p) && Render(p) == s
  {
    if IsSibling(s) {
      p :| !p.Live? && Timely(p) && Render(p) == s;
    } else {
      p := Live(s);
    }
  }

  lemma RenderInjective(p: Path, q: Path)
    requires Canonical(p) && Canonical(q)
    ensures Render(p) == Render(q) <==> p == q
  {
    if !p.Live? && !q.Live? && Render(p) == Render(q) {
      assert TEMP_SUFFIX[9] != BACKUP_SUFFIX[9];
      SiblingInjective(p.of, SuffixOf(p), p.stamp, q.of, SuffixOf(q), q.stamp);
    }
  }

  // ----- what a listing of d's backups picks up -----

  // Temps and backups are the destination's name, a suffix and 19 digits.
  lemma NameFormat(d: string, n: nat)
    requires n <= MAX_NANOS
    ensures Render(Temp(d, n)) == d + ".certctl-tmp." + Pad(n, 19)
    ensures Render(Backup(d, n)) == d + ".certctl-bak." + Pad(n, 19)
    ensures Render(Live(d)) == d
  {
    NanosStrIsPad(n);
  }

  // Both suffixes have a dot only at their ends.
  lemma SuffixDots(suffix: string, i: nat)
    requires (suffix == TEMP_SUFFIX || suffix == BACKUP_SUFFIX) && 0 < i < 13
    ensures suffix[i] == '.' <==> i == 12
  {
  }

  lemma PrefixLonger(s: string, q: string, d: string)
    requires HasPrefix(s, q) && HasPrefix(s, d + BACKUP_SUFFIX) && |d| < |q| < |s| && s[|q|] == '.'
    ensures Near(d, q)
  {
    var t, x := d + BACKUP_SUFFIX, |q| - |d|;
    assert s[..|t|] == t && s[..|q|] == q;
    if x < 13 {
      assert t[|q|] == s[|q|] == '.' && t[|q|] == BACKUP_SUFFIX[x];
      SuffixDots(BACKUP_SUFFIX, x);
      assert q == s[..|q|] == t[..|q|];
    } else {
      assert q[..|t|] == s[..|t|];
    }
  }

  lemma NotPrefixAt(s: string, t: string, i: nat)
    requires i < |t| && (i < |s| ==> s[i] != t[i])
    ensures !HasPrefix(s, t)
  {
    if |t| <= |s| { assert s[..|t|][i] != t[i]; }
  }

  lemma ShorterNotListed(d: string, q: string, suffix: string, n: nat)
    requires |q| < |d| && (suffix == TEMP_SUFFIX || suffix == BACKUP_SUFFIX)
    ensures !HasPrefix(q + suffix + NanosStr(n), d + BACKUP_SUFFIX)
  {
    var name, t, x := q + suffix + NanosStr(n), d + BACKUP_SUFFIX, |d| - |q|;
    SiblingName(q, suffix, n);
    if x == 12 {
      assert t[|d| + 1] == BACKUP_SUFFIX[1] == 'c';
      assert name[|d| + 1] == name[|q| + 13..][0];
      NotPrefixAt(name, t, |d| + 1);
    } else {
      assert t[|d|] == BACKUP_SUFFIX[0] == '.';
      if x < 12 {
        assert name[|d|] == name[|q|..|q| + 13][x];
        SuffixDots(suffix, x);
      } else if |d| < |name| {
        assert name[|d|] == name[|q| + 13..][x - 13];
      }
      NotPrefixAt(name, t, |d|);
    }
  }

  lemma SameNotListed(d: string, n: nat)
    ensures !Listed(d, Temp(d, n))
  {
    SiblingName(d, TEMP_SUFFIX, n);
    var name, t := Render(Temp(d, n)), d + BACKUP_SUFFIX;
    assert name[|d| + 9] == name[|d|..|d| + 13][9] && t[|d| + 9] == BACKUP_SUFFIX[9];
    NotPrefixAt(name, t, |d| + 9);
  }

  lemma NearListed(d: string, q: string, suffix: string, n: nat)
    requires Near(d, q) && (suffix == TEMP_SUFFIX || suffix == BACKUP_SUFFIX)
    ensures HasPrefix(q + suffix + NanosStr(n), d + BACKUP_SUFFIX)
  {
    var name, t := q + suffix + NanosStr(n), d + BACKUP_SUFFIX;
    SiblingName(q, suffix, n);
    if q == d + BACKUP_SUFFIX[..12] {
      assert name[..|t|] == q + name[|q|..|q| + 13][..1];
      assert t == d + BACKUP_SUFFIX[..12] + ".";
    } else {
      assert name[..|t|] == q[..|t|];
    }
  }

  lemma SiblingListed(d: string, q: string, suffix: string, n: nat)
    requires (suffix == TEMP_SUFFIX || suffix == BACKUP_SUFFIX) && q != d
    ensures HasPrefix(q + suffix + NanosStr(n), d + BACKUP_SUFFIX) <==> Near(d, q)
  {
    var name, t := q + suffix + NanosStr(n), d + BACKUP_SUFFIX;
    SiblingName(q, suffix, n);
    if Near(d, q) {
      NearListed(d, q, suffix, n);
    } else if |q| < |d| {
      ShorterNotListed(d, q, suffix, n);
    } else if |q| == |d| {
      var i :| 0 <= i < |d| && q[i] != d[i];
      assert name[i] == q[i] && t[i] == d[i];
      NotPrefixAt(name, t, i);
    } else if HasPrefix(name, t) {
      assert name[|q|] == name[|q|..|q| + 13][0];
      PrefixLonger(name, q, d);
    }
  }

  // Pruning d takes for a backup of d: d's backups, the temps and backups of
  // every destination near d, and every other file whose name has the prefix.
  lemma ListedExactly(d: string, p: Path)
    ensures Listed(d, p) <==>
            match p
            case Live(q) => HasPrefix(q, d + BACKUP_SUFFIX)
            case Temp(q, _) => Near(d, q)
            case Backup(q, _) => q == d || Near(d, q)
  {
    NotNearItself(d);
    match p
    case Live(_) =>
    case Temp(q, n) => if q == d { SameNotListed(d, n); } else { SiblingListed(d, q, TEMP_SUFFIX, n); }
    case Backup(q, n) => if q == d { OwnBackupListed(d, n); } else { SiblingListed(d, q, BACKUP_SUFFIX, n); }
  }

  lemma NotNearItself(d: string)
    ensures !Near(d, d)
  {
  }

  lemma OwnBackupListed(d: string, b: nat)
    ensures Listed(d, Backup(d, b))
  {
    assert Render(Backup(d, b))[..|d| + 13] == d + BACKUP_SUFFIX;
  }

  // All that pruning d may touch besides d's backups is near d.
  lemma ListedIsNear(d: string, p: Path)
    requires Listed(d, p)
    ensures (p.Backup? && p.of == d) || Near(d, p.of)
  {
    ListedExactly(d, p);
  }

  // Prunings of destinations that are not near each other find different files.
  lemma ListingsApart(d: string, e: string, p: Path)
    requires d != e && !Near(d, e) && !Near(e, d) && Listed(d, p)
    ensures !Listed(e, p)
  {
    var s := Render(p);
    if Listed(e, p) {
      assert s[|d|] == s[..|d| + 13][|d|] == BACKUP_SUFFIX[0] && s[|e|] == s[..|e| + 13][|e|] == BACKUP_SUFFIX[0];
      assert s[..|d|] == s[..|d| + 13][..|d|] == d && s[..|e|] == s[..|e| + 13][..|e|] == e;
      if |d| < |e| { PrefixLonger(s, e, d); } else if |e| < |d| { PrefixLonger(s, d, e); }
    }
  }

  // ----- pruning: what the code computes -----

  datatype DirEntry = DirEntry(name: string, isDir: bool)

  predicate BackupEntry(e: DirEntry, d: string) { !e.isDir && HasPrefix(e.name, d + BACKUP_SUFFIX) }

  function Matching(entries: seq<DirEntry>, d: string): (r: seq<string>)
    ensures forall s :: s in r <==> exists e :: e in entries && BackupEntry(e, d) && e.name == s
  {
    if entries == [] then []
    else
      var last := entries[|entries| - 1];
      assert forall e :: e in entries <==> e in entries[..|entries| - 1] || e == last;
      Matching(entries[..|entries| - 1], d) + if BackupEntry(last, d) then [last.name] else []
  }

  // All but the last `keep` in name order.
  function ToRemove(entries: seq<DirEntry>, d: string, keep: int): seq<string> {
    var found := Sort(Matching(entries, d));
    if keep <= 0 || |found| <= keep then [] else found[..|found| - keep]
  }

  method NamesToPrune(entries: seq<DirEntry>, d: string, keep: int) returns (names: seq<string>)
    ensures names == ToRemove(entries, d, keep)
  {
    if keep <= 0 { return []; }
    var found: seq<string> := [];
    for i := 0 to |entries|
      invariant found == Matching(entries[..i], d)
    {
      assert entries[..i + 1][..i] == entries[..i];
      if entries[i].isDir { continue; }
      if HasPrefix(entries[i].name, d + BACKUP_SUFFIX) { found := found + [entries[i].name]; }
    }
    assert entries[..|entries|] == entries;
    SortContains(found);
    assert |multiset(Sort(found))| == |multiset(found)|;
    if |found| <= keep { return []; }
    var sorted := Sort(found);
    return sorted[..|sorted| - keep];
  }

  // ----- pruning: which files that is -----

  // A listing of the directory: each of its files once, and any directories.
  ghost predicate Directory(entries: seq<DirEntry>, fs: Files) {
    && (forall i, j :: 0 <= i < j < |entries| ==> entries[i].name != entries[j].name)
    && (forall p :: p in fs ==> DirEntry(Render(p), false) in entries)
    && (forall e :: e in entries && !e.isDir ==> exists p :: p in fs && Render(p) == e.name)
  }

  ghost predicate AllCanonical(fs: Files) { forall p :: p in fs ==> Canonical(p) }

  lemma {:induction false} MatchingDistinct(entries: seq<DirEntry>, d: string)
    requires forall i, j :: 0 <= i < j < |entries| ==> entries[i].name != entries[j].name
    ensures Distinct(Matching(entries, d))
  {
    if entries != [] {
      var n := |entries| - 1;
      var m := Matching(entries[..n], d);
      MatchingDistinct(entries[..n], d);
      forall k | 0 <= k < |m|
        ensures m[k] != entries[n].name
      {
        assert m[k] in m;
        var e :| e in entries[..n] && BackupEntry(e, d) && e.name == m[k];
        var i :| 0 <= i < n && entries[..n][i] == e;
        assert entries[i].name != entries[n].name;
      }
    }
  }

  function NamesOf(found: set<Path>): set<string> { set p | p in found :: Render(p) }

  lemma {:induction false} NamesOfSize(found: set<Path>)
    requires forall p :: p in found ==> Canonical(p)
    ensures |NamesOf(found)| == |found|
  {
    if found != {} {
      var p :| p in found;
      NamesOfSize(found - {p});
      forall q | q in found - {p}
        ensures Render(q) != Render(p)
      {
        RenderInjective(p, q);
      }
      assert NamesOf(found) == NamesOf(found - {p}) + {Render(p)};
    }
  }

  lemma {:induction false} ElementsSize(s: seq<string>)
    requires Ascending(s)
    ensures |set x | x in s| == |s|
  {
    if s != [] {
      ElementsSize(s[1..]);
      LessIrreflexive(s[0]);
      assert (set x | x in s) == (set x | x in s[1..]) + {s[0]};
    }
  }

  // In a sorted list of all names, as many come after p's as files after p.
  lemma AfterByRank(found: set<Path>, sorted: seq<string>, p: Path, i: nat)
    requires (forall q :: q in found ==> Canonical(q)) && Ascending(sorted) && (set x | x in sorted) == NamesOf(found)
    requires p in found && i < |sorted| && sorted[i] == Render(p)
    ensures |After(found, p)| == |sorted| - 1 - i
  {
    var rest := sorted[i + 1..];
    forall s
      ensures s in rest <==> s in NamesOf(After(found, p))
    {
      if s in rest {
        var k :| 0 <= k < |rest| && rest[k] == s;
        assert s == sorted[i + 1 + k] && s in NamesOf(found);
        var q :| q in found && Render(q) == s;
        assert q in After(found, p);
      }
      if s in NamesOf(After(found, p)) {
        var q :| q in After(found, p) && Render(q) == s;
        assert s in NamesOf(found);
        var k :| 0 <= k < |sorted| && sorted[k] == s;
        LessAsymmetric(s, Render(p));
        LessIrreflexive(s);
        assert k > i;
        assert rest[k - i - 1] == s;
      }
    }
    ElementsSize(rest);
    assert (set x | x in rest) == NamesOf(After(found, p));
    NamesOfSize(After(found, p));
  }

  lemma LessAsymmetric(a: string, b: string)
    ensures !(Less(a, b) && Less(b, a))
  {
    LessIrreflexive(a);
    if Less(a, b) && Less(b, a) { LessTransitive(a, b, a); }
  }

  lemma SortedListing(entries: seq<DirEntry>, fs: Files, d: string)
    requires Directory(entries, fs)
    ensures Ascending(Sort(Matching(entries, d)))
    ensures (set x | x in Sort(Matching(entries, d))) == NamesOf(Found(fs, d))
  {
    var found := Matching(entries, d);
    MatchingDistinct(entries, d);
    SortAscends(found);
    SortContains(found);
    forall s
      ensures s in Sort(found) <==> s in NamesOf(Found(fs, d))
    {
      assert s in Sort(found) <==> s in multiset(Sort(found));
      assert s in found <==> s in multiset(found);
      if s in found {
        var e :| e in entries && BackupEntry(e, d) && e.name == s;
        var p :| p in fs && Render(p) == s;
        assert p in Found(fs, d);
      }
      if s in NamesOf(Found(fs, d)) {
        var p :| p in Found(fs, d) && Render(p) == s;
        assert BackupEntry(DirEntry(Render(p), false), d);
      }
    }
  }

  lemma FirstOnes(sorted: seq<string>, i: nat, n: nat)
    requires Ascending(sorted) && i < |sorted| && n <= |sorted|
    ensures sorted[i] in sorted[..n] <==> i < n
  {
    if i < n {
      assert sorted[..n][i] == sorted[i];
    } else {
      LessIrreflexive(sorted[i]);
    }
  }

  lemma RemovesByRank(entries: seq<DirEntry>, d: string, keep: int, sorted: seq<string>, i: nat)
    requires sorted == Sort(Matching(entries, d)) && Ascending(sorted) && i < |sorted|
    ensures sorted[i] in ToRemove(entries, d, keep) <==> keep > 0 && i + keep < |sorted|
  {
    if keep > 0 && |sorted| > keep { FirstOnes(sorted, i, |sorted| - keep); }
  }

  // The names the code removes are exactly those of the paths in Doomed.
  lemma PruneIsDoomed(entries: seq<DirEntry>, fs: Files, d: string, keep: int, p: Path)
    requires Directory(entries, fs) && AllCanonical(fs) && p in Found(fs, d)
    ensures Render(p) in ToRemove(entries, d, keep) <==> p in Doomed(keep, Found(fs, d))
  {
    var sorted := Sort(Matching(entries, d));
    SortedListing(entries, fs, d);
    assert Render(p) in NamesOf(Found(fs, d));
    var i :| 0 <= i < |sorted| && sorted[i] == Render(p);
    AfterByRank(Found(fs, d), sorted, p, i);
    RemovesByRank(entries, d, keep, sorted, i);
  }

  // ... and they are names of files the listing found.
  lemma PruneOnlyFound(entries: seq<DirEntry>, fs: Files, d: string, keep: int, s: string)
    requires Directory(entries, fs) && s in ToRemove(entries, d, keep)
    ensures s in NamesOf(Found(fs, d))
  {
    SortedListing(entries, fs, d);
    assert s in Sort(Matching(entries, d));
  }

  lemma PruneMatches(entries: seq<DirEntry>, fs: Files, d: string, keep: int, p: Path)
    requires Directory(entries, fs) && AllCanonical(fs) && p in fs
    ensures Render(p) in ToRemove(entries, d, keep) <==> p in Doomed(keep, Found(fs, d))
  {
    if p in Found(fs, d) {
      PruneIsDoomed(entries, fs, d, keep, p);
    } else if Render(p) in ToRemove(entries, d, keep) {
      PruneOnlyFound(entries, fs, d, keep, Render(p));
    }
  }

  // ----- pruning: whose files -----

  // Extensions of p's name, each after the one before it.
  function Extended(p: Path, n: nat): (r: set<Path>)
    ensures |r| == n && forall q :: q in r ==> q.Live? && |q.of| > |Render(p)| && q.of[..|Render(p)|] == Render(p)
    ensures forall q :: q in r ==> |q.of| <= |Render(p)| + n
  {
    if n == 0 then {}
    else
      var q := Live(Render(p) + seq(n, _ => '~'));
      assert q.of[..|Render(p)|] == Render(p);
      Extended(p, n - 1) + {q}
  }

  lemma {:induction false} LessExtension(a: string, b: string)
    requires |a| < |b| && b[..|a|] == a
    ensures Less(a, b)
  {
    if a != [] {
      assert a[0] == b[..|a|][0] && b[1..][..|a| - 1] == b[..|a|][1..];
      LessExtension(a[1..], b[1..]);
    }
  }

  lemma ExtensionListed(d: string, p: Path, q: Path)
    requires Listed(d, p) && q.Live? && |q.of| > |Render(p)| && q.of[..|Render(p)|] == Render(p)
    ensures Listed(d, q)
  {
    var t := d + BACKUP_SUFFIX;
    assert q.of[..|t|] == q.of[..|Render(p)|][..|t|];
  }

  lemma SizeGrows(a: set<Path>, b: set<Path>)
    requires a <= b
    ensures |a| <= |b|
  {
    assert b == a + (b - a);
  }

  // A file can be lost to a pruning of d exactly when its name has d's prefix.
  lemma AtRiskExactly(d: string, p: Path, keep: int, f: File)
    requires keep > 0
    ensures Listed(d, p) <==> exists fs: Files :: p in fs && p in Doomed(keep, Found(fs, d))
  {
    if Listed(d, p) {
      var more := Extended(p, keep);
      var fs: Files := map q | q in more + {p} :: f;
      forall q | q in more
        ensures q in After(Found(fs, d), p)
      {
        ExtensionListed(d, p, q);
        LessExtension(Render(p), q.of);
      }
      SizeGrows(more, After(Found(fs, d), p));
      assert p in Doomed(keep, Found(fs, d));
    }
  }

  // ----- pruning: by age -----

  // Pruning d finds nothing but d's backups.
  ghost predicate Lone(fs: Files, d: string) {
    forall p {:trigger Listed(d, p)} :: p in fs && Listed(d, p) ==> p.Backup? && p.of == d && p.stamp <= MAX_NANOS
  }

  function BackupsOf(d: string, stamps: set<nat>): set<Path> { set b | b in stamps :: Backup(d, b) }

  lemma LoneFound(fs: Files, d: string)
    requires Lone(fs, d)
    ensures Found(fs, d) == BackupsOf(d, BackupStamps(fs, d))
    ensures forall b :: b in BackupStamps(fs, d) ==> b <= MAX_NANOS
  {
    forall b: nat
      ensures Listed(d, Backup(d, b))
    {
      OwnBackupListed(d, b);
    }
  }

  lemma {:induction false} BackupsOfSize(d: string, stamps: set<nat>)
    ensures |BackupsOf(d, stamps)| == |stamps|
  {
    if stamps != {} {
      var b :| b in stamps;
      BackupsOfSize(d, stamps - {b});
      assert BackupsOf(d, stamps) == BackupsOf(d, stamps - {b}) + {Backup(d, b)};
    }
  }

  lemma BackupOrder(d: string, a: nat, b: nat)
    requires a <= MAX_NANOS && b <= MAX_NANOS
    ensures Less(Render(Backup(d, a)), Render(Backup(d, b))) <==> a < b
  {
    NanosOrder(a, b);
    LessAfterPrefix(d + BACKUP_SUFFIX, NanosStr(a), NanosStr(b));
  }

  lemma AfterIsNewer(d: string, stamps: set<nat>, b: nat)
    requires b in stamps && forall c :: c in stamps ==> c <= MAX_NANOS
    ensures |After(BackupsOf(d, stamps), Backup(d, b))| == |Newer(stamps, b)|
  {
    forall c | c in stamps
      ensures Less(Render(Backup(d, b)), Render(Backup(d, c))) <==> b < c
    {
      BackupOrder(d, b, c);
    }
    assert After(BackupsOf(d, stamps), Backup(d, b)) == BackupsOf(d, Newer(stamps, b));
    BackupsOfSize(d, Newer(stamps, b));
  }

  // Then name order is age order: what goes is what has `keep` or more newer ones.
  lemma LonePruneIsByAge(fs: Files, d: string, keep: int)
    requires Lone(fs, d)
    ensures var s := BackupStamps(fs, d); Doomed(keep, Found(fs, d)) == BackupsOf(d, s - Newest(keep, s))
  {
    var s := BackupStamps(fs, d);
    LoneFound(fs, d);
    forall b | b in s
      ensures |After(BackupsOf(d, s), Backup(d, b))| == |Newer(s, b)|
    {
      AfterIsNewer(d, s, b);
    }
  }
}
