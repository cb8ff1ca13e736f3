/** Splitting and trimming, as the configuration loader does it. */
module Text {
  predicate Free(s: string, c: char) { forall i :: 0 <= i < |s| ==> s[i] != c }

  // ----- split -----

  // The pieces from `start` on, when [start..i) holds no separator.
  function Scan(s: string, c: char, start: nat, i: nat): (r: seq<string>)
    requires start <= i <= |s|
    ensures r != []
    decreases |s| - i
  {
    if i == |s| then [s[start..]]
    else if s[i] == c then [s[start..i]] + Scan(s, c, i + 1, i + 1)
    else Scan(s, c, start, i + 1)
  }

  function Split(s: string, c: char): seq<string> { Scan(s, c, 0, 0) }

  function Join(parts: seq<string>, c: char): string {
    if parts == [] then [] else if |parts| == 1 then parts[0] else parts[0] + [c] + Join(parts[1..], c)
  }

  lemma JoinCons(p: string, rest: seq<string>, c: char)
    requires rest != []
    ensures Join([p] + rest, c) == p + [c] + Join(rest, c)
  {
    assert ([p] + rest)[1..] == rest;
  }

  lemma {:induction false} JoinUndoesScan(s: string, c: char, start: nat, i: nat)
    requires start <= i <= |s|
    ensures Join(Scan(s, c, start, i), c) == s[start..]
    decreases |s| - i
  {
    if i < |s| && s[i] == c {
      JoinUndoesScan(s, c, i + 1, i + 1);
      JoinCons(s[start..i], Scan(s, c, i + 1, i + 1), c);
      assert s[start..] == s[start..i] + [c] + s[i + 1..];
    } else if i < |s| {
      JoinUndoesScan(s, c, start, i + 1);
    }
  }

  lemma {:induction false} ScanFree(s: string, c: char, start: nat, i: nat)
    requires start <= i <= |s| && Free(s[start..i], c)
    ensures forall p :: p in Scan(s, c, start, i) ==> Free(p, c)
    decreases |s| - i
  {
    if i == |s| {
      assert s[start..i] == s[start..];
    } else if s[i] == c {
      ScanFree(s, c, i + 1, i + 1);
    } else {
      assert s[start..i + 1] == s[start..i] + [s[i]];
      ScanFree(s, c, start, i + 1);
    }
  }

  // Splitting loses nothing and leaves no separator in a piece.
  lemma JoinUndoesSplit(s: string, c: char)
    ensures Join(Split(s, c), c) == s
    ensures forall p :: p in Split(s, c) ==> Free(p, c)
  {
    JoinUndoesScan(s, c, 0, 0);
    ScanFree(s, c, 0, 0);
    assert s[0..] == s;
  }

  lemma {:induction false} ScanRun(s: string, c: char, start: nat, i: nat, j: nat)
    requires start <= i <= j <= |s| && Free(s[i..j], c)
    ensures Scan(s, c, start, i) == Scan(s, c, start, j)
    decreases j - i
  {
    if i < j {
      assert s[i..j] == [s[i]] + s[i + 1..j];
      ScanRun(s, c, start, i + 1, j);
    }
  }

  lemma {:induction false} ScanUndoesJoin(s: string, c: char, start: nat, parts: seq<string>)
    requires start <= |s| && parts != [] && s[start..] == Join(parts, c)
    requires forall p :: p in parts ==> Free(p, c)
    ensures Scan(s, c, start, start) == parts
    decreases |parts|
  {
    var end := start + |parts[0]|;
    if |parts| == 1 {
      assert s[start..end] == parts[0];
      ScanRun(s, c, start, start, end);
    } else {
      JoinCons(parts[0], parts[1..], c);
      assert parts == [parts[0]] + parts[1..];
      NextPiece(s, c, start, parts[0], Join(parts[1..], c));
      ScanUndoesJoin(s, c, end + 1, parts[1..]);
    }
  }

  lemma NextPiece(s: string, c: char, start: nat, p: string, rest: string)
    requires start <= |s| && s[start..] == p + [c] + rest && Free(p, c)
    ensures start + |p| < |s| && s[start + |p| + 1..] == rest
    ensures Scan(s, c, start, start) == [p] + Scan(s, c, start + |p| + 1, start + |p| + 1)
  {
    var end := start + |p|;
    assert s[start..][|p|] == c && s[end] == c;
    assert s[start..end] == s[start..][..|p|] == p;
    assert s[end + 1..] == s[start..][|p| + 1..] == rest;
    ScanRun(s, c, start, start, end);
  }

  // Split is the inverse of Join on pieces without the separator.
  lemma SplitUndoesJoin(parts: seq<string>, c: char)
    requires parts != [] && forall p :: p in parts ==> Free(p, c)
    ensures Split(Join(parts, c), c) == parts
  {
    var s := Join(parts, c);
    assert s[0..] == s;
    ScanUndoesJoin(s, c, 0, parts);
  }

  method SplitComma(s: string) returns (parts: seq<string>)
    ensures parts == Split(s, ',')
  {
    parts := [];
    var start := 0;
    for i := 0 to |s|
      invariant 0 <= start <= i && Split(s, ',') == parts + Scan(s, ',', start, i)
    {
      if s[i] == ',' {
        parts := parts + [s[start..i]];
        start := i + 1;
      }
    }
    parts := parts + [s[start..]];
  }

  // ----- trim -----

  predicate IsBlank(c: char) { c == ' ' || c == '\t' }

  predicate Tight(s: string) { s == [] || (!IsBlank(s[0]) && !IsBlank(s[|s| - 1])) }

  // The first index from i on that is not blank.
  function First(s: string, i: nat): (r: nat)
    requires i <= |s|
    ensures i <= r <= |s| && (r < |s| ==> !IsBlank(s[r])) && forall k :: i <= k < r ==> IsBlank(s[k])
    decreases |s| - i
  {
    if i < |s| && IsBlank(s[i]) then First(s, i + 1) else i
  }

  // Where the blanks before `end` begin.
  function Last(s: string, start: nat, end: nat): (r: nat)
    requires start <= end <= |s|
    ensures start <= r <= end && (start < r ==> !IsBlank(s[r - 1])) && forall k :: r <= k < end ==> IsBlank(s[k])
    decreases end
  {
    if start < end && IsBlank(s[end - 1]) then Last(s, start, end - 1) else end
  }

  function Trim(s: string): string { s[First(s, 0)..Last(s, First(s, 0), |s|)] }

  // Nothing but spaces and tabs.
  predicate Padding(s: string) { forall i :: 0 <= i < |s| ==> s[i] == ' ' || s[i] == '\t' }

  predicate Unpadded(s: string) { s == [] || (!Padding(s[..1]) && !Padding(s[|s| - 1..])) }

  // t is s without the spaces and tabs around it: there is one such text.
  lemma TrimMeans(s: string, t: string)
    ensures Trim(s) == t <==> exists before, after :: Padded(s, before, t, after)
  {
    var before, after := TrimLeaves(s);
    if b, a :| Padded(s, b, t, a) { PaddedTrims(s, b, t, a); }
  }

  predicate Padded(s: string, before: string, t: string, after: string) {
    Padding(before) && Padding(after) && Unpadded(t) && s == before + t + after
  }

  lemma TrimLeaves(s: string) returns (before: string, after: string)
    ensures Padded(s, before, Trim(s), after)
  {
    var a := First(s, 0);
    var b := Last(s, a, |s|);
    before, after := s[..a], s[b..];
    var t := s[a..b];
    if t != [] {
      assert t[..1][0] == s[a] && t[|t| - 1..][0] == s[b - 1];
      assert !IsBlank(s[a]) && !IsBlank(s[b - 1]);
    }
  }

  lemma PaddedTrims(s: string, before: string, t: string, after: string)
    requires Padded(s, before, t, after)
    ensures Trim(s) == t
  {
    if t == [] {
      assert forall i :: 0 <= i < |s| ==> IsBlank(s[i]);
    } else {
      assert forall i :: 0 <= i < |before| ==> s[i] == before[i];
      assert forall i :: 0 <= i < |t| ==> s[|before| + i] == t[i];
      assert forall i :: |before| + |t| <= i < |s| ==> s[i] == after[i - |before| - |t|];
      assert First(s, 0) == |before| && Last(s, |before|, |s|) == |before| + |t|;
      assert s[|before|..|before| + |t|] == t;
    }
  }

  lemma TightIsTrimmed(s: string)
    requires Tight(s)
    ensures Trim(s) == s
  {
    assert s != [] ==> First(s, 0) == 0 && Last(s, 0, |s|) == |s|;
  }

  method TrimSpace(s: string) returns (t: string)
    ensures t == Trim(s)
  {
    var start, end := 0, |s|;
    while start < end && IsBlank(s[start])
      invariant 0 <= start <= end && First(s, start) == First(s, 0)
    {
      start := start + 1;
    }
    while end > start && IsBlank(s[end - 1])
      invariant start <= end <= |s| && Last(s, start, end) == Last(s, start, |s|)
    {
      end := end - 1;
    }
    t := s[start..end];
  }
}
