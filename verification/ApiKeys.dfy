/** Parsing CERTCTL_API_KEYS_NAMED: "name:key" or "name:key:admin", comma separated. */
module ApiKeys {
  import opened Text

  datatype NamedKey = NamedKey(name: string, key: string, admin: bool)

  datatype KeyError = BadFormat | BadAdminFlag | BadName | EmptyKey | DuplicatePair | AdminMismatch

  datatype Keys = Keys(list: seq<NamedKey>) | Reject(error: KeyError)

  predicate NameChar(c: char) {
    'a' <= c <= 'z' || 'A' <= c <= 'Z' || '0' <= c <= '9' || c == '-' || c == '_'
  }

  // By code point: the ASCII letters and digits, hyphen and underscore.
  lemma NameCharExactly(c: char)
    ensures var n := c as int;
            NameChar(c) <==> 97 <= n <= 122 || 65 <= n <= 90 || 48 <= n <= 57 || n == 45 || n == 95
  {
  }

  predicate ValidName(s: string) { s != [] && forall i :: 0 <= i < |s| ==> NameChar(s[i]) }

  method IsValidKeyName(s: string) returns (ok: bool)
    ensures ok <==> ValidName(s)
  {
    if |s| == 0 { return false; }
    for i := 0 to |s|
      invariant forall j :: 0 <= j < i ==> NameChar(s[j])
    {
      if !NameChar(s[i]) { return false; }
    }
    return true;
  }

  // ----- one entry -----

  datatype Item = Blank | One(k: NamedKey) | Broken(error: KeyError)

  // An entry on its own: fields, admin flag, name, key, checked in this order.
  function ReadEntry(part: string): Item {
    var p := Trim(part);
    if p == [] then Blank
    else
      var fields := Split(p, ':');
      if |fields| < 2 || |fields| > 3 then Broken(BadFormat)
      else if |fields| == 3 && Trim(fields[2]) != "admin" then Broken(BadAdminFlag)
      else if !ValidName(Trim(fields[0])) then Broken(BadName)
      else if Trim(fields[1]) == [] then Broken(EmptyKey)
      else One(NamedKey(Trim(fields[0]), Trim(fields[1]), |fields| == 3))
  }

  predicate HasPair(keys: seq<NamedKey>, k: NamedKey) { exists e :: e in keys && e.name == k.name && e.key == k.key }

  predicate Clashes(keys: seq<NamedKey>, k: NamedKey) {
    exists e :: e in keys && e.name == k.name && e.admin != k.admin
  }

  // An entry after those already accepted: the rotation contract.
  function Admit(keys: seq<NamedKey>, k: NamedKey): Keys {
    if HasPair(keys, k) then Reject(DuplicatePair)
    else if Clashes(keys, k) then Reject(AdminMismatch)
    else Keys(keys + [k])
  }

  function Read(keys: seq<NamedKey>, part: string): Keys {
    match ReadEntry(part)
    case Blank => Keys(keys)
    case Broken(e) => Reject(e)
    case One(k) => Admit(keys, k)
  }

  function ReadAll(keys: seq<NamedKey>, parts: seq<string>): Keys
    decreases |parts|
  {
    if parts == [] then Keys(keys)
    else
      match Read(keys, parts[0])
      case Reject(e) => Reject(e)
      case Keys(more) => ReadAll(more, parts[1..])
  }

  function Parse(input: string): Keys { if input == [] then Keys([]) else ReadAll([], Split(input, ',')) }

  // ----- what a successful parse guarantees -----

  predicate Rotation(keys: seq<NamedKey>) {
    && (forall i :: 0 <= i < |keys| ==> ValidName(keys[i].name) && keys[i].key != [])
    && (forall i, j :: 0 <= i < j < |keys| ==> !(keys[i].name == keys[j].name && keys[i].key == keys[j].key))
    && (forall i, j :: 0 <= i < j < |keys| && keys[i].name == keys[j].name ==> keys[i].admin == keys[j].admin)
  }

  function Entries(parts: seq<string>): seq<NamedKey> {
    if parts == [] then []
    else (if ReadEntry(parts[0]).One? then [ReadEntry(parts[0]).k] else []) + Entries(parts[1..])
  }

  predicate Readable(parts: seq<string>) { forall i :: 0 <= i < |parts| ==> !ReadEntry(parts[i]).Broken? }

  lemma RotationPrefix(keys: seq<NamedKey>, more: seq<NamedKey>)
    requires Rotation(keys + more)
    ensures Rotation(keys)
  {
    assert forall i :: 0 <= i < |keys| ==> (keys + more)[i] == keys[i];
  }

  lemma EntryIsSound(part: string)
    requires ReadEntry(part).One?
    ensures ValidName(ReadEntry(part).k.name) && ReadEntry(part).k.key != []
  {
  }

  // One more entry is admitted exactly when the contract still holds.
  lemma AdmitsExactly(keys: seq<NamedKey>, k: NamedKey)
    requires Rotation(keys) && ValidName(k.name) && k.key != []
    ensures Admit(keys, k).Keys? <==> Rotation(keys + [k])
  {
    var all := keys + [k];
    assert forall i :: 0 <= i < |keys| ==> all[i] == keys[i] && keys[i] in keys;
    if HasPair(keys, k) || Clashes(keys, k) {
      var e :| e in keys && e.name == k.name && (e.key == k.key || e.admin != k.admin);
      var i :| 0 <= i < |keys| && keys[i] == e;
      assert all[i] == e && all[|keys|] == k;
    }
  }

  lemma {:induction false} ReadsExactly(keys: seq<NamedKey>, parts: seq<string>)
    requires Rotation(keys)
    ensures ReadAll(keys, parts).Keys? <==> Readable(parts) && Rotation(keys + Entries(parts))
    ensures ReadAll(keys, parts).Keys? ==> ReadAll(keys, parts).list == keys + Entries(parts)
    decreases |parts|
  {
    if parts == [] {
      assert keys + Entries(parts) == keys;
    } else {
      var e, rest := ReadEntry(parts[0]), parts[1..];
      assert Readable(parts) <==> !e.Broken? && Readable(rest);
      if e.Blank? {
        assert Entries(parts) == Entries(rest);
        ReadsExactly(keys, rest);
      } else if e.One? {
        ReadsOneMore(keys, e.k, Entries(rest));
        EntryIsSound(parts[0]);
        AdmitsExactly(keys, e.k);
        if Rotation(keys + [e.k]) { ReadsExactly(keys + [e.k], rest); }
      }
    }
  }

  lemma ReadsOneMore(keys: seq<NamedKey>, k: NamedKey, more: seq<NamedKey>)
    ensures keys + ([k] + more) == (keys + [k]) + more
    ensures Rotation(keys + ([k] + more)) ==> Rotation(keys + [k])
  {
    assert keys + ([k] + more) == (keys + [k]) + more;
    if Rotation((keys + [k]) + more) { RotationPrefix(keys + [k], more); }
  }

  lemma ReadsEntries(input: string)
    ensures Parse(input).Keys? <==> Readable(Split(input, ',')) && Rotation(Entries(Split(input, ',')))
    ensures Parse(input).Keys? ==> Parse(input).list == Entries(Split(input, ','))
  {
    var parts := Split(input, ',');
    if input == [] { assert parts == [[]] && parts[1..] == [] && Entries(parts) == []; }
    ReadsExactly([], parts);
    assert [] + Entries(parts) == Entries(parts);
  }

  // ----- the format, without a parser -----

  // s is these fields, joined by the separator.
  ghost predicate Spells(s: string, c: char, fields: seq<string>) {
    fields != [] && (forall f :: f in fields ==> Free(f, c)) && s == Join(fields, c)
  }

  lemma SpellsExactly(s: string, c: char, fields: seq<string>)
    ensures Spells(s, c, fields) <==> fields == Split(s, c)
  {
    JoinUndoesSplit(s, c);
    if Spells(s, c, fields) { SplitUndoesJoin(fields, c); }
  }

  // name:key or name:key:admin.
  predicate Shaped(fields: seq<string>) { |fields| == 2 || (|fields| == 3 && Trim(fields[2]) == "admin") }

  predicate Fits(fields: seq<string>, k: NamedKey) {
    && Shaped(fields) && k.name == Trim(fields[0]) && ValidName(k.name)
    && k.key == Trim(fields[1]) && k.key != "" && (k.admin <==> |fields| == 3)
  }

  // The part, blanks around it aside, stands for k.
  ghost predicate Denotes(part: string, k: NamedKey) {
    exists fields :: Spells(Trim(part), ':', fields) && Fits(fields, k)
  }

  // What is wrong with a part that comes after the given keys.
  ghost predicate Faulty(keys: seq<NamedKey>, part: string, e: KeyError) {
    Trim(part) != "" && exists fields :: Spells(Trim(part), ':', fields) && FaultyFields(keys, fields, e)
  }

  ghost predicate FaultyFields(keys: seq<NamedKey>, fields: seq<string>, e: KeyError) {
    match e
    case BadFormat => |fields| < 2 || |fields| > 3
    case BadAdminFlag => |fields| == 3 && Trim(fields[2]) != "admin"
    case BadName => Shaped(fields) && !ValidName(Trim(fields[0]))
    case EmptyKey => Shaped(fields) && ValidName(Trim(fields[0])) && Trim(fields[1]) == ""
    case DuplicatePair => exists k :: Fits(fields, k) && HasPair(keys, k)
    case AdminMismatch => exists k :: Fits(fields, k) && !HasPair(keys, k) && Clashes(keys, k)
  }

  // An entry reads as k if and only if it denotes k, and is passed over if and only if it is blank.
  lemma EntryMeans(part: string, k: NamedKey)
    ensures ReadEntry(part) == Blank <==> Trim(part) == ""
    ensures ReadEntry(part) == One(k) <==> Denotes(part, k)
  {
    var fields := Split(Trim(part), ':');
    SpellsExactly(Trim(part), ':', fields);
    assert Split("", ':') == [""];
    if other :| Spells(Trim(part), ':', other) && Fits(other, k) { SpellsExactly(Trim(part), ':', other); }
  }

  lemma FaultMeans(keys: seq<NamedKey>, part: string, e: KeyError)
    ensures Read(keys, part) == Reject(e) <==> Faulty(keys, part, e)
  {
    var fields := Split(Trim(part), ':');
    SpellsExactly(Trim(part), ':', fields);
    if other :| Spells(Trim(part), ':', other) && FaultyFields(keys, other, e) {
      SpellsExactly(Trim(part), ':', other);
    }
    if ReadEntry(part).One? { assert Fits(fields, ReadEntry(part).k); }
  }

  // The parts that are not blank denote the keys, in order.
  ghost predicate Spelling(parts: seq<string>, keys: seq<NamedKey>)
    decreases |parts|
  {
    if parts == [] then keys == []
    else if Trim(parts[0]) == "" then Spelling(parts[1..], keys)
    else keys != [] && Denotes(parts[0], keys[0]) && Spelling(parts[1..], keys[1..])
  }

  lemma {:induction false} SpellingExactly(parts: seq<string>, keys: seq<NamedKey>)
    ensures Spelling(parts, keys) <==> Readable(parts) && keys == Entries(parts)
    decreases |parts|
  {
    if parts != [] {
      var e, rest := ReadEntry(parts[0]), parts[1..];
      assert Readable(parts) <==> !e.Broken? && Readable(rest);
      if keys != [] { EntryMeans(parts[0], keys[0]); }
      EntryMeans(parts[0], if e.One? then e.k else NamedKey("", "", false));
      if e.One? {
        assert Entries(parts) == [e.k] + Entries(rest);
        if keys != [] {
          assert keys == [keys[0]] + keys[1..];
          SpellingExactly(rest, keys[1..]);
        }
      } else {
        assert Entries(parts) == Entries(rest);
        SpellingExactly(rest, keys);
      }
    }
  }

  // The input is accepted with these keys if and only if its comma-separated
  // parts, blank ones aside, denote them in order and together they keep the
  // contract: names valid, keys nonempty, no pair twice, one privilege level per name.
  lemma ParsesExactly(input: string, keys: seq<NamedKey>)
    ensures Parse(input) == Keys(keys) <==>
            exists parts :: Spells(input, ',', parts) && Spelling(parts, keys) && Rotation(keys)
  {
    var parts := Split(input, ',');
    ReadsEntries(input);
    SpellsExactly(input, ',', parts);
    SpellingExactly(parts, keys);
    if other :| Spells(input, ',', other) && Spelling(other, keys) && Rotation(keys) {
      SpellsExactly(input, ',', other);
    }
  }

  // ----- which error -----

  lemma {:induction false} ReadAllAppend(keys: seq<NamedKey>, parts: seq<string>, more: seq<string>)
    ensures ReadAll(keys, parts + more) ==
            match ReadAll(keys, parts)
            case Reject(e) => Reject(e)
            case Keys(next) => ReadAll(next, more)
    decreases |parts|
  {
    if parts == [] {
      assert parts + more == more;
    } else {
      assert (parts + more)[0] == parts[0] && (parts + more)[1..] == parts[1..] + more;
      match Read(keys, parts[0])
      case Reject(_) =>
      case Keys(next) => ReadAllAppend(next, parts[1..], more);
    }
  }

  // The first i parts are fine and the next one is not.
  ghost predicate FailsAt(parts: seq<string>, i: nat, keys: seq<NamedKey>, e: KeyError) {
    i < |parts| && Spelling(parts[..i], keys) && Rotation(keys) && Faulty(keys, parts[i], e)
  }

  lemma FailsAtRejects(parts: seq<string>, i: nat, keys: seq<NamedKey>, e: KeyError)
    requires FailsAt(parts, i, keys, e)
    ensures ReadAll([], parts) == Reject(e)
  {
    SpellingExactly(parts[..i], keys);
    ReadsExactly([], parts[..i]);
    assert [] + keys == keys;
    FaultMeans(keys, parts[i], e);
    assert parts == parts[..i] + parts[i..] && parts[i..][0] == parts[i];
    ReadAllAppend([], parts[..i], parts[i..]);
  }

  lemma {:induction false} RejectsAt(parts: seq<string>, n: nat) returns (i: nat, keys: seq<NamedKey>)
    requires n <= |parts| && ReadAll([], parts[..n]).Reject?
    ensures FailsAt(parts, i, keys, ReadAll([], parts[..n]).error)
  {
    assert parts[..0] == [];
    var past := parts[..n - 1];
    assert parts[..n] == past + [parts[n - 1]];
    ReadAllAppend([], past, [parts[n - 1]]);
    if ReadAll([], past).Reject? {
      i, keys := RejectsAt(parts, n - 1);
    } else {
      i, keys := n - 1, ReadAll([], past).list;
      ReadsExactly([], past);
      assert [] + Entries(past) == Entries(past);
      SpellingExactly(past, keys);
      assert [parts[n - 1]][1..] == [];
      FaultMeans(keys, parts[n - 1], ReadAll([], parts[..n]).error);
    }
  }

  // The input is rejected with e if and only if e is what is wrong with the first
  // part that is wrong after those before it.
  lemma RejectsExactly(input: string, e: KeyError)
    ensures Parse(input) == Reject(e) <==>
            exists parts, i, keys :: Spells(input, ',', parts) && FailsAt(parts, i, keys, e)
  {
    var parts := Split(input, ',');
    SpellsExactly(input, ',', parts);
    if input == [] { assert parts == [[]] && parts[1..] == [] && ReadAll([], parts) == Keys([]); }
    assert ReadAll([], parts) == Parse(input);
    if Parse(input) == Reject(e) {
      assert parts[..|parts|] == parts;
      var i, keys := RejectsAt(parts, |parts|);
    }
    if other, i, keys :| Spells(input, ',', other) && FailsAt(other, i, keys, e) {
      SpellsExactly(input, ',', other);
      FailsAtRejects(parts, i, keys, e);
    }
  }

  // ----- the parser -----

  function PairKey(name: string, key: string): string { name + "\0" + key }

  lemma PairKeyReads(name: string, key: string)
    requires ValidName(name)
    ensures Split(PairKey(name, key), '\0')[0] == name && PairKey(name, key)[|name| + 1..] == key
  {
    var s := PairKey(name, key);
    assert s[0..] == s == name + ['\0'] + key;
    NextPiece(s, '\0', 0, name, key);
  }

  // The joined pair is unambiguous because the name has been validated first.
  lemma PairKeyInjective(a: string, k: string, b: string, m: string)
    requires ValidName(a) && ValidName(b)
    ensures PairKey(a, k) == PairKey(b, m) <==> a == b && k == m
  {
    PairKeyReads(a, k);
    PairKeyReads(b, m);
  }

  // The parser's tables say what is in the list.
  ghost predicate PairTable(keys: seq<NamedKey>, pairSeen: set<string>) {
    pairSeen == set e | e in keys :: PairKey(e.name, e.key)
  }

  ghost predicate NameTable(keys: seq<NamedKey>, nameToAdmin: map<string, bool>) {
    && nameToAdmin.Keys == (set e | e in keys :: e.name)
    && forall e :: e in keys ==> nameToAdmin[e.name] == e.admin
  }

  lemma PairTableDecides(keys: seq<NamedKey>, pairSeen: set<string>, k: NamedKey)
    requires PairTable(keys, pairSeen) && ValidName(k.name) && forall e :: e in keys ==> ValidName(e.name)
    ensures PairKey(k.name, k.key) in pairSeen <==> HasPair(keys, k)
    ensures PairTable(keys + [k], pairSeen + {PairKey(k.name, k.key)})
  {
    forall e | e in keys
      ensures PairKey(e.name, e.key) == PairKey(k.name, k.key) <==> e.name == k.name && e.key == k.key
    {
      PairKeyInjective(e.name, e.key, k.name, k.key);
    }
    assert forall e :: e in keys + [k] <==> e in keys || e == k;
  }

  lemma NameTableDecides(keys: seq<NamedKey>, nameToAdmin: map<string, bool>, k: NamedKey)
    requires NameTable(keys, nameToAdmin)
    ensures k.name in nameToAdmin && nameToAdmin[k.name] != k.admin <==> Clashes(keys, k)
    ensures !Clashes(keys, k) ==> NameTable(keys + [k], nameToAdmin[k.name := k.admin])
  {
    assert forall e :: e in keys + [k] <==> e in keys || e == k;
    assert k.name in nameToAdmin ==> exists e :: e in keys && e.name == k.name;
  }

  method ReadOne(part: string) returns (e: Item)
    ensures e == ReadEntry(part)
  {
    var p := TrimSpace(part);
    if p == "" { return Blank; }
    var fields := Split(p, ':');
    if |fields| < 2 || |fields| > 3 { return Broken(BadFormat); }
    var name := TrimSpace(fields[0]);
    var key := TrimSpace(fields[1]);
    var admin := false;
    if |fields| == 3 {
      var flag := TrimSpace(fields[2]);
      if flag != "admin" { return Broken(BadAdminFlag); }
      admin := true;
    }
    var valid := IsValidKeyName(name);
    if !valid { return Broken(BadName); }
    if key == "" { return Broken(EmptyKey); }
    return One(NamedKey(name, key, admin));
  }

  lemma ReadAllStep(keys: seq<NamedKey>, parts: seq<string>, i: nat)
    requires i < |parts|
    ensures ReadAll(keys, parts[i..]) ==
            match Read(keys, parts[i])
            case Reject(e) => Reject(e)
            case Keys(more) => ReadAll(more, parts[i + 1..])
  {
    assert parts[i..][0] == parts[i] && parts[i..][1..] == parts[i + 1..];
  }

  method ParseNamedAPIKeys(input: string) returns (r: Keys)
    ensures r == Parse(input)
  {
    if input == "" { return Keys([]); }
    var parts := SplitComma(input);
    var keys: seq<NamedKey>, nameToAdmin: map<string, bool>, pairSeen: set<string> := [], map[], {};
    assert parts[0..] == parts;
    for i := 0 to |parts|
      invariant ReadAll([], parts) == ReadAll(keys, parts[i..])
      invariant PairTable(keys, pairSeen) && NameTable(keys, nameToAdmin)
      invariant forall e :: e in keys ==> ValidName(e.name)
    {
      ReadAllStep(keys, parts, i);
      var e := ReadOne(parts[i]);
      if e.Blank? { continue; }
      if e.Broken? { return Reject(e.error); }
      var k := e.k;
      PairTableDecides(keys, pairSeen, k);
      if PairKey(k.name, k.key) in pairSeen { return Reject(DuplicatePair); }
      NameTableDecides(keys, nameToAdmin, k);
      if k.name in nameToAdmin && nameToAdmin[k.name] != k.admin { return Reject(AdminMismatch); }
      keys, nameToAdmin, pairSeen := keys + [k], nameToAdmin[k.name := k.admin], pairSeen + {PairKey(k.name, k.key)};
    }
    return Keys(keys);
  }

  // ----- printing -----

  function Fields(k: NamedKey): seq<string> { [k.name, k.key] + if k.admin then ["admin"] else [] }

  function PrintKey(k: NamedKey): string { Join(Fields(k), ':') }

  function PrintAll(keys: seq<NamedKey>): seq<string> { seq(|keys|, i requires 0 <= i < |keys| => PrintKey(keys[i])) }

  function Print(keys: seq<NamedKey>): string { Join(PrintAll(keys), ',') }

  // A secret that can be written in the format.
  predicate Writable(key: string) { key != [] && Free(key, ':') && Free(key, ',') && Tight(key) }

  lemma PrintedShape(k: NamedKey)
    requires ValidName(k.name) && Writable(k.key)
    ensures PrintKey(k) == k.name + ":" + k.key + if k.admin then ":admin" else ""
    ensures Tight(PrintKey(k)) && Free(PrintKey(k), ',') && PrintKey(k) != []
  {
    var flag := if k.admin then ":admin" else "";
    var s := k.name + ":" + k.key + flag;
    if k.admin {
      assert Fields(k)[1..] == [k.key, "admin"] && [k.key, "admin"][1..] == ["admin"];
      assert Join([k.key, "admin"], ':') == k.key + [':'] + "admin" == k.key + flag;
    } else {
      assert Fields(k)[1..] == [k.key] && k.key + flag == k.key;
    }
    assert PrintKey(k) == k.name + [':'] + Join(Fields(k)[1..], ':');
    assert PrintKey(k) == k.name + [':'] + (k.key + flag) == s;
    assert s[0] == k.name[0];
    assert s[|s| - 1] == if k.admin then 'n' else k.key[|k.key| - 1];
    assert Free(k.name, ',') && Free(flag, ',');
  }

  lemma ReadUndoesPrint(k: NamedKey)
    requires ValidName(k.name) && Writable(k.key)
    ensures ReadEntry(PrintKey(k)) == One(k)
  {
    PrintedShape(k);
    TightIsTrimmed(PrintKey(k));
    SplitUndoesJoin(Fields(k), ':');
    assert Tight(k.name);
    TightIsTrimmed(k.name);
    TightIsTrimmed(k.key);
    TightIsTrimmed("admin");
  }

  lemma {:induction false} ReadAllUndoesPrint(done: seq<NamedKey>, todo: seq<NamedKey>)
    requires Rotation(done + todo) && forall i :: 0 <= i < |todo| ==> Writable(todo[i].key)
    ensures ReadAll(done, PrintAll(todo)) == Keys(done + todo)
    decreases |todo|
  {
    if todo == [] {
      assert done + todo == done;
    } else {
      var k, all := todo[0], done + todo;
      assert all[|done|] == k && forall i :: 0 <= i < |done| ==> all[i] == done[i];
      ReadUndoesPrint(k);
      assert (done + [k]) + todo[1..] == all;
      assert PrintAll(todo)[0] == PrintKey(k) && PrintAll(todo)[1..] == PrintAll(todo[1..]);
      assert Admit(done, k) == Keys(done + [k]);
      ReadAllUndoesPrint(done + [k], todo[1..]);
    }
  }

  // Every list that keeps the rotation contract can be written and read back.
  lemma ParseUndoesPrint(keys: seq<NamedKey>)
    requires Rotation(keys) && forall i :: 0 <= i < |keys| ==> Writable(keys[i].key)
    ensures Parse(Print(keys)) == Keys(keys)
  {
    if keys != [] {
      var parts := PrintAll(keys);
      forall i | 0 <= i < |parts|
        ensures Free(parts[i], ',') && parts[i] != []
      {
        PrintedShape(keys[i]);
      }
      SplitUndoesJoin(parts, ',');
      assert parts[0] != [] && Print(keys) != [];
      assert [] + keys == keys;
      ReadAllUndoesPrint([], keys);
    }
  }
}
