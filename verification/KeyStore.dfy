/** The runtime key store: a list of entries that has to behave like a map. */
module KeyStore {
  import opened Common
  import opened ApiKeys

  datatype Entry = Entry(hash: string, name: string, admin: bool)

  datatype Identity = Identity(name: string, admin: bool)

  // What the list stands for: of several entries with a hash, the first counts.
  function Meaning(entries: seq<Entry>): map<string, Identity> {
    if entries == [] then map[]
    else Meaning(entries[1..])[entries[0].hash := Identity(entries[0].name, entries[0].admin)]
  }

  predicate AbsentBefore(entries: seq<Entry>, hash: string, i: nat) {
    forall j :: 0 <= j < i && j < |entries| ==> entries[j].hash != hash
  }

  lemma {:induction false} FirstCounts(entries: seq<Entry>, hash: string, i: nat)
    requires i <= |entries| && AbsentBefore(entries, hash, i) && (i < |entries| ==> entries[i].hash == hash)
    ensures hash in Meaning(entries) <==> i < |entries|
    ensures i < |entries| ==> Meaning(entries)[hash] == Identity(entries[i].name, entries[i].admin)
  {
    if i > 0 { FirstCounts(entries[1..], hash, i - 1); }
  }

  // Replace the first entry with the hash, or append.
  function AddTo(entries: seq<Entry>, e: Entry): seq<Entry> {
    if entries == [] then [e]
    else if entries[0].hash == e.hash then [e] + entries[1..]
    else [entries[0]] + AddTo(entries[1..], e)
  }

  lemma {:induction false} AddToAt(entries: seq<Entry>, e: Entry, i: nat)
    requires i <= |entries| && AbsentBefore(entries, e.hash, i) && (i < |entries| ==> entries[i].hash == e.hash)
    ensures AddTo(entries, e) == if i < |entries| then entries[i := e] else entries + [e]
  {
    if i > 0 { AddToAt(entries[1..], e, i - 1); }
  }

  // An addition binds its hash and leaves every other hash alone, repeats or not.
  lemma {:induction false} AddMeans(entries: seq<Entry>, e: Entry)
    ensures Meaning(AddTo(entries, e)) == Meaning(entries)[e.hash := Identity(e.name, e.admin)]
  {
    if entries != [] {
      AddMeans(entries[1..], e);
      assert AddTo(entries, e)[1..] == if entries[0].hash == e.hash then entries[1..] else AddTo(entries[1..], e);
    }
  }

  // Registering two different hashes in either order leaves the same map.
  lemma AddsCommute(entries: seq<Entry>, a: Entry, b: Entry)
    requires a.hash != b.hash
    ensures Meaning(AddTo(AddTo(entries, a), b)) == Meaning(AddTo(AddTo(entries, b), a))
  {
    AddMeans(AddTo(entries, a), b);
    AddMeans(entries, a);
    AddMeans(AddTo(entries, b), a);
    AddMeans(entries, b);
  }

  function Hashed(hash: string -> string, k: NamedKey): Entry { Entry(hash(k.key), k.name, k.admin) }

  class MutableKeyStore {
    var entries: seq<Entry>

    constructor (hash: string -> string, keys: seq<NamedKey>)
      ensures entries == Seeded(hash, keys)
    {
      var out: seq<Entry> := [];
      for i := 0 to |keys|
        invariant out == seq(i, j requires 0 <= j < i => Hashed(hash, keys[j]))
      {
        out := out + [Hashed(hash, keys[i])];
      }
      entries := out;
    }

    method LookupByHash(hash: string) returns (r: Option<Identity>)
      ensures r == if hash in Meaning(entries) then Some(Meaning(entries)[hash]) else None
    {
      for i := 0 to |entries|
        invariant AbsentBefore(entries, hash, i)
      {
        if entries[i].hash == hash {
          FirstCounts(entries, hash, i);
          return Some(Identity(entries[i].name, entries[i].admin));
        }
      }
      FirstCounts(entries, hash, |entries|);
      return None;
    }

    // The store's map with this hash bound to the new identity and no other changed.
    method AddHashed(name: string, hash: string, admin: bool)
      modifies this
      ensures entries == AddTo(old(entries), Entry(hash, name, admin))
      ensures Meaning(entries) == old(Meaning(entries))[hash := Identity(name, admin)]
    {
      var e := Entry(hash, name, admin);
      AddMeans(entries, e);
      for i := 0 to |entries|
        invariant entries == old(entries) && AbsentBefore(entries, hash, i)
      {
        if entries[i].hash == hash {
          AddToAt(entries, e, i);
          entries := entries[i := e];
          return;
        }
      }
      AddToAt(entries, e, |entries|);
      entries := entries + [e];
    }

    method Add(hash: string -> string, k: NamedKey)
      modifies this
      ensures Meaning(entries) == old(Meaning(entries))[hash(k.key) := Identity(k.name, k.admin)]
    {
      AddHashed(k.name, hash(k.key), k.admin);
    }
  }

  // ----- keys from the environment -----

  function Seeded(hash: string -> string, keys: seq<NamedKey>): seq<Entry> {
    seq(|keys|, i requires 0 <= i < |keys| => Hashed(hash, keys[i]))
  }

  // With an injective hash, a configured key resolves to its own name and flag
  // unless an earlier entry uses the same secret, in which case to that one's.
  lemma SeededKeyResolves(hash: string -> string, keys: seq<NamedKey>, i: nat)
    requires i < |keys| && (forall a, b :: hash(a) == hash(b) ==> a == b)
    requires forall j :: 0 <= j < i ==> keys[j].key != keys[i].key
    ensures hash(keys[i].key) in Meaning(Seeded(hash, keys))
    ensures Meaning(Seeded(hash, keys))[hash(keys[i].key)] == Identity(keys[i].name, keys[i].admin)
  {
    FirstCounts(Seeded(hash, keys), hash(keys[i].key), i);
  }

  // During a rotation both secrets of a name resolve to the same identity.
  lemma RotationOverlap(hash: string -> string, input: string, i: nat, j: nat)
    requires (forall a, b :: hash(a) == hash(b) ==> a == b) && Parse(input).Keys?
    requires i < |Parse(input).list| && j < |Parse(input).list|
    requires Parse(input).list[i].name == Parse(input).list[j].name
    requires forall k :: 0 <= k < i ==> Parse(input).list[k].key != Parse(input).list[i].key
    requires forall k :: 0 <= k < j ==> Parse(input).list[k].key != Parse(input).list[j].key
    ensures
      var keys := Parse(input).list;
      var m := Meaning(Seeded(hash, keys));
      hash(keys[i].key) in m && hash(keys[j].key) in m && m[hash(keys[i].key)] == m[hash(keys[j].key)]
  {
    var keys := Parse(input).list;
    ReadsEntries(input);
    SeededKeyResolves(hash, keys, i);
    SeededKeyResolves(hash, keys, j);
  }
}
