/** Sequences of calls, each ending any way it can or stopping half way. */
module Campaigns {
  import opened Common
  import opened FileSystem
  import opened Ownership
  import opened Retention
  import opened Protocol
  import opened Names
  import opened Invariant
  import opened Runs
  import opened Events
  import opened Guarantees

  datatype Call = Call(job: Job, run: seq<Event>, l: Local)

  // Call k takes states[k] to states[k + 1].
  ghost predicate Campaign(env: Env, calls: seq<Call>, states: seq<Files>) {
    && |states| == |calls| + 1
    && forall k :: 0 <= k < |calls| ==> Ran(env, calls[k].job, states[k], calls[k].run, calls[k].l, states[k + 1])
  }

  // ----- ownership -----

  predicate SameOwnership(a: File, b: File) { Perm(a.mode) == Perm(b.mode) && a.uid == b.uid && a.gid == b.gid }

  // This process can give a new file f's owner pair.
  predicate CanKeep(env: Env, f: File) { env.root || (f.uid == env.uid && f.gid == env.gid) }

  predicate LeavesOwnership(job: Job) {
    job.retention != -1 && forall j :: 0 <= j < job.N() ==> !Overrides(job.files[j])
  }

  // The call does not take the file d for a temp or backup of its own.
  ghost predicate Clear(job: Job, d: string) {
    Proper({d}, job) && Orderly(job) && (job.Keep() > 0 ==> !Exposed(job, Live(d)))
  }

  lemma WholeKeepsOwnership(env: Env, job: Job, fs0: Files, fs: Files, j: nat)
    requires j < job.N() && Whole(env, job, fs0, fs, j) && !Overrides(job.files[j])
    requires Live(job.files[j].abs) in fs0 && CanKeep(env, fs0[Live(job.files[j].abs)])
    ensures Live(job.files[j].abs) in fs && SameOwnership(fs0[Live(job.files[j].abs)], fs[Live(job.files[j].abs)])
  {
  }

  lemma CallKeepsOwnership(env: Env, job: Job, fs0: Files, run: seq<Event>, l: Local, fs: Files, d: string)
    requires Ran(env, job, fs0, run, l, fs) && LeavesOwnership(job) && Clear(job, d)
    requires Live(d) in fs0 && CanKeep(env, fs0[Live(d)])
    ensures Live(d) in fs && SameOwnership(fs0[Live(d)], fs[Live(d)])
  {
    if job.IsDest(d) {
      var j :| 0 <= j < job.N() && job.files[j].abs == d;
      TornFree(env, job, fs0, run, l, fs);
      assert Whole(env, job, fs0, fs, j) || Dropped(job, fs0, l, fs, j);
      WholeKeepsOwnership(env, job, fs0, fs, j);
    } else {
      BystandersUntouched(env, job, fs0, run, l, fs, Live(d));
    }
  }

  // However many calls succeed, fail, roll back or stop half way, an existing
  // file keeps its permission bits and owner pair, if the process can set it.
  lemma {:induction false} OwnershipNeverChanges(env: Env, calls: seq<Call>, states: seq<Files>, d: string)
    requires Campaign(env, calls, states)
    requires forall k :: 0 <= k < |calls| ==> LeavesOwnership(calls[k].job) && Clear(calls[k].job, d)
    requires Live(d) in states[0] && CanKeep(env, states[0][Live(d)])
    ensures Live(d) in states[|calls|] && SameOwnership(states[0][Live(d)], states[|calls|][Live(d)])
  {
    if calls != [] {
      var n := |calls| - 1;
      OwnershipNeverChanges(env, calls[..n], states[..n + 1], d);
      CallKeepsOwnership(env, calls[n].job, states[n], calls[n].run, calls[n].l, states[n + 1], d);
    }
  }

  // ----- backup history -----

  function Contents(fs: Files, d: string, stamps: seq<nat>): seq<Bytes>
    requires forall i :: 0 <= i < |stamps| ==> Backup(d, stamps[i]) in fs
  {
    seq(|stamps|, i requires 0 <= i < |stamps| => fs[Backup(d, stamps[i])].bytes)
  }

  // The contents of d's backups, oldest first.
  ghost function History(fs: Files, d: string): seq<Bytes> { Contents(fs, d, Sorted(BackupStamps(fs, d))) }

  function Overwritten(fs: Files, d: string): seq<Bytes> { if Live(d) in fs then [fs[Live(d)].bytes] else [] }

  // What a call that gets past its backups adds to the history of d.
  function Added(job: Job, fs0: Files, d: string): seq<Bytes> { if job.retention == -1 then [] else Overwritten(fs0,
                 d) }

  // The clock has moved on since the backups there were.
  predicate ClockMoved(fs0: Files, run: seq<Event>) {
    forall p :: p in Stored(run) && p.Backup? ==> forall b :: b in BackupStamps(fs0, p.of) ==> b < p.stamp
  }

  // The janitor of a call that deployed d can do its work.
  ghost predicate Prunes(c: Call, fs0: Files, d: string) {
    c.l.pc == AtEnd(Deployed) && c.job.Keep() > 0 ==> JanitorWorks(c.run) && c.job.Spaced() && Lone(fs0, d)
  }

  lemma BackupsAfter(env: Env, job: Job, fs0: Files, l: Local, fs: Files, j: nat, o: Outcome)
    requires Inv(env, job, fs0, l, fs) && l.pc == AtEnd(o) && !o.Aborted? && j < job.N()
    requires o.Deployed? && job.Keep() > 0 ==> l.swept && job.Spaced() && Lone(fs0, job.files[j].abs)
    ensures BackupStamps(fs, job.files[j].abs) ==
            if o.Deployed? then Newest(job.Keep(), AllBackups(job, fs0, l, j)) else AllBackups(job, fs0, l, j)
    ensures forall b :: b in BackupStamps(fs, job.files[j].abs) ==>
              KeptFile(job, fs0, l, j, b, fs[Backup(job.files[j].abs, b)])
  {
    assert Holding(job, fs0, l, fs, j, Must(job, fs0, l, j), Exact(job, fs0, l, j));
  }

  lemma BackedUpIfThere(env: Env, job: Job, fs0: Files, l: Local, fs: Files, j: nat, o: Outcome)
    requires Inv(env, job, fs0, l, fs) && SawAll(job, fs0, l) && l.pc == AtEnd(o) && !o.Aborted? && j < job.N()
    ensures Own(l, j).Some? <==> !o.Skipped? && Live(job.files[j].abs) in fs0 && job.retention != -1
  {
    if !o.Skipped? {
      assert |l.preps| == job.N();
      assert PrepAt(env, job, fs0, l, j);
    }
  }

  function Stamp(own: Option<nat>): seq<nat> { if own.Some? then [own.value] else [] }

  lemma SortedAll(job: Job, fs0: Files, l: Local, j: nat)
    requires j < job.N()
    requires Own(l, j).Some? ==> forall b :: b in BackupStamps(fs0, job.files[j].abs) ==> b < Own(l, j).value
    ensures Sorted(AllBackups(job, fs0, l, j))
            == Sorted(BackupStamps(fs0, job.files[j].abs)) + Stamp(Own(l, j))
  {
    var was := BackupStamps(fs0, job.files[j].abs);
    if Own(l, j).Some? {
      SortedAppend(was, Own(l, j).value);
    } else {
      assert AllBackups(job, fs0, l, j) == was;
    }
  }

  // Reading off the contents of the last backups of fs0 and the new one.
  lemma ReadOff(fs0: Files, fs: Files, d: string, own: Option<nat>, was: seq<nat>, kept: seq<nat>, keep: int)
    requires forall i :: 0 <= i < |was| ==> Backup(d, was[i]) in fs0 && own != Some(was[i])
    requires (own.Some? ==> Live(d) in fs0) && kept == Retained(keep, was + Stamp(own))
    requires forall i :: 0 <= i < |kept| ==> Backup(d, kept[i]) in fs
    requires forall i :: 0 <= i < |kept| ==>
               if own == Some(kept[i]) then fs[Backup(d, kept[i])].bytes == fs0[Live(d)].bytes
               else Backup(d, kept[i]) in fs0 && fs[Backup(d, kept[i])] == fs0[Backup(d, kept[i])]
    ensures Contents(fs, d, kept)
            == Retained(keep, Contents(fs0, d, was) + if own.Some? then Overwritten(fs0, d) else [])
  {
    var full, before := was + Stamp(own), Contents(fs0, d, was) + if own.Some? then Overwritten(fs0, d) else [];
    var skip := |full| - |kept|;
    forall i | 0 <= i < |kept|
      ensures Contents(fs, d, kept)[i] == before[skip + i]
    {
      assert kept[i] == full[skip + i];
    }
  }

  lemma HistoryOf(job: Job, fs0: Files, l: Local, fs: Files, j: nat, keep: int)
    requires j < job.N() && (Own(l, j).Some? ==> Live(job.files[j].abs) in fs0)
    requires Own(l, j).Some? ==> forall b :: b in BackupStamps(fs0, job.files[j].abs) ==> b < Own(l, j).value
    requires Sorted(BackupStamps(fs, job.files[j].abs)) == Retained(keep, Sorted(AllBackups(job, fs0, l, j)))
    requires forall b :: b in BackupStamps(fs, job.files[j].abs) ==>
               KeptFile(job, fs0, l, j, b, fs[Backup(job.files[j].abs, b)])
    ensures History(fs, job.files[j].abs)
            == Retained(keep, History(fs0, job.files[j].abs)
                              + if Own(l, j).Some? then Overwritten(fs0, job.files[j].abs) else [])
  {
    var d := job.files[j].abs;
    var was, kept := Sorted(BackupStamps(fs0, d)), Sorted(BackupStamps(fs, d));
    SortedAll(job, fs0, l, j);
    forall i | 0 <= i < |kept|
      ensures Backup(d, kept[i]) in fs && KeptFile(job, fs0, l, j, kept[i], fs[Backup(d, kept[i])])
    {
      assert kept[i] in BackupStamps(fs, d);
    }
    forall i | 0 <= i < |was|
      ensures Backup(d, was[i]) in fs0 && Own(l, j) != Some(was[i])
    {
      assert was[i] in BackupStamps(fs0, d);
    }
    ReadOff(fs0, fs, d, Own(l, j), was, kept, keep);
  }

  // What a call prunes d's history to: everything unless it deployed.
  function KeepOf(job: Job, o: Outcome): int { if o.Deployed? then job.Keep() else 0 }

  lemma SortedKept(keep: int, all: set<nat>, kept: set<nat>)
    requires kept == Newest(keep, all)
    ensures Sorted(kept) == Retained(keep, Sorted(all))
  {
    if keep > 0 { TopIsLast(keep, all, kept); }
  }

  lemma OwnIsFresh(env: Env, c: Call, fs0: Files, fs: Files, j: nat)
    requires Ran(env, c.job, fs0, c.run, c.l, fs) && ClockMoved(fs0, c.run) && j < c.job.N() && Own(c.l, j).Some?
    ensures forall b :: b in BackupStamps(fs0, c.job.files[j].abs) ==> b < Own(c.l, j).value
  {
    RunStores(env, c.job, fs0, c.run, c.l, fs);
    assert Backup(c.job.files[j].abs, Own(c.l, j).value) in Stored(c.run);
  }

  // How a call that was not aborted changes the history of a destination: it
  // adds the bytes it was to overwrite, unless it skipped or takes no backups,
  // and prunes if it succeeded.
  lemma HistoryStep(env: Env, c: Call, fs0: Files, fs: Files, j: nat, o: Outcome)
    requires Ran(env, c.job, fs0, c.run, c.l, fs) && ClockMoved(fs0, c.run) && c.l.pc == AtEnd(o) && !o.Aborted?
    requires j < c.job.N() && Prunes(c, fs0, c.job.files[j].abs)
    ensures var d := c.job.files[j].abs;
            History(fs, d)
            == Retained(KeepOf(c.job, o), History(fs0, d) + if o.Skipped? then [] else Added(c.job, fs0, d))
  {
    var all := AllBackups(c.job, fs0, c.l, j);
    Facts(env, c.job, fs0, c.run, c.l, fs);
    RunBooks(env, c.job, fs0, c.run, c.l, fs);
    BackupsAfter(env, c.job, fs0, c.l, fs, j, o);
    BackedUpIfThere(env, c.job, fs0, c.l, fs, j, o);
    if Own(c.l, j).Some? { OwnIsFresh(env, c, fs0, fs, j); }
    SortedKept(KeepOf(c.job, o), all, BackupStamps(fs, c.job.files[j].abs));
    HistoryOf(c.job, fs0, c.l, fs, j, KeepOf(c.job, o));
  }

  // Retention 0 does not turn backups off: it keeps three.
  lemma ZeroRetentionKeepsThree(env: Env, c: Call, fs0: Files, fs: Files, j: nat)
    requires Ran(env, c.job, fs0, c.run, c.l, fs) && ClockMoved(fs0, c.run) && c.l.pc == AtEnd(Deployed)
    requires c.job.retention == 0 && j < c.job.N() && Prunes(c, fs0, c.job.files[j].abs)
    ensures var d := c.job.files[j].abs; History(fs, d) == LastN(3, History(fs0, d) + Overwritten(fs0, d))
  {
    HistoryStep(env, c, fs0, fs, j, Deployed);
  }

  // ----- the history over many calls -----

  lemma ContentsJoin(fs0: Files, fs: Files, d: string, a: seq<nat>, b: seq<nat>)
    requires forall i :: 0 <= i < |a| ==> Backup(d, a[i]) in fs0 && SameAt(fs0, fs, Backup(d, a[i]))
    requires forall i :: 0 <= i < |b| ==> Backup(d, b[i]) in fs
    ensures forall i :: 0 <= i < |a + b| ==> Backup(d, (a + b)[i]) in fs
    ensures Contents(fs, d, a + b) == Contents(fs0, d, a) + Contents(fs, d, b)
  {
  }

  lemma HistoryGrows(fs0: Files, fs: Files, d: string, was: set<nat>, added: set<nat>) returns (more: seq<Bytes>)
    requires was == BackupStamps(fs0, d) && was + added == BackupStamps(fs, d) && Precedes(was, added)
    requires forall b :: b in was ==> SameAt(fs0, fs, Backup(d, b))
    ensures History(fs, d) == History(fs0, d) + more
  {
    var a, b := Sorted(was), Sorted(added);
    SortedUnion(was, added, was + added, a, b);
    forall i | 0 <= i < |b|
      ensures Backup(d, b[i]) in fs
    {
      assert b[i] in was + added;
    }
    ContentsJoin(fs0, fs, d, a, b);
    more := Contents(fs, d, b);
  }

  // An aborted call may leave a backup behind, but touches none from before.
  lemma AbortedHistory(env: Env, c: Call, fs0: Files, fs: Files, d: string) returns (more: seq<Bytes>)
    requires Arrived(env, c.job, fs0, c.run, c.l, fs) && ClockMoved(fs0, c.run) && c.l.pc == AtEnd(Aborted)
    ensures History(fs, d) == History(fs0, d) + more
  {
    var was, now := BackupStamps(fs0, d), BackupStamps(fs, d);
    forall b | b in was
      ensures SameAt(fs0, fs, Backup(d, b))
    {
      EarlierBackupsStay(env, c.job, fs0, c.run, c.l, fs, Backup(d, b));
    }
    assert was + (now - was) == now;
    forall b, n | b in was && n in now - was
      ensures b < n
    {
      NewAreStored(env, c.job, fs0, c.run, c.l, fs, Backup(d, n));
    }
    more := HistoryGrows(fs0, fs, d, was, now - was);
  }

  // No destination of the call is near d, nor d near one or called like a temp of one.
  ghost predicate Apart(job: Job, d: string) {
    Proper({d}, job) && forall j :: 0 <= j < job.N() ==> !Near(d, job.files[j].abs) && !Near(job.files[j].abs, d)
  }

  lemma OtherBackup(env: Env, c: Call, fs0: Files, fs: Files, d: string, b: nat)
    requires Arrived(env, c.job, fs0, c.run, c.l, fs) && !c.job.IsDest(d) && Apart(c.job, d)
    ensures SameAt(fs0, fs, Backup(d, b))
  {
    forall j | 0 <= j < c.job.N()
      ensures !Listed(c.job.files[j].abs, Backup(d, b))
    {
      ListedExactly(c.job.files[j].abs, Backup(d, b));
    }
    BystandersUntouched(env, c.job, fs0, c.run, c.l, fs, Backup(d, b));
  }

  lemma SameHistory(fs0: Files, fs: Files, d: string)
    requires forall b: nat :: SameAt(fs0, fs, Backup(d, b))
    ensures History(fs, d) == History(fs0, d)
  {
    forall b: nat
      ensures b in BackupStamps(fs, d) <==> b in BackupStamps(fs0, d)
    {
      assert SameAt(fs0, fs, Backup(d, b));
    }
    assert BackupStamps(fs, d) == BackupStamps(fs0, d);
    var stamps := Sorted(BackupStamps(fs0, d));
    assert forall i :: 0 <= i < |stamps| ==> SameAt(fs0, fs, Backup(d, stamps[i]));
  }

  lemma OtherHistory(env: Env, c: Call, fs0: Files, fs: Files, d: string)
    requires Arrived(env, c.job, fs0, c.run, c.l, fs) && !c.job.IsDest(d) && Apart(c.job, d)
    ensures History(fs, d) == History(fs0, d)
  {
    forall b: nat
      ensures SameAt(fs0, fs, Backup(d, b))
    {
      OtherBackup(env, c, fs0, fs, d, b);
    }
    SameHistory(fs0, fs, d);
  }

  // What a finished call adds to the history of d.
  ghost predicate Adds(c: Call, fs0: Files, d: string, a: seq<Bytes>) {
    if !c.job.IsDest(d) || c.l.pc == AtEnd(Skipped) then a == []
    else c.l.pc == AtEnd(Aborted) || a == Added(c.job, fs0, d)
  }

  ghost predicate DeploysTo(c: Call, d: string) { c.job.IsDest(d) && c.l.pc == AtEnd(Deployed) && c.job.Keep() > 0 }

  ghost predicate InCampaign(c: Call, fs0: Files, d: string, keep: nat) {
    && c.l.pc.AtEnd? && ClockMoved(fs0, c.run) && Apart(c.job, d)
    && (DeploysTo(c, d) ==> c.job.Keep() == keep && c.job.Spaced() && JanitorWorks(c.run))
  }

  lemma CallHistory(env: Env, c: Call, fs0: Files, fs: Files, d: string, keep: nat) returns (a: seq<Bytes>)
    requires Ran(env, c.job, fs0, c.run, c.l, fs) && InCampaign(c, fs0, d, keep) && Lone(fs0, d)
    ensures Adds(c, fs0, d, a)
    ensures History(fs, d) == if DeploysTo(c, d) then LastN(keep, History(fs0, d) + a) else History(fs0, d) + a
  {
    if !c.job.IsDest(d) {
      OtherHistory(env, c, fs0, fs, d);
      a := [];
      assert History(fs0, d) + a == History(fs0, d);
    } else if c.l.pc == AtEnd(Aborted) {
      a := AbortedHistory(env, c, fs0, fs, d);
    } else {
      var j :| 0 <= j < c.job.N() && c.job.files[j].abs == d;
      HistoryStep(env, c, fs0, fs, j, c.l.pc.outcome);
      a := if c.l.pc == AtEnd(Skipped) then [] else Added(c.job, fs0, d);
    }
  }

  function Concat(xs: seq<seq<Bytes>>): seq<Bytes> {
    if xs == [] then [] else Concat(xs[..|xs| - 1]) + xs[|xs| - 1]
  }

  // Dropping all but the last `keep` now and then drops all but the last `keep`.
  lemma FoldStep(keep: nat, start: seq<Bytes>, past: seq<Bytes>, h: seq<Bytes>, last: seq<Bytes>, h': seq<Bytes>)
    requires LastN(keep, h) == LastN(keep, start + past) && (h' == h + last || h' == LastN(keep, h + last))
    ensures LastN(keep, h') == LastN(keep, start + (past + last))
  {
    LastTwice(keep, h, last);
    LastTwice(keep, start + past, last);
    assert (start + past) + last == start + (past + last);
  }

  lemma HistoryNext(env: Env, c: Call, fs0: Files, fs: Files, d: string, keep: nat, start: seq<Bytes>,
                    past: seq<seq<Bytes>>)
      returns (a: seq<Bytes>)
    requires Ran(env, c.job, fs0, c.run, c.l, fs) && InCampaign(c, fs0, d, keep) && Lone(fs0, d)
    requires LastN(keep, History(fs0, d)) == LastN(keep, start + Concat(past))
    ensures Adds(c, fs0, d, a) && Lone(fs, d) && (DeploysTo(c, d) ==> |History(fs, d)| <= keep)
    ensures LastN(keep, History(fs, d)) == LastN(keep, start + Concat(past + [a]))
  {
    StaysLone(env, c.job, fs0, c.run, c.l, fs, d);
    a := CallHistory(env, c, fs0, fs, d, keep);
    FoldStep(keep, start, Concat(past), History(fs0, d), a, History(fs, d));
    assert (past + [a])[..|past|] == past;
  }

  ghost predicate AllInCampaign(calls: seq<Call>, states: seq<Files>, d: string, keep: nat) {
    |states| == |calls| + 1 && forall k :: 0 <= k < |calls| ==> InCampaign(calls[k], states[k], d, keep)
  }

  lemma CampaignPrefix(env: Env, calls: seq<Call>, states: seq<Files>, d: string, keep: nat, n: nat)
    requires Campaign(env, calls, states) && AllInCampaign(calls, states, d, keep) && n == |calls| - 1
    ensures Campaign(env, calls[..n], states[..n + 1]) && AllInCampaign(calls[..n], states[..n + 1], d, keep)
    ensures Ran(env, calls[n].job, states[n], calls[n].run, calls[n].l, states[n + 1])
    ensures InCampaign(calls[n], states[n], d, keep)
  {
    assert forall k :: 0 <= k < n ==> calls[..n][k] == calls[k] && states[..n + 1][k] == states[k];
    assert forall k :: 0 <= k <= n ==> states[..n + 1][k] == states[k];
  }

  // What each call added.
  ghost predicate AllAdd(calls: seq<Call>, states: seq<Files>, d: string, added: seq<seq<Bytes>>) {
    && |added| == |calls| < |states|
    && forall k :: 0 <= k < |calls| ==> Adds(calls[k], states[k], d, added[k])
  }

  lemma AddsOneMore(calls: seq<Call>, states: seq<Files>, d: string, past: seq<seq<Bytes>>, a: seq<Bytes>, n: nat)
    requires n == |calls| - 1 && |states| == |calls| + 1 && AllAdd(calls[..n], states[..n + 1], d, past)
    requires Adds(calls[n], states[n], d, a)
    ensures AllAdd(calls, states, d, past + [a])
  {
    forall k | 0 <= k < |calls|
      ensures Adds(calls[k], states[k], d, (past + [a])[k])
    {
      if k < n { assert Adds(calls[..n][k], states[..n + 1][k], d, past[k]); }
    }
  }

  // After any sequence of calls on any destinations, however each ends, the
  // newest `keep` backups of d are the last `keep` of the backups there were
  // and of what the calls have added since, which for every call that wrote d
  // or rolled it back is the content it found.
  lemma {:induction false} BackupHistory(env: Env, calls: seq<Call>, states: seq<Files>, d: string, keep: nat)
      returns (added: seq<seq<Bytes>>)
    requires Campaign(env, calls, states) && Lone(states[0], d) && AllInCampaign(calls, states, d, keep)
    ensures AllAdd(calls, states, d, added)
    ensures LastN(keep, History(states[|calls|], d)) == LastN(keep, History(states[0], d) + Concat(added))
    ensures Lone(states[|calls|], d)
    ensures calls != [] && DeploysTo(calls[|calls| - 1], d) ==> |History(states[|calls|], d)| <= keep
  {
    if calls == [] {
      added := [];
      assert History(states[0], d) + [] == History(states[0], d);
    } else {
      var n := |calls| - 1;
      CampaignPrefix(env, calls, states, d, keep, n);
      var past := BackupHistory(env, calls[..n], states[..n + 1], d, keep);
      var a := HistoryNext(env, calls[n], states[n], states[n + 1], d, keep, History(states[0], d), past);
      AddsOneMore(calls, states, d, past, a, n);
      added := past + [a];
    }
  }

  // In particular, once a call has deployed d, the backups are exactly those.
  lemma BackupsAreTheLast(env: Env, calls: seq<Call>, states: seq<Files>, d: string, keep: nat)
    returns (added: seq<seq<Bytes>>)
    requires Campaign(env, calls, states) && Lone(states[0], d) && calls != [] && DeploysTo(calls[|calls| - 1], d)
    requires AllInCampaign(calls, states, d, keep)
    ensures AllAdd(calls, states, d, added)
    ensures History(states[|calls|], d) == LastN(keep, History(states[0], d) + Concat(added))
  {
    added := BackupHistory(env, calls, states, d, keep);
  }
}
