/**
 Plans in which a destination is called like a temp or backup of another. A call
 works on names, so it takes the one for the other; these are its runs by name.
 */
module Aliases {
  import opened Common
  import opened FileSystem
  import opened Ownership
  import opened Protocol
  import opened Names
  import opened Runs
  import opened Naming
  import opened Guarantees
  import opened Scenes

  // d_i is the name of one of d_j's temps.
  ghost predicate TempClash(job: Job, i: nat, j: nat, n: nat) {
    i < job.N() && j < job.N() && n <= MAX_NANOS && job.files[i].abs == Render(Temp(job.files[j].abs, n))
  }

  ghost predicate BackupClash(job: Job, i: nat, j: nat, n: nat) {
    && i < job.N() && j < job.N() && n <= MAX_NANOS && job.retention != -1
    && job.files[i].abs == Render(Backup(job.files[j].abs, n))
  }

  ghost predicate ClashesAt(job: Job, j: nat) { exists i, n :: TempClash(job, i, j, n) }

  lemma DestIndex(job: Job, s: string) returns (i: nat)
    requires s in Dests(job)
    ensures i < job.N() && job.files[i].abs == s
  {
    i :| 0 <= i < job.N() && job.files[i].abs == s;
  }

  lemma ImproperClashes(job: Job)
    requires !Proper(Dests(job), job)
    ensures (exists j :: ClashesAt(job, j)) || exists i, j, n :: BackupClash(job, i, j, n)
  {
    var j, n: nat :| && 0 <= j < job.N() && n <= MAX_NANOS
                     && (|| Render(Temp(job.files[j].abs, n)) in Dests(job)
                         || (job.retention != -1 && Render(Backup(job.files[j].abs, n)) in Dests(job)));
    if Render(Temp(job.files[j].abs, n)) in Dests(job) {
      var i := DestIndex(job, Render(Temp(job.files[j].abs, n)));
      assert TempClash(job, i, j, n) && ClashesAt(job, j);
    } else {
      var i := DestIndex(job, Render(Backup(job.files[j].abs, n)));
      assert BackupClash(job, i, j, n);
    }
  }

  lemma {:induction false} FirstClash(job: Job, j: nat) returns (k: nat)
    requires ClashesAt(job, j)
    ensures ClashesAt(job, k) && forall m: nat :: m < k ==> !ClashesAt(job, m)
  {
    if m: nat :| m < j && ClashesAt(job, m) {
      k := FirstClash(job, m);
    } else {
      k := j;
    }
  }

  ghost function Setup(env: Env, job: Job, fs0: Files, t: nat, b: nat): (x: Plot)
    requires job.WellFormed() && !job.solo && Resolves(env, job) && t <= MAX_NANOS && b <= MAX_NANOS
  {
    Scenario(env, job, fs0, fs0, true, t, b, true)
  }

  lemma NoClashApart(x: Plot, i: nat)
    requires i < x.N() && !ClashesAt(x.job, i)
    ensures TempApart(x, i)
  {
    if Render(Temp(x.Dest(i), x.t)) in Dests(x.job) {
      var k := DestIndex(x.job, Render(Temp(x.Dest(i), x.t)));
      assert TempClash(x.job, k, i, x.t);
    } else if x.byName {
      CanonicalNamed(Dests(x.job), Temp(x.Dest(i), x.t));
    }
  }

  lemma ClashAt(x: Plot, p: Path, i: nat)
    requires x.byName && i < x.N() && x.Dest(i) == Render(p)
    ensures At(x, p) == Live(x.Dest(i))
  {
    assert x.job.files[i] in x.job.files;
  }

  // ----- an abort that leaves another destination behind -----

  lemma WriteFails(x: Plot, l: Local, fs: Files, j: nat)
    requires OnStage(x, l, fs, j, SWrite, false)
    ensures OnStage(x, l.(pc := AtTemp(j, SDrop)), fs, j, SDrop, false)
  {
    var p := Temp(x.Dest(j), l.stamp);
    Go(x, l, fs, Write(p, x.job.files[j].bytes), Err);
    assert OnTemp(x.env, x.job, l, j, SWrite, p, Err) == l.(pc := AtTemp(j, SDrop));
  }

  lemma DropFails(x: Plot, l: Local, fs: Files, j: nat) returns (l': Local)
    requires OnStage(x, l, fs, j, SDrop, false)
    ensures Possible(x, l', fs) && l'.pc == AtCleanTemps(0, Aborted) && |l'.preps| == x.N()
  {
    var p := Temp(x.Dest(j), l.stamp);
    Go(x, l, fs, Remove(p), Err);
    l' := CleanUp(NoteRemove(l, p, Err), Aborted);
  }

  // The open of j's temp creates what its name leads to; the write fails, and so does the removal.
  lemma AbandonsTemp(x: Plot, l: Local, fs: Files, j: nat, q: Path) returns (l': Local, fs': Files)
    requires OnStage(x, l, fs, j, SOpen, false) && q == At(x, Temp(x.Dest(j), x.t)) && q !in fs
    ensures Possible(x, l', fs') && l'.pc == AtCleanTemps(0, Aborted) && |l'.preps| == x.N() && q in fs'
  {
    fs' := fs[q := Bare(x, [])];
    OpensTemp(x, l, fs, j, false, q, fs');
    var l1 := l.(stamp := x.t, pc := AtTemp(j, SWrite));
    WriteFails(x, l1, fs', j);
    l' := DropFails(x, l1.(pc := AtTemp(j, SDrop)), fs', j);
  }

  // Nothing is there before the call.
  lemma TempLeft(env: Env, job: Job, i: nat, j: nat, n: nat) returns (run: seq<Event>, s: State)
    requires job.WellFormed() && !job.solo && Resolves(env, job)
    requires TempClash(job, i, j, n) && forall m: nat :: m < j ==> !ClashesAt(job, m)
    ensures ExecByName(env, Dests(job), job, map[], run) == Some(s) && s.l.pc == AtEnd(Aborted)
    ensures Live(job.files[i].abs) in s.fs
  {
    var x := Setup(env, job, map[], n, 0);
    forall k | 0 <= k < j
      ensures TempApart(x, k)
    {
      NoClashApart(x, k);
    }
    var base, l, fs := Prepared(x, j);
    ShownAt(x, base, fs, 0, 0, j, i, StatusAt(i, 0, 0, j));
    assert SameAt(x.fs0, base, Live(x.Dest(i)));
    ClashAt(x, Temp(x.Dest(j), x.t), i);
    l, fs := AbandonsTemp(x, l, fs, j, Live(x.Dest(i)));
    l := CleansNone(x, l, fs, 0, Aborted);
    run :| ExecVia(x, run) == Some(State(l, fs)) && HonestStats(x.seen, run);
    s := State(l, fs);
  }

  // ----- a backup over another destination -----

  lemma {:induction false} PassesBackups(x: Plot, l: Local, fs: Files, i: nat, n: nat) returns (l': Local)
    requires i <= n <= x.N() && Early(x, l, fs, Saved(x, i), x.N(), i, 0)
    requires forall k :: i <= k < n ==> !x.Existed(k)
    ensures Early(x, l', fs, Saved(x, n), x.N(), n, 0)
    decreases n - i
  {
    l' := l;
    if i < n {
      l' := PassesBackup(x, l, fs, i);
      l' := PassesBackups(x, l', fs, i + 1, n);
    }
  }

  lemma AbandonsAll(x: Plot, l: Local, fs: Files, saved: nat) returns (l': Local)
    requires Early(x, l, fs, AtTemp(0, SOpen), x.N(), saved, 0)
    ensures Possible(x, l', fs) && l'.pc == AtEnd(Aborted)
  {
    var p := Temp(x.Dest(0), x.t);
    Stages(x, l, fs, 0, SOpen, Open(p), p, Err, false);
    l' := OnTemp(x.env, x.job, l, 0, SOpen, p, Err);
    l' := CleansNone(x, l', fs, 0, Aborted);
  }

  lemma BacksUpOver(x: Plot, j: nat, q: Path) returns (l: Local, fs: Files)
    requires j < x.N() && x.job.retention != -1 && q == At(x, Backup(x.Dest(j), x.b))
    requires forall k :: 0 <= k < x.N() ==> (x.Existed(k) <==> k == j)
    ensures Early(x, l, fs, AtTemp(0, SOpen), x.N(), x.N(), 0) && q in fs
  {
    fs := x.fs0;
    l := LooksAtAll(x);
    l := PassesBackups(x, l, fs, 0, j);
    l, fs := BacksUp(x, l, fs, j, q);
    l := PassesBackups(x, l, fs, j + 1, x.N());
  }

  // Destination j alone is there before the call.
  lemma BackupLeft(env: Env, job: Job, i: nat, j: nat, n: nat, f: File) returns (run: seq<Event>, s: State)
    requires job.WellFormed() && !job.solo && Resolves(env, job) && BackupClash(job, i, j, n)
    ensures ExecByName(env, Dests(job), job, map[Live(job.files[j].abs) := f], run) == Some(s)
    ensures s.l.pc == AtEnd(Aborted)
    ensures i != j && Live(job.files[i].abs) in s.fs
  {
    SiblingName(job.files[j].abs, BACKUP_SUFFIX, n);
    var x := Setup(env, job, map[Live(job.files[j].abs) := f], 0, n);
    ClashAt(x, Backup(x.Dest(j), x.b), i);
    var l, fs := BacksUpOver(x, j, Live(x.Dest(i)));
    l := AbandonsAll(x, l, fs, x.N());
    run :| ExecVia(x, run) == Some(State(l, fs)) && HonestStats(x.seen, run);
    s := State(l, fs);
  }

  // ----- exactly -----

  // A run by name of the call, which has given up.
  ghost predicate GaveUp(env: Env, job: Job, fs0: Files, run: seq<Event>, s: State) {
    && AllNamed(Dests(job), fs0) && ExecByName(env, Dests(job), job, fs0, run) == Some(s)
    && s.l.pc == AtEnd(Aborted)
  }

  // Whenever the call gives up, every destination is as it was.
  ghost predicate AbortsClean(env: Env, job: Job) {
    forall fs0, run, s :: GaveUp(env, job, fs0, run, s) ==> Untouched(job, fs0, s.fs)
  }

  lemma ProperAbortsClean(env: Env, job: Job)
    requires job.WellFormed() && Proper(Dests(job), job)
    ensures AbortsClean(env, job)
  {
    forall fs0, run, s | GaveUp(env, job, fs0, run, s)
      ensures Untouched(job, fs0, s.fs)
    {
      RunsByName(env, Dests(job), job, fs0, run);
      EveryReturn(env, job, fs0, run, s.l, s.fs, Aborted);
    }
  }

  lemma CreatedIsNotClean(env: Env, job: Job, fs0: Files, run: seq<Event>, s: State, i: nat)
    requires GaveUp(env, job, fs0, run, s)
    requires i < job.N() && Live(job.files[i].abs) !in fs0 && Live(job.files[i].abs) in s.fs
    ensures !AbortsClean(env, job)
  {
    assert !SameAt(fs0, s.fs, Live(job.files[i].abs));
  }

  lemma TempClashShows(env: Env, job: Job, j: nat)
    requires job.WellFormed() && !job.solo && Resolves(env, job) && ClashesAt(job, j)
    ensures !AbortsClean(env, job)
  {
    var k := FirstClash(job, j);
    var i: nat, n: nat :| TempClash(job, i, k, n);
    var run, s := TempLeft(env, job, i, k, n);
    CreatedIsNotClean(env, job, map[], run, s, i);
  }

  lemma BackupClashShows(env: Env, job: Job, i: nat, j: nat, n: nat, f: File)
    requires job.WellFormed() && !job.solo && Resolves(env, job) && BackupClash(job, i, j, n)
    ensures !AbortsClean(env, job)
  {
    var run, s := BackupLeft(env, job, i, j, n, f);
    assert job.files[j] in job.files;
    CreatedIsNotClean(env, job, map[Live(job.files[j].abs) := f], run, s, i);
  }

  // An aborted call leaves every destination untouched, in every directory and
  // every run by name, if and only if no destination is called like a temp, or
  // with backups on like a backup, of a destination of the plan.
  lemma AbortsCleanExactly(env: Env, job: Job, f: File)
    requires job.WellFormed() && !job.solo && Resolves(env, job)
    ensures Proper(Dests(job), job) <==> AbortsClean(env, job)
  {
    if Proper(Dests(job), job) {
      ProperAbortsClean(env, job);
    } else {
      ImproperClashes(job);
      if j: nat :| ClashesAt(job, j) {
        TempClashShows(env, job, j);
      } else {
        var i: nat, j: nat, n: nat :| BackupClash(job, i, j, n);
        BackupClashShows(env, job, i, j, n, f);
      }
    }
  }

  // ----- a success that loses bytes -----

  // The temp of the second file is taken for the first destination. Its rename
  // carries the first file's bytes away: the call succeeds, the first
  // destination is gone and the second holds the wrong bytes.
  lemma TempNameLosesBytes(env: Env, job: Job, n: nat) returns (run: seq<Event>, s: State)
    requires job.WellFormed() && job.N() == 2 && !job.solo && Resolves(env, job) && TempClash(job, 0, 1, n)
    ensures ExecByName(env, Dests(job), job, map[], run) == Some(s) && s.l.pc == AtEnd(Deployed)
    ensures Live(job.files[0].abs) !in s.fs
    ensures BytesAt(s.fs, Live(job.files[1].abs)) == Some(job.files[0].bytes)
  {
    var x := Setup(env, job, map[], n, 0);
    FirstTempApart(x, n);
    var base, l, fs := Prepared(x, 1);
    ShownAt(x, base, fs, 0, 0, 1, 0, Ready);
    assert SameAt(x.fs0, base, Live(x.Dest(0)));
    l, fs := TakesFirst(x, l, fs);
    l := Validates(x, l, fs, Kept(x));
    l, fs := CarriesAway(x, l, fs);
    l := Succeeds(x, l, fs);
    run :| ExecVia(x, run) == Some(State(l, fs)) && HonestStats(x.seen, run);
    s := State(l, fs);
  }

  lemma FirstTempApart(x: Plot, n: nat)
    requires x.N() == 2 && TempClash(x.job, 0, 1, n)
    ensures TempsApart(x, 1)
  {
    SiblingName(x.Dest(1), TEMP_SUFFIX, n);
    LongestNoClash(x.job, 0);
    NoClashApart(x, 0);
  }

  lemma LongestNoClash(job: Job, j: nat)
    requires j < job.N() && forall i :: 0 <= i < job.N() ==> |job.files[i].abs| <= |job.files[j].abs|
    ensures !ClashesAt(job, j)
  {
    forall i: nat, m: nat
      ensures !TempClash(job, i, j, m)
    {
      if i < job.N() { SiblingName(job.files[j].abs, TEMP_SUFFIX, m); }
    }
  }

  lemma TakesFirst(x: Plot, l: Local, fs: Files) returns (l': Local, fs': Files)
    requires x.byName && TempClash(x.job, 0, 1, x.t) && x.N() == 2
    requires Early(x, l, fs, AtTemp(1, SOpen), 2, Kept(x), 1) && Live(x.Dest(0)) !in fs
    ensures Early(x, l', fs', Staged(x, 2), 2, Kept(x), 2) && fs' == fs[Live(x.Dest(0)) := NewFile(x, 1)]
  {
    ClashAt(x, Temp(x.Dest(1), x.t), 0);
    l', fs' := StagesOne(x, l, fs, Kept(x), 1, Live(x.Dest(0)));
  }

  lemma CarriesAway(x: Plot, l: Local, fs: Files) returns (l': Local, fs': Files)
    requires x.byName && TempClash(x.job, 0, 1, x.t) && x.N() == 2 && TempsApart(x, 1)
    requires Renaming(x, l, fs, AtRename(0), Kept(x), 0)
    requires Temp(x.Dest(0), x.t) in fs && fs[Temp(x.Dest(0), x.t)] == NewFile(x, 0)
    ensures Renaming(x, l', fs', Renamed(x, 2), Kept(x), 2)
    ensures Live(x.Dest(0)) !in fs' && Live(x.Dest(1)) in fs' && fs'[Live(x.Dest(1))] == NewFile(x, 0)
  {
    assert TempApart(x, 0);
    l', fs' := RenamesOne(x, l, fs, Kept(x), 0, Temp(x.Dest(0), x.t));
    ClashAt(x, Temp(x.Dest(1), x.t), 0);
    l', fs' := RenamesOne(x, l', fs', Kept(x), 1, Live(x.Dest(0)));
  }

  // The reload works and the janitor finds nothing.
  lemma Succeeds(x: Plot, l: Local, fs: Files) returns (l': Local)
    requires Renaming(x, l, fs, Renamed(x, x.N()), Kept(x), x.N())
    ensures Possible(x, l', fs) && l'.pc == AtEnd(Deployed)
  {
    l' := l;
    if x.job.Keep() > 0 {
      l' := Reloads(x, l, fs, Kept(x));
      l' := PassesUpTo(x, l', fs, 0, x.N());
    } else if x.job.hasPost {
      Go(x, l, fs, PostCommit, Ok);
      l' := OnPost(x.job, l, Ok);
    }
  }
}
