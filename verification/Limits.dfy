/** Where the promises of the deploy package stop: for any plan, runs that do not keep them. */
module Limits {
  import opened Common
  import opened FileSystem
  import opened Ownership
  import opened Retention
  import opened Protocol
  import opened Names
  import opened Order
  import opened Runs
  import opened Guarantees
  import opened Campaigns
  import opened Scenes

  // A plan of Apply whose lookups work, and a clock value for its temps.
  ghost predicate Runnable(env: Env, job: Job, fs0: Files, t: nat) {
    && job.WellFormed() && Proper(Dests(job), job) && !job.solo && t <= MAX_NANOS
    && forall i :: 0 <= i < job.N() ==> Resolution(env, job, fs0, i).Some? && Temp(job.files[i].abs, t) !in fs0
  }

  // Its runs with stats that show `seen`, and chowns that all work or all fail.
  ghost function Setup(env: Env, job: Job, fs0: Files, seen: Files, t: nat, owns: bool): (x: Plot)
    requires Runnable(env, job, fs0, t) && (env.root ==> owns)
    requires forall p :: p in seen ==> p in fs0 && fs0[p] == seen[p]
    requires forall i :: 0 <= i < job.N() ==> Resolution(env, job, seen, i).Some?
    ensures Fresh(x, job.N())
  {
    var x := Scenario(env, job, fs0, seen, false, t, 0, owns);
    assert forall i :: 0 <= i < x.N() ==> TempApart(x, i) && BackupApart(x, i);
    x
  }

  lemma RunOf(x: Plot, l: Local, fs: Files) returns (run: seq<Event>)
    requires Possible(x, l, fs) && !x.byName && Proper(Dests(x.job), x.job)
    ensures Arrived(x.env, x.job, x.fs0, run, l, fs) && HonestStats(x.seen, run)
  {
    run :| ExecVia(x, run) == Some(State(l, fs)) && HonestStats(x.seen, run);
  }

  // ----- rollback without backups -----

  // With backups off, a failed reload can remove every file it was to restore,
  // and the call still reports a successful rollback.
  lemma RollbackWithoutBackupsLosesAll(env: Env, job: Job, fs0: Files, t: nat)
    returns (run: seq<Event>, l: Local, fs: Files)
    requires Runnable(env, job, fs0, t) && job.hasPost && job.retention == -1
    ensures Ran(env, job, fs0, run, l, fs) && l.pc == AtEnd(RolledBack)
    ensures forall i :: 0 <= i < job.N() ==> Live(job.files[i].abs) !in fs
  {
    var x, base := Setup(env, job, fs0, fs0, t, true), fs0;
    base, l, fs := RollsBack(x);
    run := RunOf(x, l, fs);
    forall i | 0 <= i < job.N()
      ensures Live(job.files[i].abs) !in fs
    {
      ShownAt(x, base, fs, x.N(), x.N(), x.N(), i, Back);
    }
  }

  // If the first stat of an existing file fails, the call takes it for missing:
  // whatever the retention, a rollback can remove it and report success.
  lemma FailedStatLosesTheFile(env: Env, job: Job, fs0: Files, t: nat, k: nat)
    returns (run: seq<Event>, l: Local, fs: Files)
    requires Runnable(env, job, fs0, t) && job.hasPost && k < job.N() && Live(job.files[k].abs) in fs0
    requires ResolveOwnership(env, job.files[k], job.defaults, None).Some?
    ensures Arrived(env, job, fs0, run, l, fs) && l.pc == AtEnd(RolledBack)
    ensures Live(job.files[k].abs) !in fs && !AllOld(job, fs0, fs)
  {
    var d := Live(job.files[k].abs);
    var x, base := Setup(env, job, fs0, fs0 - {d}, t, true), fs0;
    base, l, fs := RollsBack(x);
    run := RunOf(x, l, fs);
    ShownAt(x, base, fs, x.N(), x.N(), x.N(), k, Back);
    assert BytesAt(fs, d) == None && BytesAt(fs0, d).Some?;
  }

  // ----- ownership after rollback -----

  // If the resolved ownership does not fit, some answer to chown leaves another file.
  lemma Misfit(env: Env, job: Job, fs0: Files, t: nat, k: nat) returns (owns: bool)
    requires Runnable(env, job, fs0, t) && k < job.N() && Live(job.files[k].abs) in fs0 && !FitsAt(env, job, fs0, k)
    ensures env.root ==> owns
    ensures OldFile(Setup(env, job, fs0, fs0, t, owns), k) != fs0[Live(job.files[k].abs)]
  {
    var o, f := Resolution(env, job, fs0, k).value, fs0[Live(job.files[k].abs)];
    owns := env.root || !o.Chowns() || f.uid != o.uid || f.gid != o.gid;
  }

  // Every rollback gives the whole old files back if and only if the ownership
  // the plan resolves to fits each of them.
  lemma RollbackWholeExactly(env: Env, job: Job, fs0: Files, t: nat)
    requires Runnable(env, job, fs0, t) && job.hasPost && job.retention != -1
    ensures AllFit(env, job, fs0) <==>
            forall run, l, fs :: Ran(env, job, fs0, run, l, fs) && l.pc == AtEnd(RolledBack) ==> Untouched(job, fs0, fs)
  {
    if AllFit(env, job, fs0) {
      forall run, l, fs | Ran(env, job, fs0, run, l, fs) && l.pc == AtEnd(RolledBack)
        ensures Untouched(job, fs0, fs)
      {
        RollbackWhole(env, job, fs0, run, l, fs, RolledBack);
      }
    } else {
      var k :| 0 <= k < job.N() && Live(job.files[k].abs) in fs0 && !FitsAt(env, job, fs0, k);
      var run, l, fs := MisfitRun(env, job, fs0, t, k);
      assert Ran(env, job, fs0, run, l, fs) && !SameAt(fs0, fs, Live(job.files[k].abs));
    }
  }

  lemma MisfitRun(env: Env, job: Job, fs0: Files, t: nat, k: nat) returns (run: seq<Event>, l: Local, fs: Files)
    requires Runnable(env, job, fs0, t) && job.hasPost && job.retention != -1
    requires k < job.N() && Live(job.files[k].abs) in fs0 && !FitsAt(env, job, fs0, k)
    ensures Ran(env, job, fs0, run, l, fs) && l.pc == AtEnd(RolledBack) && !SameAt(fs0, fs, Live(job.files[k].abs))
  {
    var owns := Misfit(env, job, fs0, t, k);
    var x, base := Setup(env, job, fs0, fs0, t, owns), fs0;
    base, l, fs := RollsBack(x);
    run := RunOf(x, l, fs);
    ShownAt(x, base, fs, x.N(), x.N(), x.N(), k, Back);
  }

  // ----- ownership after success -----

  // A plan that overrides nothing keeps the permission bits and owner pair of an
  // existing destination in every state of every run if and only if this process
  // can set that pair: a chown that fails is forgiven when not root.
  lemma OwnershipKeptExactly(env: Env, job: Job, fs0: Files, t: nat, k: nat)
    requires Runnable(env, job, fs0, t) && LeavesOwnership(job)
    requires k < job.N() && Live(job.files[k].abs) in fs0 && Clear(job, job.files[k].abs)
    ensures CanKeep(env, fs0[Live(job.files[k].abs)]) <==>
            forall run, l, fs :: Ran(env, job, fs0, run, l, fs) ==>
              Live(job.files[k].abs) in fs && SameOwnership(fs0[Live(job.files[k].abs)], fs[Live(job.files[k].abs)])
  {
    var d := job.files[k].abs;
    if CanKeep(env, fs0[Live(d)]) {
      forall run, l, fs | Ran(env, job, fs0, run, l, fs)
        ensures Live(d) in fs && SameOwnership(fs0[Live(d)], fs[Live(d)])
      {
        CallKeepsOwnership(env, job, fs0, run, l, fs, d);
      }
    } else {
      var x := Setup(env, job, fs0, fs0, t, false);
      var base, l, fs := Swaps(x, x.N());
      var run := RunOf(x, l, fs);
      ShownAt(x, base, fs, 0, x.N(), x.N(), k, New);
      assert Ran(env, job, fs0, run, l, fs) && !SameOwnership(fs0[Live(d)], fs[Live(d)]);
    }
  }

  // ----- errors without a sentinel -----

  // A cancelled context wraps none of the package's errors.
  lemma CancelledWrapsNone(env: Env, job: Job, fs0: Files)
    ensures Reaches(env, job, fs0, [Event(CtxErr, Err)], START.(pc := AtEnd(Aborted)), fs0)
    ensures Aborted.Err() == PlainError
  {
    assert Reaches(env, job, fs0, [], START, fs0);
    Then(env, job, fs0, [], START, fs0, CtxErr, Err);
    assert [] + [Event(CtxErr, Err)] == [Event(CtxErr, Err)];
  }

  // A rename that fails after n others, and a rollback that works: the error
  // wraps none of the package's errors either.
  lemma RolledBackRenameWrapsNone(env: Env, job: Job, fs0: Files, t: nat, n: nat)
    returns (run: seq<Event>, l: Local, fs: Files)
    requires Runnable(env, job, fs0, t) && 0 < n < job.N()
    ensures Ran(env, job, fs0, run, l, fs) && l.pc == AtEnd(RenameFailed) && l.done == n
    ensures RenameFailed.Err() == PlainError
  {
    var x := Setup(env, job, fs0, fs0, t, true);
    l, fs := RollsBackRename(x, n);
    l := CleansNone(x, l, fs, 0, RenameFailed);
    run := RunOf(x, l, fs);
  }

  // ----- what the janitor removes -----

  // More files listed means more files before which `keep` others come.
  lemma DoomedGrows(keep: int, a: set<Path>, b: set<Path>, p: Path)
    requires a <= b && p in Doomed(keep, a)
    ensures p in Doomed(keep, b)
  {
    SizeGrows(After(a, p), After(b, p));
  }

  // A file with `keep` or more matching names after it is lost to a successful
  // deployment, though the call has no business with it.
  lemma ForeignFileLost(env: Env, job: Job, fs0: Files, t: nat, i: nat, p: Path)
    returns (run: seq<Event>, l: Local, fs: Files)
    requires Runnable(env, job, fs0, t) && i < job.N() && p in Doomed(job.Keep(), Found(fs0, job.files[i].abs))
    ensures Ran(env, job, fs0, run, l, fs) && l.pc == AtEnd(Deployed) && p in fs0 && p !in fs
  {
    var x, base, mid := Setup(env, job, fs0, fs0, t, true), fs0, fs0;
    base, mid, l, fs := Deploys(x, i);
    run := RunOf(x, l, fs);
    forall q | q in Found(fs0, job.files[i].abs)
      ensures q in Found(mid, job.files[i].abs)
    {
      ListedKept(x, base, mid, i, q);
    }
    DoomedGrows(job.Keep(), Found(fs0, job.files[i].abs), Found(mid, job.files[i].abs), p);
  }

  // What pruning finds before the call it still finds at its end.
  lemma ListedKept(x: Plot, base: Files, mid: Files, i: nat, q: Path)
    requires Fresh(x, x.N()) && Picture(x, base, mid, 0, x.N(), x.N()) && Safe(x, base, Kept(x))
    requires i < x.N() && q in Found(x.fs0, x.Dest(i))
    ensures q in Found(mid, x.Dest(i))
  {
    if x.job.IsDest(q.of) {
      var k :| 0 <= k < x.N() && x.job.files[k].abs == q.of;
      assert Temp(x.Dest(k), x.t) !in x.fs0;
      PictureKeeps(x, base, mid, q);
    } else {
      assert SameAt(base, mid, q);
    }
  }

  // For instance with retention 1 and two files called d.certctl-bak.0 and .1.
  lemma ForeignFileInput(d: string, f: File) returns (fs0: Files, p: Path)
    ensures p == Live(d + BACKUP_SUFFIX + "0") && p in Doomed(1, Found(fs0, d)) && Live(d) !in fs0
    ensures forall q :: q in fs0 ==> q.Live?
  {
    p := Live(d + BACKUP_SUFFIX + "0");
    var q := Live(d + BACKUP_SUFFIX + "1");
    fs0 := map[p := f, q := f];
    assert p.of[..|d| + 13] == d + BACKUP_SUFFIX && q.of[..|d| + 13] == d + BACKUP_SUFFIX;
    assert Listed(d, p) && Listed(d, q);
    LessAfterPrefix(d + BACKUP_SUFFIX, "0", "1");
    assert q in After(Found(fs0, d), p);
    assert |After(Found(fs0, d), p)| > 0;
    assert |p.of| > |d| && |q.of| > |d|;
  }

  // A directory in which the destination v is old enough for d's janitor.
  function Crowd(v: string, keep: nat, f: File): Files { map q | q in Extended(Live(v), keep) + {Live(v)} :: f }

  lemma CrowdDooms(d: string, v: string, keep: nat, f: File)
    requires keep > 0 && HasPrefix(v, d + BACKUP_SUFFIX)
    ensures Live(v) in Doomed(keep, Found(Crowd(v, keep, f), d))
  {
    var fs := Crowd(v, keep, f);
    forall q | q in Extended(Live(v), keep)
      ensures q in After(Found(fs, d), Live(v))
    {
      ExtensionListed(d, Live(v), q);
      LessExtension(v, q.of);
    }
    SizeGrows(Extended(Live(v), keep), After(Found(fs, d), Live(v)));
  }

  lemma CrowdRunnable(env: Env, job: Job, v: string, f: File)
    requires job.WellFormed() && Proper(Dests(job), job) && !job.solo && Resolves(env, job) && job.Keep() > 0
    ensures Runnable(env, job, Crowd(v, job.Keep(), f), 0)
  {
    var fs0 := Crowd(v, job.Keep(), f);
    forall i | 0 <= i < job.N()
      ensures Resolution(env, job, fs0, i).Some? && Temp(job.files[i].abs, 0) !in fs0
    {
      assert ResolveOwnership(env, job.files[i], job.defaults, None).Some?;
    }
  }

  // A destination with another's backup prefix can be pruned by the call that deployed it.
  lemma ListedDestinationLost(env: Env, job: Job, i: nat, k: nat, f: File)
    returns (fs0: Files, run: seq<Event>, l: Local, fs: Files)
    requires job.WellFormed() && Proper(Dests(job), job) && !job.solo && Resolves(env, job) && job.Keep() > 0
    requires i < job.N() && k < job.N() && HasPrefix(job.files[k].abs, job.files[i].abs + BACKUP_SUFFIX)
    ensures Ran(env, job, fs0, run, l, fs) && l.pc == AtEnd(Deployed) && Live(job.files[k].abs) !in fs
  {
    fs0 := Crowd(job.files[k].abs, job.Keep(), f);
    CrowdDooms(job.files[i].abs, job.files[k].abs, job.Keep(), f);
    CrowdRunnable(env, job, job.files[k].abs, f);
    run, l, fs := ForeignFileLost(env, job, fs0, 0, i, Live(job.files[k].abs));
  }

  // A deployment that succeeds has every new file in place, in every directory
  // and every run, if and only if nothing is ever pruned or no destination's
  // name has another's backup prefix.
  lemma DeployedIsNewExactly(env: Env, job: Job, f: File)
    requires job.WellFormed() && Proper(Dests(job), job) && !job.solo && Resolves(env, job)
    ensures Orderly(job) <==>
            forall fs0, run, l, fs :: Ran(env, job, fs0, run, l, fs) && l.pc == AtEnd(Deployed) ==> AllNew(job, fs)
  {
    if Orderly(job) {
      forall fs0, run, l, fs | Ran(env, job, fs0, run, l, fs) && l.pc == AtEnd(Deployed)
        ensures AllNew(job, fs)
      {
        EveryReturn(env, job, fs0, run, l, fs, Deployed);
      }
    } else {
      var i, k :| 0 <= i < job.N() && 0 <= k < job.N() && HasPrefix(job.files[k].abs, job.files[i].abs + BACKUP_SUFFIX);
      var fs0, run, l, fs := ListedDestinationLost(env, job, i, k, f);
      assert Ran(env, job, fs0, run, l, fs) && BytesAt(fs, Live(job.files[k].abs)) == None;
    }
  }
}
