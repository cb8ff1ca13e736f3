/** The two entry points of the deploy package. */
module Deploy {
  import opened Common
  import opened FileSystem
  import opened Ownership
  import opened Protocol
  import opened Invariant
  import opened Safety
  import opened Runs
  import opened Records
  import opened Guarantees
  import opened Host
  import opened Phases

  datatype Result = Result(
    skippedAsIdempotent: bool,
    backupPaths: map<string, Option<Path>>,
    validateOK: bool,
    reloaded: bool,
    rolledBack: bool
  )

  predicate ValidPlan(plan: Job) {
    && plan.N() > 0
    && (forall i :: 0 <= i < plan.N() ==> plan.files[i].abs != "")
    && (forall i, j :: 0 <= i < j < plan.N() ==> plan.files[i].abs != plan.files[j].abs)
  }

  // Rejects a plan with no files, an empty path or a repeated destination.
  method ValidatePlan(plan: Job) returns (ok: bool)
    ensures ok <==> ValidPlan(plan)
  {
    if plan.N() == 0 { return false; }
    var seen: set<string> := {};
    for i := 0 to plan.N()
      invariant forall s :: s in seen <==> exists j :: 0 <= j < i && plan.files[j].abs == s
      invariant forall j :: 0 <= j < i ==> plan.files[j].abs != ""
      invariant forall j, k :: 0 <= j < k < i ==> plan.files[j].abs != plan.files[k].abs
    {
      var abs := plan.files[i].abs;
      if abs == "" || abs in seen { return false; }
      seen := seen + {abs};
    }
    return true;
  }

  // What the flags and the error say about how the call ended.
  ghost predicate Reports(o: Outcome, res: Option<Result>, err: Failure) {
    && err == o.Err()
    && (res.None? <==> o.Aborted? || o.Rejected?)
    && (res.Some? ==>
          && (res.value.skippedAsIdempotent <==> o.Skipped?)
          && (res.value.reloaded <==> o.Deployed?)
          && (res.value.rolledBack <==> o.RolledBack?)
          && (res.value.validateOK <==> !o.Skipped?))
  }

  const BARE := Result(false, map[], false, false, false)

  // Validate the staged temps, if there is a hook, and swap them in.
  method SwapValid(h: Host, plan: Job, preps: seq<Prep>, r: Result)
    returns (res: Option<Result>, err: Failure, ghost o: Outcome)
    requires At(h, plan, if plan.hasPre then AtPre else AtRename(0), preps) && plan.WellFormed() && !plan.solo
    requires plan.N() == |preps| && Staged(preps, plan.N())
    requires r == BARE.(backupPaths := r.backupPaths, validateOK := true)
    modifies h
    ensures Ended(h, plan, o) && Reports(o, res, err) && !o.Skipped?
    ensures res.Some? ==> res.value.backupPaths == r.backupPaths && h.l.preps == preps
  {
    if plan.hasPre {
      var valid := Validate(h, plan, preps);
      if !valid { return None, ValidateFailed, Rejected; }
    }
    res, err, o := SwapIn(h, plan, preps, r);
  }

  predicate SameBackups(a: seq<Prep>, b: seq<Prep>) {
    |a| == |b| && forall j :: 0 <= j < |a| ==> a[j].backup == b[j].backup
  }

  // From the resolved preps to the end of a call that has to write.
  method Commit(h: Host, plan: Job, preps: seq<Prep>, paths: map<string, Option<Path>>)
    returns (res: Option<Result>, err: Failure, ghost o: Outcome)
    requires At(h, plan, AtTemp(0, SOpen), preps) && plan.WellFormed() && plan.N() == |preps| && !plan.solo
    modifies h
    ensures Ended(h, plan, o) && Reports(o, res, err) && !o.Skipped?
    ensures res.Some? ==> res.value.backupPaths == paths && SameBackups(preps, h.l.preps)
  {
    var staged, ps := StageAll(h, plan, preps);
    if !staged { return None, PlainError, Aborted; }
    res, err, o := SwapValid(h, plan, ps, BARE.(backupPaths := paths, validateOK := true));
  }

  // A rename failed: undo those that were made.
  method UndoRenames(h: Host, plan: Job, preps: seq<Prep>, n: nat) returns (failed: bool)
    requires Past(h, plan, if n > 0 then AtRestore(0) else Rolled(false, false), preps, n, false, false)
    requires n < plan.N() == |preps|
    modifies h
    ensures Ended(h, plan, if failed then Stranded else RenameFailed) && h.l.preps == preps
  {
    failed := RestoreFromBackups(h, plan, preps, n, false);
    CleanupTemps(h, plan, preps, if failed then Stranded else RenameFailed);
  }

  // Rename all; undo the renames that were made if one fails.
  method SwapIn(h: Host, plan: Job, preps: seq<Prep>, r: Result)
    returns (res: Option<Result>, err: Failure, ghost o: Outcome)
    requires At(h, plan, AtRename(0), preps) && 0 < plan.N() == |preps| && Staged(preps, plan.N()) && !plan.solo
    requires r == BARE.(backupPaths := r.backupPaths, validateOK := true)
    modifies h
    ensures Ended(h, plan, o) && Reports(o, res, err) && !o.Skipped? && h.l.preps == preps
    ensures res.Some? && res.value.backupPaths == r.backupPaths
  {
    var n := RenameAll(h, plan, preps);
    if n < plan.N() {
      var failed := UndoRenames(h, plan, preps, n);
      return Some(r), if failed then RollbackFailed else PlainError, if failed then Stranded else RenameFailed;
    }
    res, err, o := Conclude(h, plan, preps, r);
  }

  // The reload failed: restore the old files and reload them.
  method RollBack(h: Host, plan: Job, preps: seq<Prep>) returns (failed: bool)
    requires Past(h, plan, AtRestore(0), preps, plan.N(), true, false) && 0 < plan.N() == |preps|
    modifies h
    ensures Ended(h, plan, if failed then Stranded else RolledBack) && h.l.preps == preps
  {
    failed := RestoreFromBackups(h, plan, preps, plan.N(), true);
    if !failed {
      var post := h.Call(PostCommit);
      failed := !post.Ok?;
    }
  }

  // Reload, roll back if that fails, and prune.
  method Conclude(h: Host, plan: Job, preps: seq<Prep>, r: Result)
    returns (res: Option<Result>, err: Failure, ghost o: Outcome)
    requires Past(h, plan, Committed(plan), preps, plan.N(), false, false) && 0 < plan.N() == |preps| && !plan.solo
    requires r == BARE.(backupPaths := r.backupPaths, validateOK := true)
    modifies h
    ensures Ended(h, plan, o) && Reports(o, res, err) && !o.Skipped? && h.l.preps == preps
    ensures res.Some? && res.value.backupPaths == r.backupPaths
  {
    if plan.hasPost {
      var post := h.Call(PostCommit);
      if !post.Ok? {
        var failed := RollBack(h, plan, preps);
        if failed { return Some(r), RollbackFailed, Stranded; }
        return Some(r.(rolledBack := true)), ReloadFailed, RolledBack;
      }
    }
    if plan.Keep() > 0 { Janitor(h, plan, preps); }
    return Some(r.(reloaded := true)), NoError, Deployed;
  }

  // The context, the idempotency check and the stats; None when the call is over.
  method LookAtAll(h: Host, plan: Job) returns (preps: Option<seq<Prep>>, skip: bool)
    requires At(h, plan, AtCtx, []) && plan.WellFormed() && !plan.solo
    modifies h
    ensures preps.Some? ==> |preps.value| == plan.N() && Blank(preps.value)
    ensures preps.Some? ==> At(h, plan, if plan.retention != -1 then AtBackupRead(0) else AtTemp(0, SOpen), preps.value)
    ensures preps.None? ==> Ended(h, plan, if skip then Skipped else Aborted)
  {
    var ctx := h.Call(CtxErr);
    if !ctx.Ok? { return None, false; }
    if !plan.skipIdempotent {
      var all := AllMatch(h, plan);
      if all { return None, true; }
    }
    preps := Prepare(h, plan);
    skip := false;
  }

  // What the result lists, by the preps the call ended with.
  ghost predicate Told(plan: Job, o: Outcome, preps: seq<Prep>, paths: map<string, Option<Path>>) {
    if o.Skipped? || plan.retention == -1 then paths == map[]
    else |preps| == plan.N() && Lists(plan, preps, paths, plan.N()) && paths.Keys == Dests(plan)
  }

  method Attempt(h: Host, plan: Job) returns (res: Option<Result>, err: Failure, ghost o: Outcome)
    requires h.Valid() && h.job == plan && h.l == START && !plan.solo && plan.WellFormed()
    modifies h
    ensures Ended(h, plan, o) && Reports(o, res, err)
    ensures res.Some? ==> Told(plan, o, h.l.preps, res.value.backupPaths)
  {
    var preps, skip := LookAtAll(h, plan);
    if preps.None? {
      if skip { return Some(BARE.(skippedAsIdempotent := true)), NoError, Skipped; }
      return None, PlainError, Aborted;
    }
    var ps, paths := preps.value, map[];
    if plan.retention != -1 {
      var ok;
      ok, ps, paths := TakeBackups(h, plan, ps);
      if !ok { return None, PlainError, Aborted; }
    }
    ghost var before := ps;
    res, err, o := Commit(h, plan, ps, paths);
    if res.Some? && plan.retention != -1 { ListsAlike(plan, before, h.l.preps, paths); }
  }

  lemma ListsAlike(plan: Job, a: seq<Prep>, b: seq<Prep>, paths: map<string, Option<Path>>)
    requires SameBackups(a, b) && Lists(plan, a, paths, plan.N())
    ensures Lists(plan, b, paths, plan.N())
  {
  }

  // The result says of every destination whether its first stat found it, and if
  // so where the copy of it was put.
  ghost predicate TellsBackup(d: string, fs0: Files, run: seq<Event>, p: Option<Path>) {
    && FirstSeen(run, d, p.Some?)
    && (p.Some? ==> Live(d) in fs0 && exists b :: p == Some(Backup(d, b)) && HandedOver(run, d, b, fs0[Live(d)]))
  }

  ghost predicate TellsBackups(plan: Job, fs0: Files, run: seq<Event>, paths: map<string, Option<Path>>) {
    paths.Keys == Dests(plan) && forall d :: d in paths ==> TellsBackup(d, fs0, run, paths[d])
  }

  // A result with the right backups: none if none are taken.
  ghost predicate RightPaths(plan: Job, fs0: Files, run: seq<Event>, res: Result) {
    if res.skippedAsIdempotent || plan.retention == -1 then res.backupPaths == map[]
    else TellsBackups(plan, fs0, run, res.backupPaths)
  }

  lemma PrepTells(env: Env, job: Job, fs0: Files, run: seq<Event>, l: Local, fs: Files, o: Outcome, j: nat)
    requires job.WellFormed() && Reaches(env, job, fs0, run, l, fs) && l.pc == AtEnd(o) && !o.Aborted? && !o.Rejected?
    requires j < job.N() == |l.preps| && job.retention != -1
    ensures var d, b := job.files[j].abs, l.preps[j].backup;
            TellsBackup(d, fs0, run, if b.Some? then Some(Backup(d, b.value)) else None)
    ensures HonestStats(fs0, run) ==> (l.preps[j].backup.Some? <==> Live(job.files[j].abs) in fs0)
  {
    RunRecords(env, job, fs0, run, l, fs, j);
    RunKeepsInvariant(env, job, fs0, run, l, fs);
    RunBooks(env, job, fs0, run, l, fs);
    assert PrepAt(env, job, fs0, l, j);
  }

  lemma ListTells(env: Env, plan: Job, fs0: Files, run: seq<Event>, l: Local, fs: Files, o: Outcome,
                  paths: map<string, Option<Path>>)
    requires plan.WellFormed() && Reaches(env, plan, fs0, run, l, fs) && l.pc == AtEnd(o) && !o.Aborted? && !o.Rejected?
    requires |l.preps| == plan.N() && plan.retention != -1
    requires Lists(plan, l.preps, paths, plan.N()) && paths.Keys == Dests(plan)
    ensures TellsBackups(plan, fs0, run, paths)
    ensures HonestStats(fs0, run) ==> forall d :: d in paths ==> (paths[d].None? <==> Live(d) !in fs0)
  {
    forall d | d in paths
      ensures TellsBackup(d, fs0, run, paths[d])
      ensures HonestStats(fs0, run) ==> (paths[d].None? <==> Live(d) !in fs0)
    {
      var j :| 0 <= j < plan.N() && plan.files[j].abs == d;
      PrepTells(env, plan, fs0, run, l, fs, o, j);
    }
  }

  // The result names a backup holding the old bytes of every destination there was.
  ghost predicate CanRecover(plan: Job, fs0: Files, fs: Files, paths: map<string, Option<Path>>) {
    forall j :: 0 <= j < plan.N() && Live(plan.files[j].abs) in fs0 ==>
      && plan.files[j].abs in paths && paths[plan.files[j].abs].Some?
      && BytesAt(fs, paths[plan.files[j].abs].value) == BytesAt(fs0, Live(plan.files[j].abs))
  }

  lemma Recovers(env: Env, plan: Job, fs0: Files, run: seq<Event>, l: Local, fs: Files, paths: map<string,
                 Option<Path>>)
    requires Ran(env, plan, fs0, run, l, fs) && l.pc == AtEnd(Stranded) && plan.retention != -1
    requires |l.preps| == plan.N() && Lists(plan, l.preps, paths, plan.N())
    ensures CanRecover(plan, fs0, fs, paths)
  {
    forall j | 0 <= j < plan.N() && Live(plan.files[j].abs) in fs0
      ensures plan.files[j].abs in paths && paths[plan.files[j].abs].Some?
      ensures BytesAt(fs, paths[plan.files[j].abs].value) == BytesAt(fs0, Live(plan.files[j].abs))
    {
      Recoverable(env, plan, fs0, run, l, fs, j);
    }
  }

  // With honest first stats, injective hashes and backups on, a call that does
  // not report a failed rollback deploys everything or leaves the old bytes, and
  // the whole old files where ownership fits; one that does names the backups
  // to restore from.
  method Apply(h: Host, plan: Job) returns (res: Option<Result>, err: Failure)
    requires h.Valid() && h.job == plan && h.l == START && !plan.solo && h.files == h.fs0
    modifies h
    ensures h.Valid() && (err == PlanInvalid <==> !ValidPlan(plan))
    ensures err == PlanInvalid ==> h.run == old(h.run)
    ensures err != PlanInvalid ==> exists o :: Ended(h, plan, o) && Reports(o, res, err)
    ensures res.Some? ==> RightPaths(plan, h.fs0, h.run, res.value)
    ensures res.Some? && HonestStats(h.fs0, h.run) ==>
              forall d :: d in res.value.backupPaths ==> (res.value.backupPaths[d].None? <==> Live(d) !in h.fs0)
    ensures plan.retention != -1 && HonestStats(h.fs0, h.run) && Proper(Dests(plan), plan) && Orderly(plan)
            && Injective(h.env) && err != RollbackFailed ==>
              if err == NoError then AllNew(plan, h.files)
              else AllOld(plan, h.fs0, h.files) && (AllFit(h.env, plan, h.fs0) ==> Untouched(plan, h.fs0, h.files))
    ensures plan.retention != -1 && HonestStats(h.fs0, h.run) && Proper(Dests(plan), plan) && err == RollbackFailed ==>
              res.Some? && CanRecover(plan, h.fs0, h.files, res.value.backupPaths)
  {
    var valid := ValidatePlan(plan);
    if !valid { return None, PlanInvalid; }
    ghost var o;
    res, err, o := Attempt(h, plan);
    ChainReaches(h.env, plan, h.fs0, h.run, h.states);
    if res.Some? && !o.Skipped? && plan.retention != -1 {
      ListTells(h.env, plan, h.fs0, h.run, h.l, h.files, o, res.value.backupPaths);
    }
    if plan.retention != -1 && HonestStats(h.fs0, h.run) && Proper(Dests(plan), plan) {
      if o.Stranded? {
        Recovers(h.env, plan, h.fs0, h.run, h.l, h.files, res.value.backupPaths);
      } else if Injective(h.env) && Orderly(plan) {
        AllOrNothing(h.env, plan, h.fs0, h.run, h.l, h.files, o);
      }
    }
  }

  // ----- AtomicWriteFile -----

  datatype WriteResult = WriteResult(backupPath: Option<Path>, replaced: bool, idempotent: bool)

  // The context, the stat, the idempotency check and the ownership; None when the call is over.
  method LookAt(h: Host, plan: Job) returns (prep: Option<Prep>, skip: bool)
    requires At(h, plan, AtCtx, []) && plan.WellFormed() && plan.solo
    modifies h
    ensures prep.Some? ==> At(h, plan, AtTemp(0, SOpen), [prep.value]) && prep.value.backup.None?
    ensures prep.None? ==> Ended(h, plan, if skip then Skipped else Aborted)
  {
    var d, file := Live(plan.files[0].abs), plan.files[0];
    var ctx := h.Call(CtxErr);
    if !ctx.Ok? { return None, false; }
    var st := h.Call(Stat(d));
    var info := if st.Stats? then Some(st.info) else None;
    if info.Some? && !plan.skipIdempotent {
      var r := h.Call(Read(d));
      if r.Data? && Sha256Eq(h.env, r.bytes, file.bytes) { return None, true; }
    }
    match ResolveOwnership(h.env, file, plan.defaults, info) {
      case None => return None, false;
      case Some(o) => return Some(Prep(o, info.Some?, None, None)), false;
    }
  }

  // Temp, ownership and backup, in that order.
  method MakeReady(h: Host, plan: Job, prep: Prep) returns (ready: Option<Prep>)
    requires At(h, plan, AtTemp(0, SOpen), [prep]) && plan.WellFormed() && plan.solo && prep.backup.None?
    modifies h
    ensures ready.Some? ==> At(h, plan, AtRename(0), [ready.value]) && ready.value.temp.Some?
    ensures ready.Some? ==> ready.value.hadOrig == prep.hadOrig
    ensures ready.None? ==> Ended(h, plan, Aborted)
  {
    var file := plan.files[0];
    var temp := WriteTempFile(h, 0, file.abs, file.bytes, false);
    if temp.None? {
      CleanupTemps(h, plan, [prep], Aborted);
      return None;
    }
    var p := prep.(temp := temp);
    assert [prep][0 := p] == [p];
    var owned := ApplyOwnership(h, 0, Temp(file.abs, temp.value), p.owner, file.bytes, false);
    if !owned {
      CleanupTemps(h, plan, [p], Aborted);
      return None;
    }
    if p.hadOrig && plan.retention != -1 {
      var stamp := BackupFile(h, plan, 0, [p]);
      if stamp.None? {
        CleanupTemps(h, plan, [p], Aborted);
        return None;
      }
      assert [p][0 := p.(backup := stamp)] == [p.(backup := stamp)];
      p := p.(backup := stamp);
    }
    return Some(p);
  }

  ghost predicate WriteReports(o: Outcome, res: Option<WriteResult>, err: Failure) {
    && err == o.Err() && (res.Some? <==> err == NoError)
    && (res.Some? ==> (res.value.idempotent <==> o.Skipped?)) && (o.Skipped? || o.Deployed? || o.Aborted?)
  }

  method PutInPlace(h: Host, plan: Job, prep: Prep) returns (ok: bool)
    requires At(h, plan, AtRename(0), [prep]) && plan.WellFormed() && plan.solo && prep.temp.Some?
    modifies h
    ensures Ended(h, plan, if ok then Deployed else Aborted) && h.l.preps == [prep]
  {
    var n := RenameAll(h, plan, [prep]);
    if n == 1 && plan.Keep() > 0 { Janitor(h, plan, [prep]); }
    CleanupTemps(h, plan, [prep], if n == 1 then Deployed else Aborted);
    return n == 1;
  }

  // What the result says, by the prep the call ended with.
  predicate WriteTold(plan: Job, preps: seq<Prep>, res: WriteResult) {
    if res.idempotent then res == WriteResult(None, false, true)
    else
      && |preps| == plan.N() == 1 && res.replaced == preps[0].hadOrig
      && res.backupPath
         == if preps[0].backup.Some? then Some(Backup(plan.files[0].abs, preps[0].backup.value)) else None
  }

  // Rename, prune and say what was done.
  method Replace(h: Host, plan: Job, prep: Prep) returns (res: Option<WriteResult>, err: Failure, ghost o: Outcome)
    requires At(h, plan, AtRename(0), [prep]) && plan.WellFormed() && plan.solo && prep.temp.Some?
    modifies h
    ensures Ended(h, plan, o) && WriteReports(o, res, err)
    ensures res.Some? ==> WriteTold(plan, h.l.preps, res.value)
  {
    var ok := PutInPlace(h, plan, prep);
    if !ok { return None, PlainError, Aborted; }
    var path := if prep.backup.Some? then Some(Backup(plan.files[0].abs, prep.backup.value)) else None;
    return Some(WriteResult(path, prep.hadOrig, false)), NoError, Deployed;
  }

  method AttemptWrite(h: Host, plan: Job) returns (res: Option<WriteResult>, err: Failure, ghost o: Outcome)
    requires h.Valid() && h.job == plan && h.l == START && plan.solo && plan.WellFormed()
    modifies h
    ensures Ended(h, plan, o) && WriteReports(o, res, err)
    ensures res.Some? ==> WriteTold(plan, h.l.preps, res.value)
  {
    var prep, skip := LookAt(h, plan);
    if prep.None? {
      if skip { return Some(WriteResult(None, false, true)), NoError, Skipped; }
      return None, PlainError, Aborted;
    }
    var ready := MakeReady(h, plan, prep.value);
    if ready.None? { return None, PlainError, Aborted; }
    res, err, o := Replace(h, plan, ready.value);
  }

  // A file counts as replaced if the first stat found it; if so, and backups are
  // on, the result says where the copy was put.
  ghost predicate RightWrite(plan: Job, fs0: Files, run: seq<Event>, res: WriteResult)
    requires plan.N() == 1
  {
    var d := plan.files[0].abs;
    if res.idempotent then res == WriteResult(None, false, true)
    else
      && FirstSeen(run, d, res.replaced) && (res.backupPath.Some? <==> res.replaced && plan.retention != -1)
      && (res.backupPath.Some? ==> TellsBackup(d, fs0, run, res.backupPath))
  }

  lemma WriteTells(env: Env, plan: Job, fs0: Files, run: seq<Event>, l: Local, fs: Files, res: WriteResult)
    requires plan.WellFormed() && plan.solo && Reaches(env, plan, fs0, run, l, fs) && l.pc == AtEnd(Deployed)
    requires WriteTold(plan, l.preps, res) && !res.idempotent
    ensures RightWrite(plan, fs0, run, res)
    ensures HonestStats(fs0, run) ==> (res.replaced <==> Live(plan.files[0].abs) in fs0)
  {
    RunRecords(env, plan, fs0, run, l, fs, 0);
    RunKeepsInvariant(env, plan, fs0, run, l, fs);
    RunBooks(env, plan, fs0, run, l, fs);
    assert PrepAt(env, plan, fs0, l, 0);
    if plan.retention != -1 { PrepTells(env, plan, fs0, run, l, fs, Deployed, 0); }
  }

  // Succeeds with the new bytes in place, or fails with the file untouched.
  method AtomicWriteFile(h: Host, plan: Job) returns (res: Option<WriteResult>, err: Failure)
    requires h.Valid() && h.job == plan && h.l == START && plan.solo && plan.WellFormed() && h.files == h.fs0
    modifies h
    ensures h.Valid() && (err == PlanInvalid <==> plan.files[0].abs == "")
    ensures err == PlanInvalid ==> h.run == old(h.run)
    ensures err != PlanInvalid ==> exists o :: Ended(h, plan, o) && WriteReports(o, res, err)
    ensures res.Some? ==> RightWrite(plan, h.fs0, h.run, res.value)
    ensures res.Some? && !res.value.idempotent && HonestStats(h.fs0, h.run) ==>
              (res.value.replaced <==> Live(plan.files[0].abs) in h.fs0)
    ensures err == NoError && Injective(h.env) ==> AllNew(plan, h.files)
    ensures err != NoError ==> Untouched(plan, h.fs0, h.files)
  {
    if plan.files[0].abs == "" { return None, PlanInvalid; }
    ghost var o;
    res, err, o := AttemptWrite(h, plan);
    ChainReaches(h.env, plan, h.fs0, h.run, h.states);
    if res.Some? && !res.value.idempotent { WriteTells(h.env, plan, h.fs0, h.run, h.l, h.files, res.value); }
    OneFileIsSpaced(plan);
    OneFileIsProper(plan);
    EveryReturn(h.env, plan, h.fs0, h.run, h.l, h.files, o);
  }
}
