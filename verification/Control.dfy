/** Every step keeps the part of the invariant that says where the call stands. */
module Control {
  import opened Common
  import opened FileSystem
  import opened Ownership
  import opened Retention
  import opened Protocol
  import opened Invariant

  ghost predicate Stands(env: Env, job: Job, fs0: Files, l: Local, fs: Files) {
    PCInv(env, job, fs0, l) && StageInv(env, job, fs0, l, fs)
  }

  lemma AfterCtx(env: Env, job: Job, fs0: Files, l: Local, fs: Files, r: Reply)
    requires job.WellFormed() && PCInv(env, job, fs0, l) && l.pc.AtCtx?
    ensures Stands(env, job, fs0, OnCtx(job, l, r), fs)
  {
  }

  lemma AfterIdem(env: Env, job: Job, fs0: Files, l: Local, fs: Files, i: nat, r: Reply)
    requires job.WellFormed() && PCInv(env, job, fs0, l) && l.pc == AtIdem(i) && LiveAt(env, job, fs0, l, fs, i)
    requires Permitted(fs, Read(Live(job.files[i].abs)), r)
    ensures Stands(env, job, fs0, OnIdem(env, job, l, i, r), fs)
  {
  }

  lemma AfterStat(env: Env, job: Job, fs0: Files, l: Local, fs: Files, i: nat, r: Reply)
    requires job.WellFormed() && PCInv(env, job, fs0, l) && l.pc == AtStat(i) && LiveAt(env, job, fs0, l, fs, i)
    requires Permitted(fs, Stat(Live(job.files[i].abs)), r)
    ensures Stands(env, job, fs0, OnStat(env, job, l, i, r), fs)
  {
  }

  lemma AfterBackupRead(env: Env, job: Job, fs0: Files, l: Local, fs: Files, i: nat, r: Reply)
    requires job.WellFormed() && PCInv(env, job, fs0, l) && l.pc == AtBackupRead(i)
    requires LiveAt(env, job, fs0, l, fs, i) && PrepAt(env, job, fs0, l, i)
    requires l.preps[i].hadOrig ==> Permitted(fs, Read(Live(job.files[i].abs)), r)
    ensures Stands(env, job, fs0, OnBackupRead(job, l, i, r), fs)
  {
  }

  lemma AfterBackupStat(env: Env, job: Job, fs0: Files, l: Local, fs: Files, i: nat, r: Reply)
    requires job.WellFormed() && Stands(env, job, fs0, l, fs) && l.pc == AtBackupStat(i)
    ensures Stands(env, job, fs0, OnBackupStat(job, l, i, r), fs)
  {
  }

  lemma AfterBackupWrite(env: Env, job: Job, fs0: Files, l: Local, fs: Files, i: nat, b: nat, r: Reply)
    requires job.WellFormed() && PCInv(env, job, fs0, l) && l.pc == AtBackupWrite(i)
    ensures Stands(env, job, fs0, OnBackupWrite(job, l, i, b, r), fs)
  {
  }

  lemma AfterBackupChown(env: Env, job: Job, fs0: Files, l: Local, fs: Files, i: nat)
    requires job.WellFormed() && PCInv(env, job, fs0, l) && l.pc == AtBackupChown(i)
    requires job.solo ==> l.preps[0].temp.Some?
    ensures Stands(env, job, fs0, AfterBackup(job, l, i), fs)
  {
  }

  lemma AfterBackupCleanup(env: Env, job: Job, fs0: Files, l: Local, fs: Files, i: nat)
    requires job.WellFormed() && PCInv(env, job, fs0, l) && l.pc == AtBackupCleanup(i)
    ensures Stands(env, job, fs0, OnBackupCleanup(job, l, i), fs)
  {
  }

  predicate Finished(env: Env, fs: Files, p: Path, data: Bytes, o: Owner) {
    p in fs && fs[p].bytes == data && Owned(env, o, fs[p])
  }

  // What a stage that was answered r leaves at the temp p it works on.
  predicate StageNext(env: Env, fs: Files, p: Path, data: Bytes, o: Owner, stage: Stage, r: Reply) {
    match stage
    case SOpen => r.Made? ==> StageOk(env, fs, p, data, o, SWrite)
    case SWrite => r.Ok? ==> StageOk(env, fs, p, data, o, SSync)
    case SSync => StageOk(env, fs, p, data, o, SClose)
    case SClose => StageOk(env, fs, p, data, o, SChmod)
    case SChmod => r.Ok? ==> StageOk(env, fs, p, data, o, SChown)
    case SChown => r.Ok? || !env.root ==> Finished(env, fs, p, data, o)
    case SDrop => true
  }

  // A failed remove is remembered, any other leaves no file.
  predicate Gone(fs: Files, p: Path, r: Reply) { r.Err? || p !in fs }

  ghost predicate StageDone(env: Env, fs: Files, fs': Files, p: Path, d: string, s: nat,
                            data: Bytes, o: Owner, stage: Stage, r: Reply) {
    && p.Temp? && p.of == d && (!stage.SOpen? ==> p.stamp == s)
    && StageNext(env, fs', p, data, o, stage, r) && Outside(fs, fs', {p})
    && (stage.SOpen? && !r.Made? ==> fs' == fs) && (stage.SDrop? ==> Gone(fs', p, r))
  }

  lemma StageEffect(env: Env, fs: Files, d: string, s: nat, data: Bytes, o: Owner, stage: Stage, op: Op, r: Reply)
    requires AllowsStage(stage, op, d, s, data, o) && Permitted(fs, op, r)
    requires StageOk(env, fs, Temp(d, s), data, o, stage)
    ensures StageDone(env, fs, Effect(env, fs, op, r), if stage.SOpen? then op.path else Temp(d, s),
                      d, s, data, o, stage, r)
  {
  }

  lemma AfterTemp(env: Env, job: Job, fs0: Files, l: Local, fs: Files, fs': Files, i: nat, stage: Stage, p: Path,
                  r: Reply)
    requires job.WellFormed() && Stands(env, job, fs0, l, fs) && l.pc == AtTemp(i, stage)
    requires p.Temp? && p.of == job.files[i].abs && (!stage.SOpen? ==> p.stamp == l.stamp)
    requires StageNext(env, fs', p, job.files[i].bytes, l.preps[i].owner, stage, r)
    requires forall j :: 0 <= j < i ==> l.preps[j].temp.Some?
    ensures Stands(env, job, fs0, OnTemp(env, job, l, i, stage, p, r), fs')
  {
  }

  lemma AfterPre(env: Env, job: Job, fs0: Files, l: Local, fs: Files, r: Reply)
    requires job.WellFormed() && PCInv(env, job, fs0, l) && l.pc.AtPre?
    ensures Stands(env, job, fs0, OnPre(l, r), fs)
  {
  }

  lemma AfterRename(env: Env, job: Job, fs0: Files, l: Local, fs: Files, i: nat, r: Reply)
    requires job.WellFormed() && PCInv(env, job, fs0, l) && l.pc == AtRename(i)
    requires forall j :: i < j < job.N() ==> l.preps[j].temp.Some?
    ensures Stands(env, job, fs0, OnRename(job, l, i, r), fs)
  {
  }

  lemma AfterPost(env: Env, job: Job, fs0: Files, l: Local, fs: Files, r: Reply)
    requires job.WellFormed() && PCInv(env, job, fs0, l) && l.pc.AtPost?
    ensures Stands(env, job, fs0, OnPost(job, l, r), fs)
  {
  }

  lemma AfterRestored(env: Env, job: Job, fs0: Files, l: Local, fs: Files, i: nat, failed: bool)
    requires job.WellFormed() && RestoreInv(job, l, i) && |l.preps| == job.N()
    ensures l.done <= job.N() ==> Stands(env, job, fs0, Restored(job, l, i, failed), fs)
  {
  }

  lemma AfterRestoreTemp(env: Env, job: Job, fs0: Files, l: Local, fs: Files, fs': Files, i: nat, stage: Stage,
                         p: Path, r: Reply)
    requires job.WellFormed() && Stands(env, job, fs0, l, fs) && l.pc == AtRestoreTemp(i, stage) && l.done <= job.N()
    requires p.Temp? && p.of == job.files[i].abs && (!stage.SOpen? ==> p.stamp == l.stamp)
    requires StageNext(env, fs', p, l.data, l.preps[i].owner, stage, r)
    ensures Stands(env, job, fs0, OnRestoreTemp(env, job, l, i, stage, p, r), fs')
  {
    if stage.SDrop? {
      AfterRestored(env, job, fs0, NoteRemove(l, p, r), fs', i, true);
    } else if stage.SOpen? && !r.Made? {
      AfterRestored(env, job, fs0, l, fs', i, true);
    }
  }

  lemma AfterPost2(env: Env, job: Job, fs0: Files, l: Local, fs: Files, r: Reply)
    requires job.WellFormed() && PCInv(env, job, fs0, l) && l.pc.AtPost2?
    ensures Stands(env, job, fs0, OnPost2(l, r), fs)
  {
  }

  lemma AfterPruned(env: Env, job: Job, fs0: Files, l: Local, fs: Files, i: nat)
    requires Full(job, l) && job.Keep() > 0 && i < job.N()
    ensures Stands(env, job, fs0, Pruned(job, l, i), fs)
  {
  }

  lemma AtRemoving(env: Env, job: Job, fs0: Files, l: Local, fs: Files, i: nat, todo: set<Path>)
    requires Full(job, l) && job.Keep() > 0 && i < job.N() && todo != {} && l.pc == AtPruneRemove(i, todo)
    requires TodoInv(job, fs0, l, i, todo)
    ensures Stands(env, job, fs0, l, fs)
  {
  }

  lemma AfterPruneList(env: Env, job: Job, fs0: Files, l: Local, fs: Files, i: nat, r: Reply)
    requires job.WellFormed() && PCInv(env, job, fs0, l) && l.pc == AtPruneList(i)
    requires r.Names? ==> TodoInv(job, fs0, l, i, Doomed(job.Keep(), r.found))
    ensures Stands(env, job, fs0, OnPruneList(job, l, i, r), fs)
  {
    if r.Names? && Doomed(job.Keep(), r.found) != {} {
      AtRemoving(env, job, fs0, OnPruneList(job, l, i, r), fs, i, Doomed(job.Keep(), r.found));
    } else {
      AfterPruned(env, job, fs0, l.(swept := l.swept && r.Names?), fs, i);
    }
  }

  lemma AfterPruneRemove(env: Env, job: Job, fs0: Files, l: Local, fs: Files, i: nat, todo: set<Path>, p: Path,
                         r: Reply)
    requires Full(job, l) && job.Keep() > 0 && i < job.N() && TodoInv(job, fs0, l, i, todo)
    ensures Stands(env, job, fs0, OnPruneRemove(job, l, i, todo, p, r), fs)
  {
    if todo - {p} == {} {
      AfterPruned(env, job, fs0, l.(swept := l.swept && !(p.Backup? && r.Err?)), fs, i);
    } else {
      AtRemoving(env, job, fs0, OnPruneRemove(job, l, i, todo, p, r), fs, i, todo - {p});
    }
  }

  lemma OutcomeKeep(job: Job, l: Local, l': Local, o: Outcome)
    requires OutcomeInv(job, l, o) && l' == l.(pc := l'.pc, stuck := l'.stuck)
    ensures OutcomeInv(job, l', o)
  {
  }

  lemma Closing(env: Env, job: Job, fs0: Files, l: Local, fs: Files, i: nat, o: Outcome)
    requires OutcomeInv(job, l, o) && !o.Skipped? && (o.Deployed? ==> job.solo)
    requires l.pc == AtEnd(o) || (l.pc == AtCleanTemps(i, o) && i < job.N() == |l.preps|)
    ensures Stands(env, job, fs0, l, fs)
  {
  }

  lemma AfterCleanTemps(env: Env, job: Job, fs0: Files, l: Local, fs: Files, i: nat, next: Outcome, r: Reply)
    requires i < job.N() == |l.preps| && OutcomeInv(job, l, next) && !next.Skipped? && (next.Deployed? ==> job.solo)
    ensures Stands(env, job, fs0, OnCleanTemps(job, l, i, next, r), fs)
  {
    var l' := OnCleanTemps(job, l, i, next, r);
    assert l' == l.(pc := l'.pc, stuck := l'.stuck) && (l'.pc == AtEnd(next) || l'.pc == AtCleanTemps(i + 1, next));
    OutcomeKeep(job, l, l', next);
    Closing(env, job, fs0, l', fs, i + 1, next);
  }
}
