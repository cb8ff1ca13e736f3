/** Every step keeps the part of the invariant that speaks of files and preps. */
module Steps {
  import opened Common
  import opened FileSystem
  import opened Retention
  import opened Protocol
  import opened Names
  import opened Invariant
  import opened Carry
  import opened Control

  ghost predicate Ready(env: Env, job: Job, fs0: Files, l: Local, fs: Files) {
    job.WellFormed() && PCInv(env, job, fs0, l) && Rest(env, job, fs0, l, fs)
  }

  // ----- reading and deciding -----

  lemma StepCtx(env: Env, job: Job, fs0: Files, l: Local, fs: Files, r: Reply)
    requires Ready(env, job, fs0, l, fs) && l.pc.AtCtx?
    ensures Rest(env, job, fs0, OnCtx(job, l, r), fs)
  {
    QuietStep(env, job, fs0, l, fs, OnCtx(job, l, r));
  }

  lemma ResolvedStep(env: Env, job: Job, fs0: Files, l: Local, fs: Files, i: nat, info: Option<Info>)
    requires job.WellFormed() && Rest(env, job, fs0, l, fs)
    requires (l.pc == AtStat(i) || (l.pc == AtIdem(i) && i == 0)) && i < job.N()
    requires Early(l) && |l.preps| == i && NoTemps(l, 0) && NoBackups(l, 0)
    requires info.Some? ==> Live(job.files[i].abs) in fs0 && info.value == InfoOf(fs0[Live(job.files[i].abs)])
    ensures Rest(env, job, fs0, Resolved(env, job, l, i, info), fs)
  {
    var l' := Resolved(env, job, l, i, info);
    forall j | 0 <= j < |l'.preps|
      ensures PrepAt(env, job, fs0, l', j)
    {
      if j < i { assert PrepAt(env, job, fs0, l, j); }
    }
    LiveKeep(env, job, fs0, l, fs, l', fs, {});
    HoldKeep(job, fs0, l, fs, l', fs, {});
    LeftKeep(job, fs0, l, fs, l', fs, {});
  }

  lemma StepIdem(env: Env, job: Job, fs0: Files, l: Local, fs: Files, i: nat, r: Reply)
    requires Ready(env, job, fs0, l, fs) && l.pc == AtIdem(i)
    ensures Rest(env, job, fs0, OnIdem(env, job, l, i, r), fs)
  {
    if job.solo && !(r.Data? && Sha256Eq(env, r.bytes, job.files[i].bytes)) {
      ResolvedStep(env, job, fs0, l, fs, i, l.info);
    } else {
      QuietStep(env, job, fs0, l, fs, OnIdem(env, job, l, i, r));
    }
  }

  lemma StepStat(env: Env, job: Job, fs0: Files, l: Local, fs: Files, i: nat, r: Reply)
    requires Ready(env, job, fs0, l, fs) && l.pc == AtStat(i) && Permitted(fs, Stat(Live(job.files[i].abs)), r)
    ensures Rest(env, job, fs0, OnStat(env, job, l, i, r), fs)
  {
    assert LiveAt(env, job, fs0, l, fs, i);
    var info := if r.Stats? then Some(r.info) else None;
    if job.solo && info.Some? && !job.skipIdempotent {
      QuietStep(env, job, fs0, l, fs, OnStat(env, job, l, i, r));
    } else {
      QuietStep(env, job, fs0, l, fs, l.(info := info));
      ResolvedStep(env, job, fs0, l.(info := info), fs, i, info);
    }
  }

  // ----- backups -----

  lemma StepBackupRead(env: Env, job: Job, fs0: Files, l: Local, fs: Files, i: nat, r: Reply)
    requires Ready(env, job, fs0, l, fs) && l.pc == AtBackupRead(i)
    ensures Rest(env, job, fs0, OnBackupRead(job, l, i, r), fs)
  {
    assert PrepAt(env, job, fs0, l, i);
    QuietStep(env, job, fs0, l, fs, OnBackupRead(job, l, i, r));
  }

  lemma StepBackupStat(env: Env, job: Job, fs0: Files, l: Local, fs: Files, i: nat, r: Reply)
    requires Ready(env, job, fs0, l, fs) && l.pc == AtBackupStat(i)
    ensures Rest(env, job, fs0, OnBackupStat(job, l, i, r), fs)
  {
    QuietStep(env, job, fs0, l, fs, OnBackupStat(job, l, i, r));
  }

  lemma StepBackupWrite(env: Env, job: Job, fs0: Files, l: Local, fs: Files, fs': Files, i: nat, p: Path, r: Reply)
    requires Ready(env, job, fs0, l, fs) && l.pc == AtBackupWrite(i) && HasOld(job, fs0, l, i)
    requires p.Backup? && p.of == job.files[i].abs && p.stamp <= MAX_NANOS && Outside(fs, fs', {p})
    requires r.Made? ==> p in fs' && fs'[p].bytes == l.data
    ensures Rest(env, job, fs0, OnBackupWrite(job, l, i, p.stamp, r), fs')
  {
    var l' := OnBackupWrite(job, l, i, p.stamp, r);
    forall j | 0 <= j < |l'.preps|
      ensures PrepAt(env, job, fs0, l', j)
    {
      assert PrepAt(env, job, fs0, l, j);
    }
    BackupRest(env, job, fs0, l, fs, l', fs', p);
    if r.Made? { HoldTaken(job, fs0, l, fs, l', fs', i, p.stamp); }
  }

  lemma StepBackupChown(env: Env, job: Job, fs0: Files, l: Local, fs: Files, fs': Files, i: nat, p: Path)
    requires Ready(env, job, fs0, l, fs) && l.pc == AtBackupChown(i)
    requires p == Backup(job.files[i].abs, l.stamp) && Outside(fs, fs', {p})
    requires p in fs ==> p in fs' && fs'[p].bytes == fs[p].bytes
    ensures Rest(env, job, fs0, AfterBackup(job, l, i), fs')
  {
    var l' := AfterBackup(job, l, i);
    assert PrepAt(env, job, fs0, l, i);
    PrepKeep(env, job, fs0, l, l');
    BackupRest(env, job, fs0, l, fs, l', fs', p);
    assert Holding(job, fs0, l, fs, i, Must(job, fs0, l, i), l.swept);
    HoldTaken(job, fs0, l, fs, l', fs', i, l.stamp);
  }

  lemma StepBackupCleanup(env: Env, job: Job, fs0: Files, l: Local, fs: Files, fs': Files, i: nat, p: Path)
    requires Ready(env, job, fs0, l, fs) && l.pc == AtBackupCleanup(i)
    requires p.Backup? && p.of == job.files[i].abs && Outside(fs, fs', {p})
    ensures Rest(env, job, fs0, OnBackupCleanup(job, l, i), fs')
  {
    var l' := OnBackupCleanup(job, l, i);
    forall j | 0 <= j < |l'.preps|
      ensures PrepAt(env, job, fs0, l', j)
    {
      assert PrepAt(env, job, fs0, l, j);
    }
    BackupRest(env, job, fs0, l, fs, l', fs', p);
  }

  // ----- temps -----

  lemma ReadyStep(env: Env, job: Job, fs0: Files, l: Local, fs: Files, i: nat)
    requires Ready(env, job, fs0, l, fs)
    requires l.pc == AtTemp(i, SChown) && l.preps[i].temp == Some(l.stamp) && IsReady(env, job, l, fs, i)
    ensures Rest(env, job, fs0, TempReady(job, l, i), fs)
  {
    var l' := TempReady(job, l, i);
    forall j | 0 <= j <= i
      ensures IsReady(env, job, l', fs, j)
    {
      if j < i { assert IsReady(env, job, l, fs, j); }
    }
    assert PrepAt(env, job, fs0, l, i);
    PrepKeep(env, job, fs0, l, l');
    LiveKeep(env, job, fs0, l, fs, l', fs, {});
    HoldKeep(job, fs0, l, fs, l', fs, {});
    LeftKeep(job, fs0, l, fs, l', fs, {});
  }

  lemma StepTemp(env: Env, job: Job, fs0: Files, l: Local, fs: Files, fs': Files, i: nat, stage: Stage, p: Path,
                 r: Reply)
    requires Ready(env, job, fs0, l, fs) && l.pc == AtTemp(i, stage) && !stage.SOpen?
    requires p == Temp(job.files[i].abs, l.stamp) && Outside(fs, fs', {p})
    requires StageNext(env, fs', p, job.files[i].bytes, l.preps[i].owner, stage, r)
    requires stage.SDrop? ==> Gone(fs', p, r)
    requires stage.SChmod? || stage.SChown? ==> l.preps[i].temp == Some(l.stamp)
    ensures Rest(env, job, fs0, OnTemp(env, job, l, i, stage, p, r), fs')
  {
    if stage.SChown? && (r.Ok? || !env.root) {
      TempRest(env, job, fs0, l, fs, l, fs', i, p.stamp);
      ReadyStep(env, job, fs0, l, fs', i);
    } else {
      TempRest(env, job, fs0, l, fs, OnTemp(env, job, l, i, stage, p, r), fs', i, p.stamp);
    }
  }

  lemma StepTempOpen(env: Env, job: Job, fs0: Files, l: Local, fs: Files, fs': Files, i: nat, p: Path, r: Reply)
    requires Ready(env, job, fs0, l, fs) && l.pc == AtTemp(i, SOpen)
    requires p.Temp? && p.of == job.files[i].abs
    requires if r.Made? then Outside(fs, fs', {p}) else fs' == fs
    ensures Rest(env, job, fs0, OnTemp(env, job, l, i, SOpen, p, r), fs')
  {
    var l' := OnTemp(env, job, l, i, SOpen, p, r);
    if r.Made? {
      TempRest(env, job, fs0, l, fs, l', fs', i, p.stamp);
    } else {
      QuietStep(env, job, fs0, l, fs, l');
    }
  }

  // ----- hooks -----

  lemma StepPre(env: Env, job: Job, fs0: Files, l: Local, fs: Files, r: Reply)
    requires Ready(env, job, fs0, l, fs) && l.pc.AtPre?
    ensures Rest(env, job, fs0, OnPre(l, r), fs)
  {
    QuietStep(env, job, fs0, l, fs, OnPre(l, r));
  }

  lemma StepPost(env: Env, job: Job, fs0: Files, l: Local, fs: Files, r: Reply)
    requires Ready(env, job, fs0, l, fs) && l.pc.AtPost?
    ensures Rest(env, job, fs0, OnPost(job, l, r), fs)
  {
    QuietStep(env, job, fs0, l, fs, OnPost(job, l, r));
  }

  lemma StepPost2(env: Env, job: Job, fs0: Files, l: Local, fs: Files, r: Reply)
    requires Ready(env, job, fs0, l, fs) && l.pc.AtPost2?
    ensures Rest(env, job, fs0, OnPost2(l, r), fs)
  {
    QuietStep(env, job, fs0, l, fs, OnPost2(l, r));
  }

  // ----- renames -----

  lemma RenamedFacts(job: Job, l: Local, i: nat, r: Reply)
    requires l.pc == AtRename(i) && l.done == i < job.N() && r.Ok?
    ensures var l' := OnRename(job, l, i, r);
            && l' == l.(pc := l'.pc, done := i + 1) && Tidy(l'.pc) && !l'.pc.AtPruneRemove?
            && (SweptTo(job, l'.pc) == 0 || job.Keep() <= 0) && BackedUp(job, l') == job.N()
            && ReadyTo(job, l'.pc) <= job.N() && (CleanedTo(job, l'.pc) == 0 || i + 1 == job.N())
            && forall j: nat :: !InFlight(l'.pc, j)
  {
  }

  lemma StepRename(env: Env, job: Job, fs0: Files, l: Local, fs: Files, fs': Files, i: nat, p: Path, r: Reply)
    requires Ready(env, job, fs0, l, fs) && l.pc == AtRename(i)
    requires p == Temp(job.files[i].abs, l.preps[i].temp.value) && Renamed(fs, fs', p, job.files[i].abs, r)
    ensures Rest(env, job, fs0, OnRename(job, l, i, r), fs')
  {
    var l' := OnRename(job, l, i, r);
    if r.Ok? {
      assert IsReady(env, job, l, fs, i);
      RenamedFacts(job, l, i, r);
      SettleRest(env, job, fs0, l, fs, l', fs', i, {p, Live(job.files[i].abs)});
    } else {
      QuietStep(env, job, fs0, l, fs, l');
    }
  }

  // What a rename of p over the destination d does.
  predicate Moved(fs: Files, fs': Files, p: Path, d: string) {
    p.Temp? && p in fs && fs' == (fs - {p})[Live(d) := fs[p]]
  }

  predicate Renamed(fs: Files, fs': Files, p: Path, d: string, r: Reply) {
    if r.Ok? then Moved(fs, fs', p, d) else fs' == fs
  }

  // ----- rollback -----

  lemma RemoveRest(env: Env, job: Job, fs0: Files, l: Local, fs: Files, fs': Files, i: nat, r: Reply)
    requires Ready(env, job, fs0, l, fs) && l.pc == AtRestore(i) && l.preps[i].backup.None?
    requires if r.Err? then fs' == fs else Live(job.files[i].abs) !in fs' && Outside(fs, fs', {Live(job.files[i].abs)})
    ensures Rest(env, job, fs0, OnRestore(job, l, i, r), fs')
  {
    RestoredRest(env, job, fs0, l, fs, fs', i, r.Err?, if r.Err? then {} else {Live(job.files[i].abs)});
  }

  lemma StepRestore(env: Env, job: Job, fs0: Files, l: Local, fs: Files, i: nat, r: Reply)
    requires Ready(env, job, fs0, l, fs) && l.pc == AtRestore(i) && l.preps[i].backup.Some?
    ensures Rest(env, job, fs0, OnRestore(job, l, i, r), fs)
  {
    if r.Data? {
      QuietStep(env, job, fs0, l, fs, OnRestore(job, l, i, r));
    } else {
      RestoredRest(env, job, fs0, l, fs, fs, i, true, {});
    }
  }

  lemma StepRestoreTempOpen(env: Env, job: Job, fs0: Files, l: Local, fs: Files, fs': Files, i: nat, p: Path, r: Reply)
    requires Ready(env, job, fs0, l, fs) && l.pc == AtRestoreTemp(i, SOpen)
    requires p.Temp? && p.of == job.files[i].abs
    requires if r.Made? then Outside(fs, fs', {p}) else fs' == fs
    ensures Rest(env, job, fs0, OnRestoreTemp(env, job, l, i, SOpen, p, r), fs')
  {
    if r.Made? {
      TempRest(env, job, fs0, l, fs, OnRestoreTemp(env, job, l, i, SOpen, p, r), fs', i, p.stamp);
    } else {
      RestoredRest(env, job, fs0, l, fs, fs, i, true, {});
    }
  }

  lemma StepRestoreTemp(env: Env, job: Job, fs0: Files, l: Local, fs: Files, fs': Files, i: nat, stage: Stage,
                        p: Path, r: Reply)
    requires Ready(env, job, fs0, l, fs) && l.pc == AtRestoreTemp(i, stage) && !stage.SOpen? && !stage.SDrop?
    requires p == Temp(job.files[i].abs, l.stamp) && Outside(fs, fs', {p})
    ensures Rest(env, job, fs0, OnRestoreTemp(env, job, l, i, stage, p, r), fs')
  {
    TempRest(env, job, fs0, l, fs, OnRestoreTemp(env, job, l, i, stage, p, r), fs', i, p.stamp);
  }

  lemma StepRestoreDrop(env: Env, job: Job, fs0: Files, l: Local, fs: Files, fs': Files, i: nat, p: Path, r: Reply)
    requires Ready(env, job, fs0, l, fs) && l.pc == AtRestoreTemp(i, SDrop)
    requires p == Temp(job.files[i].abs, l.stamp) && Outside(fs, fs', {p}) && Gone(fs', p, r)
    ensures Rest(env, job, fs0, OnRestoreTemp(env, job, l, i, SDrop, p, r), fs')
  {
    var l' := NoteRemove(l, p, r);
    TempRest(env, job, fs0, l, fs, l', fs', i, p.stamp);
    RestoredRest(env, job, fs0, l', fs', fs', i, true, {});
  }

  lemma StepRestoreRename(env: Env, job: Job, fs0: Files, l: Local, fs: Files, fs': Files, i: nat, p: Path, r: Reply)
    requires Ready(env, job, fs0, l, fs) && l.pc == AtRestoreRename(i) && StageInv(env, job, fs0, l, fs)
    requires p == Temp(job.files[i].abs, l.stamp) && Renamed(fs, fs', p, job.files[i].abs, r)
    ensures Rest(env, job, fs0, OnRestoreRename(job, l, i, r), fs')
  {
    var l' := OnRestoreRename(job, l, i, r);
    if r.Ok? {
      RestoredRest(env, job, fs0, l, fs, fs', i, false, {p, Live(job.files[i].abs)});
    } else {
      QuietStep(env, job, fs0, l, fs, l');
    }
  }

  // ----- the janitor -----

  lemma ListedAll(env: Env, job: Job, fs0: Files, l: Local, fs: Files, i: nat)
    requires Ready(env, job, fs0, l, fs) && l.pc == AtPruneList(i)
    ensures BackupStamps(fs, job.files[i].abs) == AllBackups(job, fs0, l, i)
  {
    assert Holding(job, fs0, l, fs, i, Must(job, fs0, l, i), Exact(job, fs0, l, i));
  }

  lemma OwnStamp(env: Env, job: Job, fs0: Files, l: Local, fs: Files, i: nat, b: nat)
    requires Ready(env, job, fs0, l, fs) && l.pc == AtPruneList(i) && Lone(fs0, job.files[i].abs)
    requires Backup(job.files[i].abs, b) in fs
    ensures b <= MAX_NANOS
  {
    assert Holding(job, fs0, l, fs, i, Must(job, fs0, l, i), Exact(job, fs0, l, i));
    assert PrepAt(env, job, fs0, l, i);
    OwnBackupListed(job.files[i].abs, b);
  }

  // What a pruning finds belongs to the destination or to none.
  lemma FoundKinds(job: Job, i: nat, p: Path)
    requires i < job.N() && job.Spaced() && Listed(job.files[i].abs, p)
    ensures (p.Backup? && p.of == job.files[i].abs) || (!job.IsDest(p.of) && Exposed(job, p))
  {
    ListedIsNear(job.files[i].abs, p);
  }

  lemma WasThere(env: Env, job: Job, fs0: Files, l: Local, fs: Files, i: nat, p: Path)
    requires Ready(env, job, fs0, l, fs) && l.pc == AtPruneList(i)
    requires job.Spaced() && p in fs && Listed(job.files[i].abs, p)
    ensures p in fs0 || (p.Backup? && p.of == job.files[i].abs)
  {
    FoundKinds(job, i, p);
    if !job.IsDest(p.of) { assert FrameAt(job, fs0, l, fs, p); }
  }

  // No foreign file has got the prefix since the start.
  lemma StillLone(env: Env, job: Job, fs0: Files, l: Local, fs: Files, i: nat)
    requires Ready(env, job, fs0, l, fs) && l.pc == AtPruneList(i) && job.Spaced() && Lone(fs0, job.files[i].abs)
    ensures Lone(fs, job.files[i].abs)
  {
    var d := job.files[i].abs;
    forall p | p in fs && Listed(d, p)
      ensures p.Backup? && p.of == d && p.stamp <= MAX_NANOS
    {
      WasThere(env, job, fs0, l, fs, i, p);
      if p !in fs0 { OwnStamp(env, job, fs0, l, fs, i, p.stamp); }
    }
  }

  // What the janitor sets out to remove.
  lemma Planned(env: Env, job: Job, fs0: Files, l: Local, fs: Files, i: nat)
    requires Ready(env, job, fs0, l, fs) && l.pc == AtPruneList(i)
    ensures job.Spaced() && Lone(fs0, job.files[i].abs) ==>
              var all := AllBackups(job, fs0, l, i);
              Doomed(job.Keep(), Found(fs, job.files[i].abs))
              == BackupsOf(job.files[i].abs, all - Newest(job.Keep(), all))
  {
    if job.Spaced() && Lone(fs0, job.files[i].abs) {
      StillLone(env, job, fs0, l, fs, i);
      ListedAll(env, job, fs0, l, fs, i);
      LonePruneIsByAge(fs, job.files[i].abs, job.Keep());
    }
  }

  lemma HoldPruned(job: Job, fs0: Files, l: Local, fs: Files, l': Local, fs': Files, i: nat)
    requires job.WellFormed() && i < job.N() && HoldInv(job, fs0, l, fs)
    requires Tidy(l.pc) && Tidy(l'.pc) && l'.preps == l.preps
    requires forall p: Path :: job.IsDest(p.of) && p.of != job.files[i].abs ==> SameAt(fs, fs', p)
    requires forall j :: 0 <= j < job.N() && j != i ==>
               Must(job, fs0, l', j) == Must(job, fs0, l, j) && (Exact(job, fs0, l', j) ==> Exact(job, fs0, l, j))
    requires Holding(job, fs0, l', fs', i, Must(job, fs0, l', i), Exact(job, fs0, l', i))
    ensures HoldInv(job, fs0, l', fs')
  {
    forall j | 0 <= j < job.N()
      ensures Holding(job, fs0, l', fs', j, Must(job, fs0, l', j), Exact(job, fs0, l', j))
    {
      if j != i {
        assert Holding(job, fs0, l, fs, j, Must(job, fs0, l, j), Exact(job, fs0, l, j));
        forall b: nat
          ensures SameAt(fs, fs', Backup(job.files[j].abs, b))
        {
          assert job.IsDest(Backup(job.files[j].abs, b).of);
        }
      }
    }
  }

  // One file found by the pruning of destination i may be gone.
  ghost predicate Spared(job: Job, fs: Files, fs': Files, i: nat, p: Path)
    requires i < job.N()
  {
    && Outside(fs, fs', {p})
    && (|| (p.Backup? && p.of == job.files[i].abs)
        || (!job.IsDest(p.of) && Exposed(job, p) && (p !in fs' || fs' == fs)))
  }

  lemma FramePruned(job: Job, fs0: Files, l: Local, fs: Files, l': Local, fs': Files, i: nat, p: Path)
    requires FrameInv(job, fs0, l, fs) && i < job.N() && Spared(job, fs, fs', i, p)
    requires Janitored(l.pc) && Janitored(l'.pc) && job.Keep() > 0
    ensures FrameInv(job, fs0, l', fs')
  {
    forall q: Path | !job.IsDest(q.of)
      ensures FrameAt(job, fs0, l', fs', q)
    {
      assert FrameAt(job, fs0, l, fs, q);
      if q != p { assert SameAt(fs, fs', q); }
      assert job.IsDest(job.files[i].abs);
    }
  }

  predicate Finishing(pc: PC) { pc == AtEnd(Deployed) || pc == AtCleanTemps(0,
                      Deployed) || pc.AtPruneList? || pc.AtPruneRemove? }

  lemma PrunedTemps(env: Env, job: Job, fs0: Files, l: Local, fs: Files, l': Local, fs': Files, i: nat, p: Path)
    requires i < job.N() && ReadyInv(env, job, l, fs) && LeftInv(job, fs0, l, fs)
    requires Finishing(l.pc) && Finishing(l'.pc) && Full(job, l)
    requires l' == l.(pc := l'.pc, swept := l'.swept) && Spared(job, fs, fs', i, p)
    ensures ReadyInv(env, job, l', fs') && LeftInv(job, fs0, l', fs')
  {
    ReadyKeep(env, job, l, fs, l', fs', {p});
    assert forall j: nat, s: nat :: j < job.N() ==> job.IsDest(Temp(job.files[j].abs, s).of);
    LeftKeep(job, fs0, l, fs, l', fs', {p});
  }

  lemma PrunedRest(env: Env, job: Job, fs0: Files, l: Local, fs: Files, l': Local, fs': Files, i: nat, p: Path)
    requires Ready(env, job, fs0, l, fs) && (l.pc.AtPruneList? || l.pc.AtPruneRemove?) && l.pc.i == i && Full(job, l)
    requires l' == l.(pc := l'.pc, swept := l'.swept) && Spared(job, fs, fs', i, p)
    requires l'.pc == AtEnd(Deployed) || l'.pc == AtCleanTemps(0, Deployed) || l'.pc.AtPruneList?
             || l'.pc.AtPruneRemove?
    requires HoldInv(job, fs0, l', fs')
    ensures Rest(env, job, fs0, l', fs')
  {
    PrepKeep(env, job, fs0, l, l');
    LiveKeep(env, job, fs0, l, fs, l', fs', {p});
    PrunedTemps(env, job, fs0, l, fs, l', fs', i, p);
    FramePruned(job, fs0, l, fs, l', fs', i, p);
  }

  lemma PrunedFacts(job: Job, l: Local, i: nat)
    requires i < job.N()
    ensures var l' := Pruned(job, l, i);
            && l' == l.(pc := l'.pc) && Tidy(l'.pc) && SweptTo(job, l'.pc) == i + 1
            && (l'.pc == AtEnd(Deployed) || l'.pc == AtCleanTemps(0, Deployed) || l'.pc.AtPruneList?)
  {
  }

  // What must still be there once the janitor has gone from l to l' at i.
  ghost predicate Progress(job: Job, fs0: Files, l: Local, l': Local, i: nat, left: set<Path>)
    requires i < job.N()
  {
    && (forall j :: 0 <= j < job.N() && j != i ==>
          Must(job, fs0, l', j) == Must(job, fs0, l, j) && (Exact(job, fs0, l', j) ==> Exact(job, fs0, l, j)))
    && (Exact(job, fs0, l', i) ==> l'.swept && Lone(fs0, job.files[i].abs))
    && Must(job, fs0, l', i) ==
         if Lone(fs0, job.files[i].abs) then Newest(job.Keep(), AllBackups(job, fs0, l, i)) + StampsIn(left) else {}
  }

  lemma MustFollows(job: Job, fs0: Files, l: Local, l': Local, i: nat, left: set<Path>)
    requires i < job.N() && l'.preps == l.preps && (l'.swept ==> l.swept) && job.Keep() > 0
    requires l.pc == AtPruneList(i) || (l.pc.AtPruneRemove? && l.pc.i == i)
    requires if left == {} then SweptTo(job, l'.pc) == i + 1 && !l'.pc.AtPruneRemove?
             else l'.pc == AtPruneRemove(i, left)
    ensures Progress(job, fs0, l, l', i, left)
  {
    forall j | 0 <= j < job.N() && j != i
      ensures Must(job, fs0, l', j) == Must(job, fs0, l, j) && (Exact(job, fs0, l', j) ==> Exact(job, fs0, l, j))
    {
      assert Pruning(job, l'.pc, j) == Pruning(job, l.pc, j);
    }
  }

  lemma StepPruneList(env: Env, job: Job, fs0: Files, l: Local, fs: Files, l': Local, i: nat, left: set<Path>)
    requires Ready(env, job, fs0, l, fs) && l.pc == AtPruneList(i) && Progress(job, fs0, l, l', i, left)
    requires l' == l.(pc := l'.pc, swept := l'.swept) && (l'.swept ==> l.swept)
    requires l'.pc == AtEnd(Deployed) || l'.pc == AtCleanTemps(0, Deployed) || l'.pc.AtPruneList?
             || l'.pc.AtPruneRemove?
    requires var all := AllBackups(job, fs0, l, i);
             Lone(fs0, job.files[i].abs) ==>
               && StampsIn(left) <= all
               && (l'.swept ==> StampsIn(left) == all - Newest(job.Keep(), all))
    ensures Rest(env, job, fs0, l', fs)
  {
    assert Holding(job, fs0, l, fs, i, Must(job, fs0, l, i), Exact(job, fs0, l, i));
    HoldPruned(job, fs0, l, fs, l', fs, i);
    PrunedRest(env, job, fs0, l, fs, l', fs, i, Backup(job.files[i].abs, 0));
  }

  // p is a backup of d that is not to be kept, and no other of todo has its stamp.
  predicate OneLess(d: string, todo: set<Path>, p: Path, all: set<nat>, keep: int) {
    && p.Backup? && p.of == d && p.stamp !in Newest(keep, all)
    && StampsIn(todo) == StampsIn(todo - {p}) + {p.stamp} && p.stamp !in StampsIn(todo - {p})
  }

  lemma RemovesOne(d: string, todo: set<Path>, p: Path, all: set<nat>, keep: int)
    requires p in todo && todo <= BackupsOf(d, all - Newest(keep, all))
    ensures OneLess(d, todo, p, all, keep)
  {
    assert p in BackupsOf(d, all - Newest(keep, all));
    forall q | q in todo - {p}
      ensures q.Backup? && q.stamp != p.stamp
    {
      assert q in BackupsOf(d, all - Newest(keep, all));
    }
    forall b
      ensures b in StampsIn(todo) <==> b in StampsIn(todo - {p}) + {p.stamp}
    {
    }
  }

  lemma StampsOfBackups(d: string, stamps: set<nat>)
    ensures StampsIn(BackupsOf(d, stamps)) == stamps
  {
    forall b
      ensures b in stamps <==> b in StampsIn(BackupsOf(d, stamps))
    {
      if b in stamps { assert Backup(d, b) in BackupsOf(d, stamps); }
    }
  }

  // What is left of the backups of destination i once p is gone.
  lemma HoldRemoved(job: Job, fs0: Files, l: Local, fs: Files, l': Local, fs': Files, i: nat, todo: set<Path>, p: Path)
    requires i < job.N() && HoldInv(job, fs0, l, fs) && l.pc == AtPruneRemove(i, todo)
    requires Progress(job, fs0, l, l', i, todo - {p})
    requires job.Keep() > 0 && l'.preps == l.preps && (l'.swept ==> l.swept) && Outside(fs, fs', {p}) && p in todo
    requires p in fs' ==> fs' == fs && !(p.Backup? && l'.swept)
    requires Lone(fs0, job.files[i].abs) ==> OneLess(job.files[i].abs, todo, p, AllBackups(job, fs0, l, i), job.Keep())
    ensures Holding(job, fs0, l', fs', i, Must(job, fs0, l', i), Exact(job, fs0, l', i))
  {
    var d := job.files[i].abs;
    assert Holding(job, fs0, l, fs, i, Must(job, fs0, l, i), Exact(job, fs0, l, i));
    forall c: nat
      ensures Backup(d, c) != p ==> SameAt(fs, fs', Backup(d, c))
    {
    }
  }

  lemma StepPruneRemove(env: Env, job: Job, fs0: Files, l: Local, fs: Files, l': Local, fs': Files, i: nat,
                        todo: set<Path>, p: Path)
    requires Ready(env, job, fs0, l, fs) && l.pc == AtPruneRemove(i, todo) && Progress(job, fs0, l, l', i, todo - {p})
    requires l' == l.(pc := l'.pc, swept := l'.swept) && (l'.swept ==> l.swept)
    requires l'.pc == AtEnd(Deployed) || l'.pc == AtCleanTemps(0, Deployed) || l'.pc.AtPruneList?
             || l'.pc.AtPruneRemove?
    requires Spared(job, fs, fs', i, p) && Holding(job, fs0, l', fs', i, Must(job, fs0, l', i), Exact(job, fs0, l', i))
    ensures Rest(env, job, fs0, l', fs')
  {
    HoldPruned(job, fs0, l, fs, l', fs', i);
    PrunedRest(env, job, fs0, l, fs, l', fs', i, p);
  }

  // ----- the way out -----

  lemma CleanFacts(job: Job, l: Local, i: nat, next: Outcome, r: Reply)
    requires l.pc == AtCleanTemps(i, next) && i < job.N() == |l.preps|
    ensures var l' := OnCleanTemps(job, l, i, next, r);
            && l' == l.(pc := l'.pc, stuck := l'.stuck) && !l'.pc.AtPruneRemove?
            && Tidy(l'.pc) == Tidy(l.pc) && SweptTo(job, l'.pc) == SweptTo(job, l.pc)
            && BackedUp(job, l') == BackedUp(job, l) && ReadyTo(job, l'.pc) == ReadyTo(job, l.pc) == 0
            && CleanedTo(job, l'.pc) == i + 1 && forall j: nat :: !InFlight(l'.pc, j)
  {
  }

  lemma StepCleanTemps(env: Env, job: Job, fs0: Files, l: Local, fs: Files, fs': Files, i: nat, next: Outcome, r: Reply)
    requires job.WellFormed() && Rest(env, job, fs0, l, fs) && l.pc == AtCleanTemps(i, next) && i < job.N() == |l.preps|
    requires if l.preps[i].temp.None? then fs' == fs
             else var p := Temp(job.files[i].abs, l.preps[i].temp.value); Outside(fs, fs', {p}) && Gone(fs', p, r)
    ensures Rest(env, job, fs0, OnCleanTemps(job, l, i, next, r), fs')
  {
    var l' := OnCleanTemps(job, l, i, next, r);
    CleanFacts(job, l, i, next, r);
    if l.preps[i].temp.None? {
      QuietStep(env, job, fs0, l, fs, l');
    } else {
      TempRest(env, job, fs0, l, fs, l', fs', i, l.preps[i].temp.value);
    }
  }
}
