/** The invariant is inductive: it holds at the start and every step keeps it. */
module Safety {
  import opened FileSystem
  import opened Retention
  import opened Protocol
  import opened Names
  import opened Invariant
  import opened Carry
  import opened Control
  import opened Steps

  // One step of a call: the system call it may issue here, and a permitted reply.
  ghost predicate Step(env: Env, job: Job, fs0: Files, l: Local, fs: Files, op: Op, r: Reply) {
    job.WellFormed() && Inv(env, job, fs0, l, fs) && Allows(job, l, op) && Permitted(fs, op, r)
  }

  ghost predicate Keeps(env: Env, job: Job, fs0: Files, l: Local, fs: Files, op: Op, r: Reply)
    requires Step(env, job, fs0, l, fs, op, r)
  {
    Inv(env, job, fs0, Recv(env, job, l, op, r), Effect(env, fs, op, r))
  }

  lemma KeepsDeciding(env: Env, job: Job, fs0: Files, l: Local, fs: Files, op: Op, r: Reply)
    requires Step(env, job, fs0, l, fs, op, r)
    requires l.pc.AtCtx? || l.pc.AtIdem? || l.pc.AtStat? || l.pc.AtBackupRead? || l.pc.AtBackupStat?
    ensures Keeps(env, job, fs0, l, fs, op, r)
  {
    match l.pc
    case AtCtx =>
      AfterCtx(env, job, fs0, l, fs, r);
      StepCtx(env, job, fs0, l, fs, r);
    case AtIdem(i) =>
      assert LiveAt(env, job, fs0, l, fs, i);
      AfterIdem(env, job, fs0, l, fs, i, r);
      StepIdem(env, job, fs0, l, fs, i, r);
    case AtStat(i) =>
      assert LiveAt(env, job, fs0, l, fs, i);
      AfterStat(env, job, fs0, l, fs, i, r);
      StepStat(env, job, fs0, l, fs, i, r);
    case AtBackupRead(i) =>
      assert LiveAt(env, job, fs0, l, fs, i) && PrepAt(env, job, fs0, l, i);
      AfterBackupRead(env, job, fs0, l, fs, i, r);
      StepBackupRead(env, job, fs0, l, fs, i, r);
    case AtBackupStat(i) =>
      AfterBackupStat(env, job, fs0, l, fs, i, r);
      StepBackupStat(env, job, fs0, l, fs, i, r);
  }

  lemma KeepsPre(env: Env, job: Job, fs0: Files, l: Local, fs: Files, op: Op, r: Reply)
    requires Step(env, job, fs0, l, fs, op, r) && l.pc.AtPre?
    ensures Keeps(env, job, fs0, l, fs, op, r)
  {
    AfterPre(env, job, fs0, l, fs, r);
    StepPre(env, job, fs0, l, fs, r);
  }

  lemma KeepsPost(env: Env, job: Job, fs0: Files, l: Local, fs: Files, op: Op, r: Reply)
    requires Step(env, job, fs0, l, fs, op, r) && l.pc.AtPost?
    ensures Keeps(env, job, fs0, l, fs, op, r)
  {
    AfterPost(env, job, fs0, l, fs, r);
    StepPost(env, job, fs0, l, fs, r);
  }

  lemma KeepsPost2(env: Env, job: Job, fs0: Files, l: Local, fs: Files, op: Op, r: Reply)
    requires Step(env, job, fs0, l, fs, op, r) && l.pc.AtPost2?
    ensures Keeps(env, job, fs0, l, fs, op, r)
  {
    AfterPost2(env, job, fs0, l, fs, r);
    StepPost2(env, job, fs0, l, fs, r);
  }

  lemma KeepsBackupWrite(env: Env, job: Job, fs0: Files, l: Local, fs: Files, op: Op, r: Reply, i: nat)
    requires Step(env, job, fs0, l, fs, op, r) && l.pc == AtBackupWrite(i)
    ensures Keeps(env, job, fs0, l, fs, op, r)
  {
    AfterBackupWrite(env, job, fs0, l, Effect(env, fs, op, r), i, op.path.stamp, r);
    StepBackupWrite(env, job, fs0, l, fs, Effect(env, fs, op, r), i, op.path, r);
  }

  lemma KeepsBackupChown(env: Env, job: Job, fs0: Files, l: Local, fs: Files, op: Op, r: Reply, i: nat)
    requires Step(env, job, fs0, l, fs, op, r) && l.pc == AtBackupChown(i)
    ensures Keeps(env, job, fs0, l, fs, op, r)
  {
    if job.solo { assert IsReady(env, job, l, fs, 0); }
    AfterBackupChown(env, job, fs0, l, Effect(env, fs, op, r), i);
    StepBackupChown(env, job, fs0, l, fs, Effect(env, fs, op, r), i, op.path);
  }

  lemma KeepsBackupCleanup(env: Env, job: Job, fs0: Files, l: Local, fs: Files, op: Op, r: Reply, i: nat)
    requires Step(env, job, fs0, l, fs, op, r) && l.pc == AtBackupCleanup(i)
    ensures Keeps(env, job, fs0, l, fs, op, r)
  {
    var fs' := Effect(env, fs, op, r);
    AfterBackupCleanup(env, job, fs0, l, fs', i);
    StepBackupCleanup(env, job, fs0, l, fs, fs', i, if op.Remove? then op.path else Backup(job.files[i].abs, 0));
  }

  lemma KeepsTemp(env: Env, job: Job, fs0: Files, l: Local, fs: Files, op: Op, r: Reply, i: nat, stage: Stage)
    requires Step(env, job, fs0, l, fs, op, r) && l.pc == AtTemp(i, stage)
    ensures Keeps(env, job, fs0, l, fs, op, r)
  {
    StageEffect(env, fs, job.files[i].abs, l.stamp, job.files[i].bytes, l.preps[i].owner, stage, op, r);
    TempStep(env, job, fs0, l, fs, Effect(env, fs, op, r), i, stage, StagePath(job, l, i, stage, op), r);
  }

  lemma TempStep(env: Env, job: Job, fs0: Files, l: Local, fs: Files, fs': Files, i: nat, stage: Stage, p: Path,
                 r: Reply)
    requires job.WellFormed() && Inv(env, job, fs0, l, fs) && l.pc == AtTemp(i, stage)
    requires StageDone(env, fs, fs', p, job.files[i].abs, l.stamp, job.files[i].bytes, l.preps[i].owner, stage, r)
    ensures Inv(env, job, fs0, OnTemp(env, job, l, i, stage, p, r), fs')
  {
    forall j | 0 <= j < i
      ensures l.preps[j].temp.Some?
    {
      assert IsReady(env, job, l, fs, j);
    }
    AfterTemp(env, job, fs0, l, fs, fs', i, stage, p, r);
    if stage.SOpen? {
      StepTempOpen(env, job, fs0, l, fs, fs', i, p, r);
    } else {
      StepTemp(env, job, fs0, l, fs, fs', i, stage, p, r);
    }
  }

  lemma KeepsRename(env: Env, job: Job, fs0: Files, l: Local, fs: Files, op: Op, r: Reply, i: nat)
    requires Step(env, job, fs0, l, fs, op, r) && l.pc == AtRename(i)
    ensures Keeps(env, job, fs0, l, fs, op, r)
  {
    var fs' := Effect(env, fs, op, r);
    forall j | i < j < job.N()
      ensures l.preps[j].temp.Some?
    {
      assert IsReady(env, job, l, fs, j);
    }
    AfterRename(env, job, fs0, l, fs', i, r);
    StepRename(env, job, fs0, l, fs, fs', i, op.path, r);
  }

  lemma RestoreRemoves(env: Env, job: Job, fs0: Files, l: Local, fs: Files, fs': Files, i: nat, r: Reply)
    requires job.WellFormed() && Inv(env, job, fs0, l, fs) && l.pc == AtRestore(i) && l.preps[i].backup.None?
    requires if r.Err? then fs' == fs else Live(job.files[i].abs) !in fs' && Outside(fs, fs', {Live(job.files[i].abs)})
    ensures Inv(env, job, fs0, OnRestore(job, l, i, r), fs')
  {
    AfterRestored(env, job, fs0, l, fs', i, r.Err?);
    RemoveRest(env, job, fs0, l, fs, fs', i, r);
  }

  lemma RestoreReads(env: Env, job: Job, fs0: Files, l: Local, fs: Files, i: nat, r: Reply)
    requires job.WellFormed() && Inv(env, job, fs0, l, fs) && l.pc == AtRestore(i) && l.preps[i].backup.Some?
    requires Permitted(fs, Read(Backup(job.files[i].abs, l.preps[i].backup.value)), r)
    ensures Inv(env, job, fs0, OnRestore(job, l, i, r), fs)
  {
    AfterRestored(env, job, fs0, l, fs, i, true);
    assert Holding(job, fs0, l, fs, i, Must(job, fs0, l, i), Exact(job, fs0, l, i));
    StepRestore(env, job, fs0, l, fs, i, r);
  }

  lemma KeepsRestore(env: Env, job: Job, fs0: Files, l: Local, fs: Files, op: Op, r: Reply, i: nat)
    requires Step(env, job, fs0, l, fs, op, r) && l.pc == AtRestore(i)
    ensures Keeps(env, job, fs0, l, fs, op, r)
  {
    if l.preps[i].backup.None? {
      RestoreRemoves(env, job, fs0, l, fs, Effect(env, fs, op, r), i, r);
    } else {
      RestoreReads(env, job, fs0, l, fs, i, r);
    }
  }

  lemma KeepsRestoreTemp(env: Env, job: Job, fs0: Files, l: Local, fs: Files, op: Op, r: Reply, i: nat, stage: Stage)
    requires Step(env, job, fs0, l, fs, op, r) && l.pc == AtRestoreTemp(i, stage)
    ensures Keeps(env, job, fs0, l, fs, op, r)
  {
    StageEffect(env, fs, job.files[i].abs, l.stamp, l.data, l.preps[i].owner, stage, op, r);
    RestoreTempStep(env, job, fs0, l, fs, Effect(env, fs, op, r), i, stage, StagePath(job, l, i, stage, op), r);
  }

  lemma RestoreTempStep(env: Env, job: Job, fs0: Files, l: Local, fs: Files, fs': Files, i: nat, stage: Stage,
                        p: Path, r: Reply)
    requires job.WellFormed() && Inv(env, job, fs0, l, fs) && l.pc == AtRestoreTemp(i, stage)
    requires StageDone(env, fs, fs', p, job.files[i].abs, l.stamp, l.data, l.preps[i].owner, stage, r)
    ensures Inv(env, job, fs0, OnRestoreTemp(env, job, l, i, stage, p, r), fs')
  {
    AfterRestoreTemp(env, job, fs0, l, fs, fs', i, stage, p, r);
    if stage.SOpen? {
      StepRestoreTempOpen(env, job, fs0, l, fs, fs', i, p, r);
    } else if stage.SDrop? {
      StepRestoreDrop(env, job, fs0, l, fs, fs', i, p, r);
    } else {
      StepRestoreTemp(env, job, fs0, l, fs, fs', i, stage, p, r);
    }
  }

  lemma KeepsRestoreRename(env: Env, job: Job, fs0: Files, l: Local, fs: Files, op: Op, r: Reply, i: nat)
    requires Step(env, job, fs0, l, fs, op, r) && l.pc == AtRestoreRename(i)
    ensures Keeps(env, job, fs0, l, fs, op, r)
  {
    AfterRestored(env, job, fs0, l, Effect(env, fs, op, r), i, false);
    StepRestoreRename(env, job, fs0, l, fs, Effect(env, fs, op, r), i, op.path, r);
  }

  lemma PruneTodo(env: Env, job: Job, fs0: Files, l: Local, fs: Files, i: nat, todo: set<Path>)
    requires job.WellFormed() && Inv(env, job, fs0, l, fs) && l.pc == AtPruneList(i)
    requires todo == Doomed(job.Keep(), Found(fs, job.files[i].abs))
    ensures TodoInv(job, fs0, l, i, todo)
  {
    if job.Spaced() { Planned(env, job, fs0, l, fs, i); }
  }

  lemma PruneListRest(env: Env, job: Job, fs0: Files, l: Local, fs: Files, i: nat, r: Reply)
    requires Ready(env, job, fs0, l, fs) && l.pc == AtPruneList(i) && job.Spaced()
    requires Permitted(fs, List(job.files[i].abs), r)
    ensures Rest(env, job, fs0, OnPruneList(job, l, i, r), fs)
  {
    var all, l' := AllBackups(job, fs0, l, i), OnPruneList(job, l, i, r);
    var left := if r.Names? then Doomed(job.Keep(), r.found) else {};
    PrunedFacts(job, l.(swept := l.swept && r.Names?), i);
    Planned(env, job, fs0, l, fs, i);
    StampsOfBackups(job.files[i].abs, all - Newest(job.Keep(), all));
    MustFollows(job, fs0, l, l', i, left);
    StepPruneList(env, job, fs0, l, fs, l', i, left);
  }

  lemma KeepsPruneList(env: Env, job: Job, fs0: Files, l: Local, fs: Files, op: Op, r: Reply, i: nat)
    requires Step(env, job, fs0, l, fs, op, r) && l.pc == AtPruneList(i)
    ensures Keeps(env, job, fs0, l, fs, op, r)
  {
    if r.Names? { PruneTodo(env, job, fs0, l, fs, i, Doomed(job.Keep(), r.found)); }
    AfterPruneList(env, job, fs0, l, fs, i, r);
    if job.Spaced() {
      PruneListRest(env, job, fs0, l, fs, i, r);
    } else {
      PruneListAstray(env, job, fs0, l, fs, i, r);
    }
  }

  lemma PruneListAstray(env: Env, job: Job, fs0: Files, l: Local, fs: Files, i: nat, r: Reply)
    requires Basis(env, job, fs0, l, fs) && l.pc == AtPruneList(i) && i < job.N()
    requires !job.Spaced() && job.Keep() > 0 && Full(job, l)
    ensures var l' := OnPruneList(job, l, i, r); Astray(job, l') && Basis(env, job, fs0, l', fs)
  {
    StaysAstray(job, l.(swept := l.swept && r.Names?), i);
    OwnBackupListed(job.files[i].abs, 0);
    AstrayKeeps(env, job, fs0, l, fs, OnPruneList(job, l, i, r), fs, i, Backup(job.files[i].abs, 0));
  }

  lemma StaysRemoving(job: Job, l: Local, i: nat, todo: set<Path>, p: Path, r: Reply)
    requires !job.Spaced() && job.Keep() > 0 && l.pc == AtPruneRemove(i, todo)
    ensures var l' := OnPruneRemove(job, l, i, todo, p, r);
            && l' == l.(pc := l'.pc, swept := l'.swept) && Astray(job, l') && BackedUp(job, l') == job.N()
            && forall j: nat :: !InFlight(l'.pc, j)
  {
    StaysAstray(job, l.(swept := l.swept && !(p.Backup? && r.Err?)), i);
  }

  lemma PruneRemoveAstray(env: Env, job: Job, fs0: Files, l: Local, fs: Files, fs': Files, i: nat, todo: set<Path>,
                          p: Path, r: Reply)
    requires Basis(env, job, fs0, l, fs) && l.pc == AtPruneRemove(i, todo) && i < job.N()
    requires !job.Spaced() && job.Keep() > 0 && Full(job, l) && Listed(job.files[i].abs, p)
    requires Outside(fs, fs', {p}) && (p in fs' ==> fs' == fs)
    ensures var l' := OnPruneRemove(job, l, i, todo, p, r); Astray(job, l') && Basis(env, job, fs0, l', fs')
  {
    StaysRemoving(job, l, i, todo, p, r);
    AstrayKeeps(env, job, fs0, l, fs, OnPruneRemove(job, l, i, todo, p, r), fs', i, p);
  }

  lemma OneFileIsSpaced(job: Job)
    requires job.N() == 1
    ensures job.Spaced()
  {
    NotNearItself(job.files[0].abs);
  }

  lemma OneFileIsProper(job: Job)
    requires job.N() == 1
    ensures Proper(Dests(job), job)
  {
    forall n: nat | n <= MAX_NANOS
      ensures Render(Temp(job.files[0].abs, n)) !in Dests(job) && Render(Backup(job.files[0].abs, n)) !in Dests(job)
    {
      SiblingName(job.files[0].abs, TEMP_SUFFIX, n);
      SiblingName(job.files[0].abs, BACKUP_SUFFIX, n);
    }
  }

  lemma AstrayLeft(job: Job, fs0: Files, l: Local, fs: Files, l': Local, fs': Files, p: Path)
    requires LeftInv(job, fs0, l, fs) && Outside(fs, fs', {p}) && (p in fs' ==> fs' == fs)
    requires l' == l.(pc := l'.pc, swept := l'.swept) && Full(job, l)
    requires (forall j: nat :: !InFlight(l.pc, j) && !InFlight(l'.pc, j))
    ensures LeftInv(job, fs0, l', fs')
  {
    forall j, s: nat | 0 <= j < job.N()
      ensures Accounted(job, fs0, l', fs', j, s)
    {
      assert Accounted(job, fs0, l, fs, j, s);
      if Temp(job.files[j].abs, s) != p { assert SameAt(fs, fs', Temp(job.files[j].abs, s)); }
    }
  }

  lemma AstrayFrame(job: Job, fs0: Files, l: Local, fs: Files, l': Local, fs': Files, i: nat, p: Path)
    requires FrameInv(job, fs0, l, fs) && i < job.N() && Listed(job.files[i].abs, p)
    requires Outside(fs, fs', {p}) && (p in fs' ==> fs' == fs) && job.Keep() > 0 && Janitored(l.pc) && Janitored(l'.pc)
    ensures FrameInv(job, fs0, l', fs')
  {
    forall q: Path | !job.IsDest(q.of)
      ensures FrameAt(job, fs0, l', fs', q)
    {
      assert FrameAt(job, fs0, l, fs, q);
      if q != p { assert SameAt(fs, fs', q); }
    }
  }

  lemma AstrayLive(env: Env, job: Job, fs0: Files, l: Local, fs: Files, l': Local, fs': Files, i: nat, p: Path)
    requires LiveInv(env, job, fs0, l, fs) && i < job.N() && Listed(job.files[i].abs, p) && job.Unlisted()
    requires Outside(fs, fs', {p}) && l' == l.(pc := l'.pc, swept := l'.swept)
    ensures LiveInv(env, job, fs0, l', fs')
  {
    ListedExactly(job.files[i].abs, p);
    LiveKeep(env, job, fs0, l, fs, l', fs', {p});
  }

  lemma AstrayPrep(env: Env, job: Job, fs0: Files, l: Local, l': Local)
    requires PrepInv(env, job, fs0, l) && l' == l.(pc := l'.pc, swept := l'.swept)
    requires BackedUp(job, l') == BackedUp(job, l)
    ensures PrepInv(env, job, fs0, l')
  {
    PrepKeep(env, job, fs0, l, l');
  }

  // Even then only files with a destination's backup prefix go.
  lemma AstrayKeeps(env: Env, job: Job, fs0: Files, l: Local, fs: Files, l': Local, fs': Files, i: nat, p: Path)
    requires Basis(env, job, fs0, l, fs) && i < job.N() && Listed(job.files[i].abs, p)
    requires Outside(fs, fs', {p}) && (p in fs' ==> fs' == fs) && l' == l.(pc := l'.pc, swept := l'.swept)
    requires job.Keep() > 0 && Full(job, l) && Janitored(l.pc)
    requires Sweeping(job, l') && BackedUp(job, l') == BackedUp(job, l)
    requires forall j: nat :: !InFlight(l.pc, j) && !InFlight(l'.pc, j)
    ensures Basis(env, job, fs0, l', fs')
  {
    AstrayPrep(env, job, fs0, l, l');
    AstrayLeft(job, fs0, l, fs, l', fs', p);
    AstrayFrame(job, fs0, l, fs, l', fs', i, p);
    if job.Unlisted() { AstrayLive(env, job, fs0, l, fs, l', fs', i, p); }
  }

  lemma StaysAstray(job: Job, l: Local, i: nat)
    requires !job.Spaced() && job.Keep() > 0
    ensures Astray(job, Pruned(job, l, i)) && BackedUp(job, Pruned(job, l, i)) == job.N()
  {
  }

  lemma PruneRemoveInv(env: Env, job: Job, fs0: Files, l: Local, fs: Files, fs': Files, i: nat, todo: set<Path>,
                       p: Path, r: Reply)
    requires job.WellFormed() && Inv(env, job, fs0, l, fs) && l.pc == AtPruneRemove(i, todo) && p in todo
    requires Outside(fs, fs', {p}) && (p in fs' ==> fs' == fs && r.Err?)
    ensures Inv(env, job, fs0, OnPruneRemove(job, l, i, todo, p, r), fs')
  {
    AfterPruneRemove(env, job, fs0, l, fs', i, todo, p, r);
    if job.Spaced() {
      PruneRemoveRest(env, job, fs0, l, fs, fs', i, todo, p, r);
    } else {
      PruneRemoveAstray(env, job, fs0, l, fs, fs', i, todo, p, r);
    }
  }

  lemma KeepsPruneRemove(env: Env, job: Job, fs0: Files, l: Local, fs: Files, op: Op, r: Reply, i: nat, todo: set<Path>)
    requires Step(env, job, fs0, l, fs, op, r) && l.pc == AtPruneRemove(i, todo)
    ensures Keeps(env, job, fs0, l, fs, op, r)
  {
    RemoveEffect(env, fs, op.path, r);
    PruneRemoveInv(env, job, fs0, l, fs, Effect(env, fs, op, r), i, todo, op.path, r);
  }

  lemma PruneRemoveRest(env: Env, job: Job, fs0: Files, l: Local, fs: Files, fs': Files, i: nat, todo: set<Path>,
                        p: Path, r: Reply)
    requires Ready(env, job, fs0, l, fs) && l.pc == AtPruneRemove(i, todo) && p in todo && job.Spaced()
    requires Outside(fs, fs', {p}) && (p in fs' ==> fs' == fs && r.Err?)
    ensures Rest(env, job, fs0, OnPruneRemove(job, l, i, todo, p, r), fs')
  {
    var l', all := OnPruneRemove(job, l, i, todo, p, r), AllBackups(job, fs0, l, i);
    PrunedFacts(job, l.(swept := l.swept && !(p.Backup? && r.Err?)), i);
    MustFollows(job, fs0, l, l', i, todo - {p});
    FoundKinds(job, i, p);
    if Lone(fs0, job.files[i].abs) { RemovesOne(job.files[i].abs, todo, p, all, job.Keep()); }
    HoldRemoved(job, fs0, l, fs, l', fs', i, todo, p);
    StepPruneRemove(env, job, fs0, l, fs, l', fs', i, todo, p);
  }

  lemma CleanTempsInv(env: Env, job: Job, fs0: Files, l: Local, fs: Files, fs': Files, i: nat, next: Outcome, r: Reply)
    requires job.WellFormed() && Inv(env, job, fs0, l, fs) && l.pc == AtCleanTemps(i, next)
    requires if l.preps[i].temp.None? then fs' == fs
             else var p := Temp(job.files[i].abs, l.preps[i].temp.value); Outside(fs, fs', {p}) && Gone(fs', p, r)
    ensures Inv(env, job, fs0, OnCleanTemps(job, l, i, next, r), fs')
  {
    AfterCleanTemps(env, job, fs0, l, fs', i, next, r);
    if job.solo { OneFileIsSpaced(job); }
    StepCleanTemps(env, job, fs0, l, fs, fs', i, next, r);
  }

  lemma KeepsCleanTemps(env: Env, job: Job, fs0: Files, l: Local, fs: Files, op: Op, r: Reply, i: nat, next: Outcome)
    requires Step(env, job, fs0, l, fs, op, r) && l.pc == AtCleanTemps(i, next)
    ensures Keeps(env, job, fs0, l, fs, op, r)
  {
    CleanTempsInv(env, job, fs0, l, fs, Effect(env, fs, op, r), i, next, r);
  }

  lemma StepKeepsInvariant(env: Env, job: Job, fs0: Files, l: Local, fs: Files, op: Op, r: Reply)
    requires Step(env, job, fs0, l, fs, op, r)
    ensures Keeps(env, job, fs0, l, fs, op, r)
  {
    match l.pc
    case AtTemp(i, stage) => KeepsTemp(env, job, fs0, l, fs, op, r, i, stage);
    case AtRename(i) => KeepsRename(env, job, fs0, l, fs, op, r, i);
    case AtRestore(i) => KeepsRestore(env, job, fs0, l, fs, op, r, i);
    case AtRestoreTemp(i, stage) => KeepsRestoreTemp(env, job, fs0, l, fs, op, r, i, stage);
    case AtRestoreRename(i) => KeepsRestoreRename(env, job, fs0, l, fs, op, r, i);
    case AtPruneList(i) => KeepsPruneList(env, job, fs0, l, fs, op, r, i);
    case AtPruneRemove(i, todo) => KeepsPruneRemove(env, job, fs0, l, fs, op, r, i, todo);
    case AtCleanTemps(i, next) => KeepsCleanTemps(env, job, fs0, l, fs, op, r, i, next);
    case AtPre => KeepsPre(env, job, fs0, l, fs, op, r);
    case AtPost => KeepsPost(env, job, fs0, l, fs, op, r);
    case AtPost2 => KeepsPost2(env, job, fs0, l, fs, op, r);
    case AtBackupWrite(i) => KeepsBackupWrite(env, job, fs0, l, fs, op, r, i);
    case AtBackupChown(i) => KeepsBackupChown(env, job, fs0, l, fs, op, r, i);
    case AtBackupCleanup(i) => KeepsBackupCleanup(env, job, fs0, l, fs, op, r, i);
    case _ => KeepsDeciding(env, job, fs0, l, fs, op, r);
  }
}
