/** Where a call can go next, whatever the replies: always forward, never out of bounds. */
module Progress {
  import opened Common
  import opened FileSystem
  import opened Protocol

  // ----- forward -----

  function Left(job: Job, i: nat): nat { if i < job.N() then job.N() - i else 0 }

  // Room for one phase of the call.
  function Block(job: Job): nat { 10 * job.N() + 10 }

  function StageNo(stage: Stage): nat {
    match stage
    case SOpen => 1
    case SWrite => 2
    case SSync => 3
    case SClose => 4
    case SChmod => 5
    case SChown => 6
    case SDrop => 8
  }

  // Phases count down; AtomicWriteFile stats before it compares and stages before it backs up.
  function PhaseNo(job: Job, pc: PC): nat {
    match pc
    case AtCtx => 15
    case AtIdem(_) => if job.solo then 13 else 14
    case AtStat(_) => if job.solo then 14 else 13
    case AtBackupRead(_) => if job.solo then 11 else 12
    case AtBackupStat(_) => if job.solo then 11 else 12
    case AtBackupWrite(_) => if job.solo then 11 else 12
    case AtBackupChown(_) => if job.solo then 11 else 12
    case AtTemp(_, _) => if job.solo then 12 else 11
    case AtPre => 10
    case AtRename(_) => 9
    case AtPost => 8
    case AtRestore(_) => 7
    case AtRestoreTemp(_, _) => 7
    case AtRestoreRename(_) => 7
    case AtPost2 => 6
    case AtBackupCleanup(_) => 5
    case AtPruneList(_) => 4
    case AtPruneRemove(_, _) => 4
    case AtCleanTemps(_, _) => 3
    case AtEnd(_) => 0
  }

  // What is left of the phase.
  function Within(job: Job, pc: PC): int {
    match pc
    case AtIdem(i) => Left(job, i)
    case AtStat(i) => Left(job, i)
    case AtBackupRead(i) => 4 * Left(job, i)
    case AtBackupStat(i) => 4 * Left(job, i) - 1
    case AtBackupWrite(i) => 4 * Left(job, i) - 2
    case AtBackupChown(i) => 4 * Left(job, i) - 3
    case AtBackupCleanup(i) => Left(job, i)
    case AtTemp(i, stage) => 10 * Left(job, i) - StageNo(stage)
    case AtRename(i) => Left(job, i)
    case AtRestore(i) => 10 * Left(job, i)
    case AtRestoreTemp(i, stage) => 10 * Left(job, i) - StageNo(stage)
    case AtRestoreRename(i) => 10 * Left(job, i) - 7
    case AtPruneList(i) => 2 * Left(job, i)
    case AtPruneRemove(i, _) => 2 * Left(job, i) - 1
    case AtCleanTemps(i, _) => Left(job, i)
    case _ => 0
  }

  // A later phase, or the same phase with less left.
  predicate Below(job: Job, pc': PC, pc: PC) {
    && 0 <= Within(job, pc') < Block(job)
    && (|| PhaseNo(job, pc') < PhaseNo(job, pc)
        || (PhaseNo(job, pc') == PhaseNo(job, pc) && Within(job, pc') < Within(job, pc)))
  }

  // One step further; removing one of many old backups stays in place.
  predicate Further(job: Job, pc: PC, pc': PC) {
    Below(job, pc', pc) || (pc.AtPruneRemove? && pc'.AtPruneRemove? && pc.i == pc'.i && pc'.todo < pc.todo)
  }

  // The same as one number.
  function Rank(job: Job, pc: PC): int { PhaseNo(job, pc) * Block(job) + Within(job, pc) }

  lemma Lexical(a: nat, x: int, b: nat, y: int, k: nat)
    requires 0 <= x < k && 0 <= y && (a < b || (a == b && x < y))
    ensures 0 <= a * k + x < b * k + y
  {
    if a < b { assert (a + 1) * k <= b * k; }
  }

  lemma RankFalls(job: Job, pc: PC, pc': PC)
    requires Below(job, pc', pc) && 0 <= Within(job, pc)
    ensures 0 <= Rank(job, pc') < Rank(job, pc)
  {
    Lexical(PhaseNo(job, pc'), Within(job, pc'), PhaseNo(job, pc), Within(job, pc), Block(job));
  }

  // ----- in bounds -----

  predicate TempsIn(l: Local, from: nat,
                    to: nat) { forall j :: from <= j < to && j < |l.preps| ==> l.preps[j].temp.Some? }

  // Enough about a call to know that its next step is well defined.
  predicate Sane(job: Job, l: Local) {
    && InBounds(job, l)
    && match l.pc
       case AtCtx => l.preps == [] && l.done == 0
       case AtIdem(i) => l.preps == [] && (job.solo ==> i == 0) && l.done == 0
       case AtStat(i) => |l.preps| == i && l.done == 0
       case AtBackupRead(_) => l.done == 0 && (job.solo ==> TempsIn(l, 0, job.N()))
       case AtBackupStat(_) => l.done == 0 && (job.solo ==> TempsIn(l, 0, job.N()))
       case AtBackupWrite(_) => l.done == 0 && (job.solo ==> TempsIn(l, 0, job.N()))
       case AtBackupChown(_) => l.done == 0 && (job.solo ==> TempsIn(l, 0, job.N()))
       case AtTemp(i, stage) => l.done == 0 && TempsIn(l, 0, if stage.SChmod? || stage.SChown? then i + 1 else i)
       case AtRename(i) => l.done == i && TempsIn(l, i, job.N())
       case AtPre => l.done == 0
       case AtPost => |l.preps| == job.N() == l.done
       case AtRestore(i) => i < l.done <= job.N()
       case AtRestoreTemp(i, _) => i < l.done <= job.N()
       case AtRestoreRename(i) => i < l.done <= job.N()
       case _ => true
  }

  // ----- every step -----

  predicate Onward(job: Job, l: Local, l': Local) {
    && Further(job, l.pc, l'.pc) && Sane(job, l')
    && (l'.pc.AtPruneRemove? ==> l.pc.AtPruneList? || l.pc.AtPruneRemove?)
  }

  lemma OnwardCtx(job: Job, l: Local, r: Reply)
    requires job.WellFormed() && Sane(job, l) && l.pc.AtCtx?
    ensures Onward(job, l, OnCtx(job, l, r))
  {
  }

  lemma OnwardResolved(env: Env, job: Job, l: Local, i: nat, info: Option<Info>)
    requires job.WellFormed() && Sane(job, l) && ((l.pc == AtIdem(i) && job.solo) || l.pc == AtStat(i))
    ensures Onward(job, l, Resolved(env, job, l, i, info))
  {
    var l' := Resolved(env, job, l, i, info);
    assert l'.pc == AtEnd(Aborted) || |l'.preps| == i + 1;
    assert l'.pc == AtEnd(Aborted) || l'.pc == AtStat(i + 1) || l'.pc == AtBackupRead(0) || l'.pc == AtTemp(0, SOpen);
    assert l'.pc == AtStat(i + 1) ==> i + 1 < job.N();
  }

  lemma OnwardIdem(env: Env, job: Job, l: Local, i: nat, r: Reply)
    requires job.WellFormed() && Sane(job, l) && l.pc == AtIdem(i)
    ensures Onward(job, l, OnIdem(env, job, l, i, r))
  {
    if job.solo { OnwardResolved(env, job, l, i, l.info); }
  }

  lemma OnwardStat(env: Env, job: Job, l: Local, i: nat, r: Reply)
    requires job.WellFormed() && Sane(job, l) && l.pc == AtStat(i)
    ensures Onward(job, l, OnStat(env, job, l, i, r))
  {
    var info := if r.Stats? then Some(r.info) else None;
    OnwardResolved(env, job, l.(info := info), i, info);
  }

  lemma OnwardAfterBackup(job: Job, l: Local, i: nat)
    requires job.WellFormed() && Sane(job, l) && (l.pc == AtBackupRead(i) || l.pc == AtBackupChown(i))
    ensures Onward(job, l, AfterBackup(job, l, i))
  {
    var l' := AfterBackup(job, l, i);
    assert l'.preps == l.preps && l'.done == l.done;
    assert l'.pc == AtRename(0) || (l'.pc == AtBackupRead(i + 1) && i + 1 < job.N()) || l'.pc == AtTemp(0, SOpen);
  }

  lemma OnwardBackupFailed(job: Job, l: Local, i: nat)
    requires job.WellFormed() && Sane(job, l)
    requires l.pc == AtBackupRead(i) || l.pc == AtBackupStat(i) || l.pc == AtBackupWrite(i)
    ensures Onward(job, l, BackupFailed(job, l))
  {
  }

  lemma OnwardBackupRead(job: Job, l: Local, i: nat, r: Reply)
    requires job.WellFormed() && Sane(job, l) && l.pc == AtBackupRead(i)
    ensures Onward(job, l, OnBackupRead(job, l, i, r))
  {
    if !l.preps[i].hadOrig {
      OnwardAfterBackup(job, l, i);
    } else if !r.Data? {
      OnwardBackupFailed(job, l, i);
    }
  }

  lemma OnwardBackupStat(job: Job, l: Local, i: nat, r: Reply)
    requires job.WellFormed() && Sane(job, l) && l.pc == AtBackupStat(i)
    ensures Onward(job, l, OnBackupStat(job, l, i, r))
  {
  }

  lemma OnwardBackupWrite(job: Job, l: Local, i: nat, stamp: nat, r: Reply)
    requires job.WellFormed() && Sane(job, l) && l.pc == AtBackupWrite(i)
    ensures Onward(job, l, OnBackupWrite(job, l, i, stamp, r))
  {
  }

  lemma OnwardBackupCleanup(job: Job, l: Local, i: nat)
    requires job.WellFormed() && Sane(job, l) && l.pc == AtBackupCleanup(i)
    ensures Onward(job, l, OnBackupCleanup(job, l, i))
  {
  }

  lemma OnwardTempFails(job: Job, l: Local, i: nat, stage: Stage, l': Local)
    requires job.WellFormed() && Sane(job, l) && l.pc == AtTemp(i, stage)
    requires l'.pc == AtCleanTemps(0, Aborted) && l'.preps == l.preps
    ensures Onward(job, l, l')
  {
  }

  // The temp goes to its next stage.
  lemma OnwardTempNext(job: Job, l: Local, i: nat, stage: Stage, l': Local, stage': Stage)
    requires job.WellFormed() && Sane(job, l) && l.pc == AtTemp(i, stage)
    requires l'.pc == AtTemp(i, stage') && l'.done == l.done
    requires StageNo(stage') > StageNo(stage) && |l'.preps| == |l.preps| && TempsIn(l', 0, i)
    requires stage'.SChmod? || stage'.SChown? ==> l'.preps[i].temp.Some?
    ensures Onward(job, l, l')
  {
  }

  lemma OnwardTemp(env: Env, job: Job, l: Local, i: nat, stage: Stage, p: Path, r: Reply)
    requires job.WellFormed() && Sane(job, l) && l.pc == AtTemp(i, stage) && p.Temp?
    ensures Onward(job, l, OnTemp(env, job, l, i, stage, p, r))
  {
    var l' := OnTemp(env, job, l, i, stage, p, r);
    if l'.pc.AtCleanTemps? {
      OnwardTempFails(job, l, i, stage, l');
    } else if stage.SChown? {
      OnwardTempReady(job, l, i);
    } else {
      OnwardTempNext(job, l, i, stage, l', l'.pc.stage);
    }
  }

  lemma OnwardTempReady(job: Job, l: Local, i: nat)
    requires job.WellFormed() && Sane(job, l) && l.pc == AtTemp(i, SChown)
    ensures Onward(job, l, TempReady(job, l, i))
  {
    var l' := TempReady(job, l, i);
    assert l'.preps == l.preps && l'.done == l.done;
    assert || (l'.pc == AtTemp(i + 1, SOpen) && i + 1 < job.N())
           || ((l'.pc == AtBackupRead(i) || l'.pc == AtPre || l'.pc == AtRename(0)) && i + 1 == job.N());
  }

  lemma OnwardPre(job: Job, l: Local, r: Reply)
    requires job.WellFormed() && Sane(job, l) && l.pc.AtPre?
    ensures Onward(job, l, OnPre(l, r))
  {
  }

  lemma SuccessSane(job: Job, l: Local)
    requires 0 < job.N() == |l.preps|
    ensures Sane(job, Success(job, l)) && PhaseNo(job, Success(job, l).pc) <= 4
    ensures 0 <= Within(job, Success(job, l).pc) < Block(job)
  {
    var l' := Success(job, l);
    assert l'.preps == l.preps;
    assert l'.pc == AtPruneList(0) || l'.pc == AtCleanTemps(0, Deployed) || l'.pc == AtEnd(Deployed);
  }

  lemma OnwardRenamed(job: Job, l: Local, i: nat)
    requires job.WellFormed() && Sane(job, l) && l.pc == AtRename(i)
    ensures Onward(job, l, OnRename(job, l, i, Ok))
  {
    var l' := OnRename(job, l, i, Ok);
    if i + 1 == job.N() && !job.hasPost {
      SuccessSane(job, l.(done := i + 1));
    } else {
      assert l'.preps == l.preps && l'.done == i + 1 && (l'.pc == AtRename(i + 1) || l'.pc == AtPost);
    }
  }

  lemma OnwardRename(job: Job, l: Local, i: nat, r: Reply)
    requires job.WellFormed() && Sane(job, l) && l.pc == AtRename(i)
    ensures Onward(job, l, OnRename(job, l, i, r))
  {
    if r.Ok? {
      OnwardRenamed(job, l, i);
    } else {
      var l' := OnRename(job, l, i, r);
      assert l'.preps == l.preps && l'.done == l.done;
      assert || (l'.pc == AtCleanTemps(0, Aborted)) || (l'.pc == AtCleanTemps(0, RenameFailed))
             || (l'.pc == AtRestore(0) && 0 < l.done <= job.N());
    }
  }

  lemma OnwardPost(job: Job, l: Local, r: Reply)
    requires job.WellFormed() && Sane(job, l) && l.pc.AtPost?
    ensures Onward(job, l, OnPost(job, l, r))
  {
    if r.Ok? { SuccessSane(job, l.(post := l.post + 1)); } else { OnwardPostFails(job, l, r); }
  }

  lemma OnwardPostFails(job: Job, l: Local, r: Reply)
    requires job.WellFormed() && Sane(job, l) && l.pc.AtPost? && !r.Ok?
    ensures Onward(job, l, OnPost(job, l, r))
  {
    var l' := OnPost(job, l, r);
    assert l'.preps == l.preps && l'.done == l.done && l'.pc == AtRestore(0);
  }

  predicate Restoring(pc: PC) { pc.AtRestore? || pc.AtRestoreTemp? || pc.AtRestoreRename? }

  lemma OnwardRestored(job: Job, l: Local, i: nat, failed: bool)
    requires Sane(job, l) && Restoring(l.pc) && l.pc.i == i
    ensures Onward(job, l, Restored(job, l, i, failed))
  {
    var l' := Restored(job, l, i, failed);
    assert |l'.preps| == |l.preps| && l'.done == l.done;
    assert l'.pc == AtRestore(i + 1) || l'.pc.AtCleanTemps? || l'.pc.AtEnd? || l'.pc == AtPost2;
    assert (l'.pc == AtRestore(i + 1) ==> i + 1 < l.done) && (l'.pc.AtCleanTemps? ==> l'.pc.i == 0);
  }

  lemma OnwardRestore(job: Job, l: Local, i: nat, r: Reply)
    requires Sane(job, l) && l.pc == AtRestore(i)
    ensures Onward(job, l, OnRestore(job, l, i, r))
  {
    OnwardRestored(job, l, i, true);
    OnwardRestored(job, l, i, r.Err?);
  }

  // The temp of a restore goes to its next stage.
  lemma OnwardStage(job: Job, l: Local, i: nat, stage: Stage, l': Local)
    requires Sane(job, l) && l.pc == AtRestoreTemp(i, stage) && l' == l.(pc := l'.pc, stamp := l'.stamp)
    requires || l'.pc == AtRestoreRename(i)
             || (l'.pc.AtRestoreTemp? && l'.pc.i == i && StageNo(l'.pc.stage) > StageNo(stage))
    requires !stage.SDrop?
    ensures Onward(job, l, l')
  {
  }

  lemma OnwardRestoreTemp(env: Env, job: Job, l: Local, i: nat, stage: Stage, p: Path, r: Reply)
    requires Sane(job, l) && l.pc == AtRestoreTemp(i, stage) && p.Temp?
    ensures Onward(job, l, OnRestoreTemp(env, job, l, i, stage, p, r))
  {
    if stage.SDrop? {
      OnwardRestored(job, NoteRemove(l, p, r), i, true);
    } else if stage.SOpen? && !r.Made? {
      OnwardRestored(job, l, i, true);
    } else {
      OnwardStage(job, l, i, stage, OnRestoreTemp(env, job, l, i, stage, p, r));
    }
  }

  lemma OnwardRestoreRename(job: Job, l: Local, i: nat, r: Reply)
    requires Sane(job, l) && l.pc == AtRestoreRename(i)
    ensures Onward(job, l, OnRestoreRename(job, l, i, r))
  {
    OnwardRestored(job, l, i, false);
  }

  lemma OnwardPost2(job: Job, l: Local, r: Reply)
    requires Sane(job, l) && l.pc.AtPost2?
    ensures Onward(job, l, OnPost2(l, r))
  {
  }

  lemma OnwardPruned(job: Job, l: Local, i: nat)
    requires Sane(job, l) && (l.pc == AtPruneList(i) || (l.pc.AtPruneRemove? && l.pc.i == i))
    ensures Onward(job, l, Pruned(job, l, i))
  {
    var l' := Pruned(job, l, i);
    assert |l'.preps| == |l.preps|;
    assert l'.pc == AtPruneList(i + 1) || l'.pc == AtEnd(Deployed) || l'.pc == AtCleanTemps(0, Deployed);
    assert l'.pc == AtPruneList(i + 1) ==> i + 1 < job.N();
  }

  lemma OnwardPruneList(job: Job, l: Local, i: nat, r: Reply)
    requires Sane(job, l) && l.pc == AtPruneList(i)
    ensures Onward(job, l, OnPruneList(job, l, i, r))
  {
    OnwardPruned(job, l.(swept := l.swept && r.Names?), i);
  }

  lemma OnwardPruneRemove(job: Job, l: Local, i: nat, todo: set<Path>, p: Path, r: Reply)
    requires Sane(job, l) && l.pc == AtPruneRemove(i, todo) && p in todo
    ensures Onward(job, l, OnPruneRemove(job, l, i, todo, p, r))
  {
    OnwardPruned(job, l.(swept := l.swept && !(p.Backup? && r.Err?)), i);
  }

  lemma OnwardCleanTemps(job: Job, l: Local, i: nat, next: Outcome, r: Reply)
    requires Sane(job, l) && l.pc == AtCleanTemps(i, next)
    ensures Onward(job, l, OnCleanTemps(job, l, i, next, r))
  {
    var l' := OnCleanTemps(job, l, i, next, r);
    assert |l'.preps| == |l.preps|;
    assert l'.pc == AtEnd(next) || (l'.pc == AtCleanTemps(i + 1, next) && i + 1 < job.N());
  }

  predicate BackingUp(pc: PC) {
    pc.AtBackupRead? || pc.AtBackupStat? || pc.AtBackupWrite? || pc.AtBackupChown? || pc.AtBackupCleanup?
  }

  lemma BackupOnward(env: Env, job: Job, l: Local, op: Op, r: Reply)
    requires job.WellFormed() && Sane(job, l) && Allows(job, l, op) && BackingUp(l.pc)
    ensures Onward(job, l, Recv(env, job, l, op, r))
  {
    match l.pc
    case AtBackupRead(i) => OnwardBackupRead(job, l, i, r);
    case AtBackupStat(i) => OnwardBackupStat(job, l, i, r);
    case AtBackupWrite(i) => OnwardBackupWrite(job, l, i, op.path.stamp, r);
    case AtBackupChown(i) => OnwardAfterBackup(job, l, i);
    case AtBackupCleanup(i) => OnwardBackupCleanup(job, l, i);
  }

  predicate Before(pc: PC) {
    pc.AtCtx? || pc.AtIdem? || pc.AtStat? || BackingUp(pc)
  }

  lemma EarlyOnward(env: Env, job: Job, l: Local, op: Op, r: Reply)
    requires job.WellFormed() && Sane(job, l) && Allows(job, l, op) && Before(l.pc)
    ensures Onward(job, l, Recv(env, job, l, op, r))
  {
    match l.pc
    case AtCtx => OnwardCtx(job, l, r);
    case AtIdem(i) => OnwardIdem(env, job, l, i, r);
    case AtStat(i) => OnwardStat(env, job, l, i, r);
    case _ => BackupOnward(env, job, l, op, r);
  }

  predicate Midway(pc: PC) { pc.AtTemp? || pc.AtPre? || pc.AtRename? || pc.AtPost? || pc.AtPost2? }

  lemma MidwayOnward(env: Env, job: Job, l: Local, op: Op, r: Reply)
    requires job.WellFormed() && Sane(job, l) && Allows(job, l, op) && Midway(l.pc)
    ensures Onward(job, l, Recv(env, job, l, op, r))
  {
    match l.pc
    case AtTemp(i, stage) => OnwardTemp(env, job, l, i, stage, StagePath(job, l, i, stage, op), r);
    case AtPre => OnwardPre(job, l, r);
    case AtRename(i) => OnwardRename(job, l, i, r);
    case AtPost => OnwardPost(job, l, r);
    case AtPost2 => OnwardPost2(job, l, r);
  }

  lemma RestoreOnward(env: Env, job: Job, l: Local, op: Op, r: Reply)
    requires job.WellFormed() && Sane(job, l) && Allows(job, l, op) && Restoring(l.pc)
    ensures Onward(job, l, Recv(env, job, l, op, r))
  {
    match l.pc
    case AtRestore(i) => OnwardRestore(job, l, i, r);
    case AtRestoreTemp(i, stage) => OnwardRestoreTemp(env, job, l, i, stage, StagePath(job, l, i, stage, op), r);
    case AtRestoreRename(i) => OnwardRestoreRename(job, l, i, r);
  }

  lemma LateOnward(env: Env, job: Job, l: Local, op: Op, r: Reply)
    requires job.WellFormed() && Sane(job, l) && Allows(job, l, op)
    requires l.pc.AtPruneList? || l.pc.AtPruneRemove? || l.pc.AtCleanTemps?
    ensures Onward(job, l, Recv(env, job, l, op, r))
  {
    match l.pc
    case AtPruneList(i) => OnwardPruneList(job, l, i, r);
    case AtPruneRemove(i, todo) => OnwardPruneRemove(job, l, i, todo, op.path, r);
    case AtCleanTemps(i, next) => OnwardCleanTemps(job, l, i, next, r);
  }

  // However a system call is answered, the call gets further and stays in bounds.
  lemma StepOnward(env: Env, job: Job, l: Local, op: Op, r: Reply)
    requires job.WellFormed() && Sane(job, l) && Allows(job, l, op)
    ensures Onward(job, l, Recv(env, job, l, op, r))
  {
    if Before(l.pc) {
      EarlyOnward(env, job, l, op, r);
    } else if Midway(l.pc) {
      MidwayOnward(env, job, l, op, r);
    } else if Restoring(l.pc) {
      RestoreOnward(env, job, l, op, r);
    } else {
      LateOnward(env, job, l, op, r);
    }
  }

  predicate Looking(pc: PC) { pc.AtCtx? || pc.AtIdem? || pc.AtStat? }

  // Once a call has stopped looking at its destinations it does not start again.
  lemma NeverBack(job: Job, l: Local, l': Local)
    requires Onward(job, l, l') && !Looking(l.pc)
    ensures !Looking(l'.pc)
  {
  }
}
