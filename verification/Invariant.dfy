/**
 What holds in every reachable state of a call, relative to the files `fs0` it
 started from, whatever the file system and the hooks answered.
 */
module Invariant {
  import opened Common
  import opened FileSystem
  import opened Ownership
  import opened Retention
  import opened Protocol
  import opened Names

  // ----- the destinations -----

  predicate IsNew(env: Env, job: Job, l: Local, fs: Files, j: nat)
    requires j < job.N() && j < |l.preps|
  {
    var p := Live(job.files[j].abs);
    p in fs && fs[p].bytes == job.files[j].bytes && Owned(env, l.preps[j].owner, fs[p])
  }

  predicate IsBack(env: Env, job: Job, fs0: Files, l: Local, fs: Files, j: nat)
    requires j < job.N() && j < |l.preps|
  {
    var p := Live(job.files[j].abs);
    if l.preps[j].backup.None? then p !in fs
    else p in fs && p in fs0 && fs[p].bytes == fs0[p].bytes && Owned(env, l.preps[j].owner, fs[p])
  }

  predicate LiveAt(env: Env, job: Job, fs0: Files, l: Local, fs: Files, j: nat)
    requires j < job.N() && (j < l.done ==> j < |l.preps|)
  {
    if j >= l.done then SameAt(fs0, fs, Live(job.files[j].abs))
    else if j >= l.undone then IsNew(env, job, l, fs, j)
    else if l.firstErr then IsBack(env, job, fs0, l, fs, j) || IsNew(env, job, l, fs, j)
    else IsBack(env, job, fs0, l, fs, j)
  }

  ghost predicate LiveInv(env: Env, job: Job, fs0: Files, l: Local, fs: Files) {
    && l.undone <= l.done <= job.N()
    && (l.done > 0 ==> |l.preps| == job.N())
    && forall j :: 0 <= j < job.N() ==> LiveAt(env, job, fs0, l, fs, j)
  }

  // ----- the preps -----

  function Observed(fs0: Files, p: Path, hadOrig: bool): Option<Info>
    requires hadOrig ==> p in fs0
  {
    if hadOrig then Some(InfoOf(fs0[p])) else None
  }

  predicate PrepAt(env: Env, job: Job, fs0: Files, l: Local, j: nat)
    requires j < job.N() && j < |l.preps|
  {
    var p := Live(job.files[j].abs);
    && (l.preps[j].hadOrig ==> p in fs0)
    && ResolveOwnership(env, job.files[j], job.defaults, Observed(fs0, p, l.preps[j].hadOrig)) == Some(l.preps[j].owner)
    && (l.preps[j].backup.Some? ==> l.preps[j].hadOrig && l.preps[j].backup.value <= MAX_NANOS)
    && (j < BackedUp(job, l) ==> (l.preps[j].backup.Some? <==> l.preps[j].hadOrig && job.retention != -1))
  }

  // How many leading preps have been through the backup step.
  function BackedUp(job: Job, l: Local): nat {
    match l.pc
    case AtBackupRead(i) => i
    case AtBackupStat(i) => i
    case AtBackupWrite(i) => i
    case AtBackupChown(i) => i + 1
    case AtTemp(_, _) => if job.solo then 0 else job.N()
    case AtCtx => 0
    case AtIdem(_) => 0
    case AtStat(_) => 0
    case AtBackupCleanup(_) => 0
    case AtCleanTemps(_, o) => if o.Aborted? then 0 else job.N()
    case AtEnd(o) => if o.Aborted? then 0 else job.N()
    case _ => job.N()
  }

  ghost predicate PrepInv(env: Env, job: Job, fs0: Files, l: Local) {
    && |l.preps| <= job.N()
    && forall j :: 0 <= j < |l.preps| ==> PrepAt(env, job, fs0, l, j)
  }

  // ----- backups -----

  // The backup this call took of destination j, if any.
  function Own(l: Local, j: nat): Option<nat> { if j < |l.preps| then l.preps[j].backup else None }

  function AllBackups(job: Job, fs0: Files, l: Local, j: nat): set<nat>
    requires j < job.N()
  {
    BackupStamps(fs0, job.files[j].abs) + if Own(l, j).Some? then {Own(l, j).value} else {}
  }

  // The call's own backup holds the overwritten bytes; every other is as it was.
  predicate KeptFile(job: Job, fs0: Files, l: Local, j: nat, b: nat, f: File)
    requires j < job.N()
  {
    var p := Live(job.files[j].abs);
    if Own(l, j) == Some(b) then p in fs0 && f.bytes == fs0[p].bytes
    else Backup(p.of, b) in fs0 && f == fs0[Backup(p.of, b)]
  }

  ghost predicate Holding(job: Job, fs0: Files, l: Local, fs: Files, j: nat, must: set<nat>, exact: bool)
    requires j < job.N()
  {
    var d := job.files[j].abs;
    && (forall b: nat :: Backup(d, b) in fs ==> KeptFile(job, fs0, l, j, b, fs[Backup(d, b)]))
    && (forall b: nat :: b in must ==> Backup(d, b) in fs)
    && (exact ==> forall b: nat :: Backup(d, b) in fs ==> b in must)
  }

  // Files already passed by the janitor.
  function SweptTo(job: Job, pc: PC): nat {
    match pc
    case AtPruneList(i) => i
    case AtPruneRemove(i, _) => i
    case AtCleanTemps(_, o) => if o.Deployed? then job.N() else 0
    case AtEnd(o) => if o.Deployed? then job.N() else 0
    case _ => 0
  }

  // The janitor has been or is at destination j.
  predicate Pruning(job: Job, pc: PC, j: nat) {
    job.Keep() > 0 && (j < SweptTo(job, pc) || (pc.AtPruneRemove? && j == pc.i))
  }

  // What the janitor does is known unless foreign files have the prefix.
  ghost predicate Sure(job: Job, fs0: Files, pc: PC, j: nat)
    requires j < job.N()
  {
    Pruning(job, pc, j) ==> Lone(fs0, job.files[j].abs)
  }

  function StampsIn(todo: set<Path>): set<nat> { set p | p in todo && p.Backup? :: p.stamp }

  ghost function Must(job: Job, fs0: Files, l: Local, j: nat): set<nat>
    requires j < job.N()
  {
    var all := AllBackups(job, fs0, l, j);
    if !Sure(job, fs0, l.pc, j) then {}
    else if j < SweptTo(job, l.pc) then Newest(job.Keep(), all)
    else if l.pc.AtPruneRemove? && j == l.pc.i then Newest(job.Keep(), all) + StampsIn(l.pc.todo)
    else all
  }

  ghost predicate Exact(job: Job, fs0: Files, l: Local, j: nat)
    requires j < job.N()
  {
    l.swept && Sure(job, fs0, l.pc, j)
  }

  // A failed backup may leave a torn file behind, and its siblings are removed.
  predicate Tidy(pc: PC) {
    !pc.AtBackupCleanup? && !(pc.AtCleanTemps? && pc.next.Aborted?) && !(pc.AtEnd? && pc.outcome.Aborted?)
  }

  ghost predicate HoldInv(job: Job, fs0: Files, l: Local, fs: Files) {
    Tidy(l.pc) ==>
      forall j :: 0 <= j < job.N() ==> Holding(job, fs0, l, fs, j, Must(job, fs0, l, j), Exact(job, fs0, l, j))
  }

  // ----- temps -----

  predicate IsReady(env: Env, job: Job, l: Local, fs: Files, j: nat)
    requires j < job.N() && j < |l.preps|
  {
    && l.preps[j].temp.Some?
    && var p := Temp(job.files[j].abs, l.preps[j].temp.value);
    && p in fs && fs[p].bytes == job.files[j].bytes && Owned(env, l.preps[j].owner, fs[p])
  }

  function ReadyTo(job: Job, pc: PC): nat {
    match pc
    case AtTemp(i, _) => i
    case AtBackupRead(_) => if job.solo then job.N() else 0
    case AtBackupStat(_) => if job.solo then job.N() else 0
    case AtBackupWrite(_) => if job.solo then job.N() else 0
    case AtBackupChown(_) => if job.solo then job.N() else 0
    case AtPre => job.N()
    case AtRename(_) => job.N()
    case _ => 0
  }

  ghost predicate ReadyInv(env: Env, job: Job, l: Local, fs: Files) {
    && ReadyTo(job, l.pc) <= job.N()
    && (ReadyTo(job, l.pc) > 0 ==> |l.preps| == job.N())
    && forall j :: l.done <= j < ReadyTo(job, l.pc) ==> IsReady(env, job, l, fs, j)
  }

  predicate StageOk(env: Env, fs: Files, p: Path, data: Bytes, o: Owner, stage: Stage) {
    match stage
    case SOpen => true
    case SDrop => true
    case SWrite => p in fs && fs[p].uid == env.uid && fs[p].gid == env.gid
    case SChown =>
      && p in fs && fs[p].bytes == data && fs[p].uid == env.uid && fs[p].gid == env.gid
      && (o.modeSet ==> fs[p].mode == o.mode)
    case _ => p in fs && fs[p].bytes == data && fs[p].uid == env.uid && fs[p].gid == env.gid
  }

  // The old bytes of destination i, as read back from it or from its backup.
  predicate HasOld(job: Job, fs0: Files, l: Local, i: nat)
    requires i < job.N()
  {
    Live(job.files[i].abs) in fs0 && l.data == fs0[Live(job.files[i].abs)].bytes
  }

  predicate StageInv(env: Env, job: Job, fs0: Files, l: Local, fs: Files)
    requires InBounds(job, l)
  {
    match l.pc
    case AtBackupStat(i) => HasOld(job, fs0, l, i)
    case AtBackupWrite(i) => HasOld(job, fs0, l, i)
    case AtTemp(i, stage) =>
      && StageOk(env, fs, Temp(job.files[i].abs, l.stamp), job.files[i].bytes, l.preps[i].owner, stage)
      && (stage.SChmod? || stage.SChown? ==> l.preps[i].temp == Some(l.stamp))
    case AtRestoreTemp(i, stage) =>
      && HasOld(job, fs0, l, i)
      && StageOk(env, fs, Temp(job.files[i].abs, l.stamp), l.data, l.preps[i].owner, stage)
    case AtRestoreRename(i) =>
      && HasOld(job, fs0, l, i)
      && var p := Temp(job.files[i].abs, l.stamp);
      && p in fs && fs[p].bytes == l.data && Owned(env, l.preps[i].owner, fs[p])
    case _ => true
  }

  predicate InFlight(pc: PC, j: nat) {
    match pc
    case AtTemp(i, stage) => i == j && !stage.SOpen?
    case AtRestoreTemp(i, stage) => i == j && !stage.SOpen?
    case AtRestoreRename(i) => i == j
    case _ => false
  }

  function CleanedTo(job: Job, pc: PC): nat {
    match pc
    case AtCleanTemps(i, _) => i
    case AtEnd(_) => job.N()
    case _ => 0
  }

  predicate MayRemain(job: Job, l: Local, j: nat, s: nat) {
    || (j < |l.preps| && l.preps[j].temp == Some(s) && j >= l.done && j >= CleanedTo(job, l.pc))
    || (InFlight(l.pc, j) && s == l.stamp)
  }

  predicate Accounted(job: Job, fs0: Files, l: Local, fs: Files, j: nat, s: nat)
    requires j < job.N()
  {
    var p := Temp(job.files[j].abs, s);
    p in fs ==> p in fs0 || p in l.stuck || MayRemain(job, l, j, s)
  }

  ghost predicate LeftInv(job: Job, fs0: Files, l: Local, fs: Files) {
    forall j, s: nat :: 0 <= j < job.N() ==> Accounted(job, fs0, l, fs, j, s)
  }

  // ----- everything else -----

  // The janitor has started.
  predicate Janitored(pc: PC) {
    match pc
    case AtPruneList(_) => true
    case AtPruneRemove(_, _) => true
    case AtCleanTemps(_, o) => o.Deployed?
    case AtEnd(o) => o.Deployed?
    case _ => false
  }

  // Pruning some destination takes p for a backup.
  ghost predicate Exposed(job: Job, p: Path) { exists j :: 0 <= j < job.N() && Listed(job.files[j].abs, p) }

  // A file of no destination is as it was, or gone if it is exposed.
  ghost predicate FrameAt(job: Job, fs0: Files, l: Local, fs: Files, p: Path) {
    SameAt(fs0, fs, p) || (p !in fs && Janitored(l.pc) && job.Keep() > 0 && Exposed(job, p))
  }

  ghost predicate FrameInv(job: Job, fs0: Files, l: Local, fs: Files) {
    forall p: Path :: !job.IsDest(p.of) ==> FrameAt(job, fs0, l, fs, p)
  }

  // ----- control -----

  predicate Early(l: Local) {
    l.done == 0 && l.undone == 0 && !l.reloadFailed && !l.firstErr && l.post == 0
  }

  predicate NoTemps(l: Local, k: nat) {
    forall j :: k <= j < |l.preps| ==> l.preps[j].temp.None?
  }

  predicate NoBackups(l: Local, k: nat) {
    forall j :: k <= j < |l.preps| ==> l.preps[j].backup.None?
  }

  function Count(b: bool): nat { if b then 1 else 0 }

  predicate Full(job: Job, l: Local) {
    && |l.preps| == job.N() && l.done == job.N() && l.undone == 0
    && !l.reloadFailed && !l.firstErr && l.post == Count(job.hasPost) && l.pre == Count(job.hasPre)
  }

  predicate OutcomeInv(job: Job, l: Local, o: Outcome) {
    match o
    case Skipped => Early(l) && l.pre == 0
    case Aborted => Early(l) && l.pre == 0
    case Rejected => Early(l) && l.pre == 1 && job.hasPre && |l.preps| == job.N()
    case Deployed => Full(job, l)
    case RenameFailed =>
      && !l.reloadFailed && !l.firstErr && l.undone == l.done < job.N() == |l.preps| && !job.solo
      && l.post == 0 && l.pre == Count(job.hasPre)
    case RolledBack =>
      && l.reloadFailed && !l.firstErr && l.undone == l.done == job.N() && !job.solo
      && l.post == 2 && l.pre == Count(job.hasPre)
    case Stranded =>
      && 0 < l.undone == l.done && !job.solo
      && (l.reloadFailed <==> l.done == job.N()) && (!l.firstErr ==> l.reloadFailed)
      && l.post == Count(l.reloadFailed) + Count(!l.firstErr) && l.pre == Count(job.hasPre)
  }

  predicate Matches(env: Env, job: Job, fs0: Files, j: nat)
    requires j < job.N()
  {
    var p := Live(job.files[j].abs);
    p in fs0 && Sha256Eq(env, fs0[p].bytes, job.files[j].bytes)
  }

  predicate RestoreInv(job: Job, l: Local, i: nat) {
    && !job.solo && l.undone == i < l.done && l.pre == Count(job.hasPre)
    && l.post == Count(l.reloadFailed) && (l.reloadFailed <==> l.done == job.N())
    && (l.reloadFailed ==> job.hasPost)
  }

  ghost predicate PCInv(env: Env, job: Job, fs0: Files, l: Local) {
    && InBounds(job, l)
    && match l.pc
       case AtCtx => Early(l) && l.pre == 0 && l.preps == []
       case AtIdem(i) =>
         && Early(l) && l.pre == 0 && l.preps == [] && !job.skipIdempotent
         && (forall j :: 0 <= j < i ==> Matches(env, job, fs0, j))
         && (job.solo ==>
               && l.info.Some? && Live(job.files[0].abs) in fs0
               && l.info.value == InfoOf(fs0[Live(job.files[0].abs)]))
       case AtStat(i) => Early(l) && l.pre == 0 && |l.preps| == i && NoTemps(l, 0) && NoBackups(l, 0)
       case AtBackupRead(i) => BackupPhase(job, l, i) && NoBackups(l, i)
       case AtBackupStat(i) => BackupPhase(job, l, i) && NoBackups(l, i) && l.preps[i].hadOrig
       case AtBackupWrite(i) => BackupPhase(job, l, i) && NoBackups(l, i) && l.preps[i].hadOrig
       case AtBackupChown(i) =>
         BackupPhase(job, l, i) && NoBackups(l, i + 1) && l.preps[i].hadOrig && l.preps[i].backup == Some(l.stamp)
       case AtBackupCleanup(i) => Early(l) && l.pre == 0 && NoTemps(l, 0) && !job.solo
       case AtTemp(i, stage) =>
         && Early(l) && l.pre == 0 && NoTemps(l, if stage.SChmod? || stage.SChown? then i + 1 else i)
         && (job.solo ==> NoBackups(l, 0))
       case AtPre => Early(l) && l.pre == 0 && job.hasPre
       case AtRename(i) =>
         l.done == i && l.undone == 0 && !l.reloadFailed && !l.firstErr && l.post == 0 && l.pre == Count(job.hasPre)
       case AtPost =>
         && |l.preps| == job.N() && l.done == job.N() && l.undone == 0 && !l.reloadFailed && !l.firstErr
         && l.post == 0 && l.pre == Count(job.hasPre) && job.hasPost
       case AtRestore(i) => RestoreInv(job, l, i)
       case AtRestoreTemp(i, _) => RestoreInv(job, l, i) && l.preps[i].backup.Some?
       case AtRestoreRename(i) => RestoreInv(job, l, i) && l.preps[i].backup.Some?
       case AtPost2 =>
         && !job.solo && l.reloadFailed && !l.firstErr && l.undone == l.done == job.N()
         && l.post == 1 && l.pre == Count(job.hasPre)
       case AtPruneList(_) => Full(job, l) && job.Keep() > 0
       case AtPruneRemove(i, todo) =>
         && Full(job, l) && job.Keep() > 0
         && TodoInv(job, fs0, l, i, todo)
       case AtCleanTemps(_, o) => !o.Skipped? && OutcomeInv(job, l, o) && (o.Deployed? ==> job.solo)
       case AtEnd(o) =>
         && OutcomeInv(job, l, o)
         && (o.Skipped? ==>
               && l.preps == [] && !job.skipIdempotent
               && forall j :: 0 <= j < job.N() ==> Matches(env, job, fs0, j))
  }

  ghost predicate TodoInv(job: Job, fs0: Files, l: Local, i: nat, todo: set<Path>)
    requires i < job.N()
  {
    var d, all := job.files[i].abs, AllBackups(job, fs0, l, i);
    && (forall p :: p in todo ==> Listed(d, p))
    && (job.Spaced() && Lone(fs0, d) ==> todo <= BackupsOf(d, all - Newest(job.Keep(), all)))
  }

  predicate BackupPhase(job: Job, l: Local, i: nat)
    requires i < job.N() && |l.preps| == job.N()
  {
    && Early(l) && l.pre == 0 && job.retention != -1
    && (if job.solo then i == 0 && l.preps[0].hadOrig else NoTemps(l, 0))
  }

  // Everything but control: what the generic lemmas of module Steps carry over.
  ghost predicate Rest(env: Env, job: Job, fs0: Files, l: Local, fs: Files) {
    && PrepInv(env, job, fs0, l)
    && LiveInv(env, job, fs0, l, fs)
    && HoldInv(job, fs0, l, fs)
    && ReadyInv(env, job, l, fs)
    && LeftInv(job, fs0, l, fs)
    && FrameInv(job, fs0, l, fs)
  }

  // The janitor has got beyond its first listing.
  predicate Sweeping(job: Job, l: Local) { job.Keep() > 0 && Janitored(l.pc) && !(l.pc.AtPruneList? && l.pc.i == 0) }

  // With destinations near each other it may have removed temps and backups of
  // theirs, and destinations themselves if one's name has another's prefix.
  predicate Astray(job: Job, l: Local) { !job.Spaced() && Sweeping(job, l) }

  predicate Amiss(job: Job, l: Local) { !job.Unlisted() && Sweeping(job, l) }

  ghost predicate Inv(env: Env, job: Job, fs0: Files, l: Local, fs: Files) {
    && PCInv(env, job, fs0, l)
    && StageInv(env, job, fs0, l, fs)
    && Basis(env, job, fs0, l, fs)
    && (Astray(job, l) || Rest(env, job, fs0, l, fs))
  }

  // What no pruning can spoil.
  ghost predicate Basis(env: Env, job: Job, fs0: Files, l: Local, fs: Files) {
    && PrepInv(env, job, fs0, l)
    && (Amiss(job, l) || LiveInv(env, job, fs0, l, fs))
    && LeftInv(job, fs0, l, fs)
    && FrameInv(job, fs0, l, fs)
  }

  lemma Initially(env: Env, job: Job, fs0: Files)
    requires job.WellFormed()
    ensures Inv(env, job, fs0, START, fs0)
  {
  }
}
