/**
 Apply and AtomicWriteFile as one protocol: where a running call stands
 (`Local`), which system call it issues there (`Allows`) and where the reply
 takes it (`Recv`). AtomicWriteFile is the `solo` job, which stats before the
 idempotency check, writes its temp before the backup, does not roll back, and
 always removes its temp on the way out.
 */
module Protocol {
  import opened Common
  import opened FileSystem
  import opened Ownership
  import opened Retention

  datatype Job = Job(
    solo: bool,
    files: seq<FileSpec>,
    defaults: Defaults,
    retention: int,
    skipIdempotent: bool,
    hasPre: bool,
    hasPost: bool
  ) {
    function N(): nat { |files| }

    function Keep(): int { if retention == 0 then DEFAULT_RETENTION else retention }

    predicate WellFormed() {
      && N() > 0
      && (forall i, j :: 0 <= i < j < N() ==> files[i].abs != files[j].abs)
      && (solo ==> N() == 1 && !hasPre && !hasPost)
    }

    // No destination's name has another's backup prefix.
    predicate Unlisted() {
      forall i, j :: 0 <= i < N() && 0 <= j < N() ==> !HasPrefix(files[j].abs, files[i].abs + BACKUP_SUFFIX)
    }

    // No destination's name is near another's.
    predicate Spaced() { forall i, j :: 0 <= i < N() && 0 <= j < N() ==> !Near(files[i].abs, files[j].abs) }

    ghost predicate IsDest(s: string) { exists j :: 0 <= j < N() && files[j].abs == s }
  }

  function Dests(job: Job): set<string> { set f | f in job.files :: f.abs }

  // None of these names is one the job gives to a temp or a backup.
  ghost predicate Proper(ds: set<string>, job: Job) {
    forall j, n: nat :: 0 <= j < job.N() && n <= MAX_NANOS ==>
      && Render(Temp(job.files[j].abs, n)) !in ds
      && (job.retention != -1 ==> Render(Backup(job.files[j].abs, n)) !in ds)
  }

  const DEFAULT_RETENTION: nat := 3

  // The source's filePrep.
  datatype Prep = Prep(owner: Owner, hadOrig: bool, backup: Option<nat>, temp: Option<nat>)

  datatype Failure = NoError | PlanInvalid | PlainError | ValidateFailed | ReloadFailed | RollbackFailed

  // How a call ends, with the error it returns and the flags of its Result.
  datatype Outcome = Skipped | Deployed | Aborted | Rejected | RenameFailed | RolledBack | Stranded {
    function Err(): Failure {
      match this
      case Skipped => NoError
      case Deployed => NoError
      case Aborted => PlainError
      case Rejected => ValidateFailed
      case RenameFailed => PlainError
      case RolledBack => ReloadFailed
      case Stranded => RollbackFailed
    }
  }

  // Steps of writeTempFile followed by applyOwnership; SDrop removes a failed temp.
  datatype Stage = SOpen | SWrite | SSync | SClose | SChmod | SChown | SDrop

  datatype PC =
    | AtCtx
    | AtIdem(i: nat)
    | AtStat(i: nat)
    | AtBackupRead(i: nat)
    | AtBackupStat(i: nat)
    | AtBackupWrite(i: nat)
    | AtBackupChown(i: nat)
    | AtBackupCleanup(i: nat)
    | AtTemp(i: nat, stage: Stage)
    | AtPre
    | AtRename(i: nat)
    | AtPost
    | AtRestore(i: nat)
    | AtRestoreTemp(i: nat, stage: Stage)
    | AtRestoreRename(i: nat)
    | AtPost2
    | AtPruneList(i: nat)
    | AtPruneRemove(i: nat, todo: set<Path>)
    | AtCleanTemps(i: nat, next: Outcome)
    | AtEnd(outcome: Outcome)

  // `done` counts finished renames (the source's doneRenames is a prefix of
  // preps) and `undone` restored ones. The last four fields are history
  // variables: hook calls, temps whose removal failed, janitor errors so far.
  datatype Local = Local(
    pc: PC,
    preps: seq<Prep>,
    data: Bytes,
    info: Option<Info>,
    stamp: nat,
    done: nat,
    undone: nat,
    reloadFailed: bool,
    firstErr: bool,
    pre: nat,
    post: nat,
    stuck: set<Path>,
    swept: bool
  )

  const START := Local(AtCtx, [], [], None, 0, 0, 0, false, false, 0, 0, {}, true)

  function Sha256Eq(env: Env, a: Bytes, b: Bytes): bool {
    |a| == |b| && env.hash(a) == env.hash(b)
  }

  // Bounds that make the indices below meaningful.
  predicate InBounds(job: Job, l: Local) {
    match l.pc
    case AtIdem(i) => i < job.N()
    case AtStat(i) => i < job.N()
    case AtBackupRead(i) => i < job.N() && |l.preps| == job.N()
    case AtBackupStat(i) => i < job.N() && |l.preps| == job.N()
    case AtBackupWrite(i) => i < job.N() && |l.preps| == job.N() && l.info.Some?
    case AtBackupChown(i) => i < job.N() && |l.preps| == job.N() && l.info.Some?
    case AtBackupCleanup(i) => i < job.N() && |l.preps| == job.N()
    case AtTemp(i, _) => i < job.N() && |l.preps| == job.N()
    case AtPre => |l.preps| == job.N() && forall j :: 0 <= j < job.N() ==> l.preps[j].temp.Some?
    case AtRename(i) => i < job.N() && |l.preps| == job.N() && l.preps[i].temp.Some?
    case AtRestore(i) => i < job.N() && |l.preps| == job.N()
    case AtRestoreTemp(i, _) => i < job.N() && |l.preps| == job.N()
    case AtRestoreRename(i) => i < job.N() && |l.preps| == job.N()
    case AtPruneList(i) => i < job.N() && |l.preps| == job.N()
    case AtPruneRemove(i, todo) => i < job.N() && |l.preps| == job.N() && todo != {}
    case AtCleanTemps(i, _) => i < job.N() && |l.preps| == job.N()
    case _ => true
  }

  predicate AllowsStage(stage: Stage, op: Op, dest: string, stamp: nat, data: Bytes, o: Owner) {
    match stage
    case SOpen => op.Open? && op.path.Temp? && op.path.of == dest && op.path.stamp <= MAX_NANOS
    case SWrite => op == Write(Temp(dest, stamp), data)
    case SSync => op == Sync(Temp(dest, stamp))
    case SClose => op == Close(Temp(dest, stamp))
    case SChmod => op == if o.modeSet then Chmod(Temp(dest, stamp), o.mode) else Continue
    case SChown => op == if o.Chowns() then Chown(Temp(dest, stamp), o.uid, o.gid) else Continue
    case SDrop => op == Remove(Temp(dest, stamp))
  }

  predicate Allows(job: Job, l: Local, op: Op)
    requires InBounds(job, l)
  {
    match l.pc
    case AtCtx => op == CtxErr
    case AtIdem(i) => op == Read(Live(job.files[i].abs))
    case AtStat(i) => op == Stat(Live(job.files[i].abs))
    case AtBackupRead(i) =>
      op == if l.preps[i].hadOrig then Read(Live(job.files[i].abs)) else Continue
    case AtBackupStat(i) => op == Stat(Live(job.files[i].abs))
    case AtBackupWrite(i) =>
      && op.WriteBackup? && op.path.Backup? && op.path.of == job.files[i].abs && op.path.stamp <= MAX_NANOS
      && op.bytes == l.data && op.perm == Perm(l.info.value.mode)
    case AtBackupChown(i) =>
      op == Chown(Backup(job.files[i].abs, l.stamp), l.info.value.uid, l.info.value.gid)
    case AtBackupCleanup(i) =>
      op == if l.preps[i].backup.Some? then Remove(Backup(job.files[i].abs, l.preps[i].backup.value)) else Continue
    case AtTemp(i, stage) =>
      AllowsStage(stage, op, job.files[i].abs, l.stamp, job.files[i].bytes, l.preps[i].owner)
    case AtPre =>
      && op.PreCommit? && op.temps.Keys == Dests(job)
      && (forall j :: 0 <= j < job.N() ==>
            job.files[j].abs in op.temps
            && op.temps[job.files[j].abs] == Temp(job.files[j].abs, l.preps[j].temp.value))
    case AtRename(i) =>
      op == Rename(Temp(job.files[i].abs, l.preps[i].temp.value), Live(job.files[i].abs))
    case AtPost => op == PostCommit
    case AtRestore(i) =>
      op == if l.preps[i].backup.Some? then Read(Backup(job.files[i].abs, l.preps[i].backup.value))
            else Remove(Live(job.files[i].abs))
    case AtRestoreTemp(i, stage) =>
      AllowsStage(stage, op, job.files[i].abs, l.stamp, l.data, l.preps[i].owner)
    case AtRestoreRename(i) =>
      op == Rename(Temp(job.files[i].abs, l.stamp), Live(job.files[i].abs))
    case AtPost2 => op == PostCommit
    case AtPruneList(i) => op == List(job.files[i].abs)
    case AtPruneRemove(_, todo) => op.Remove? && op.path in todo
    case AtCleanTemps(i, _) =>
      op == if l.preps[i].temp.Some? then Remove(Temp(job.files[i].abs, l.preps[i].temp.value)) else Continue
    case AtEnd(_) => false
  }

  // ----- where a reply leads -----

  function Goto(l: Local, pc: PC): Local { l.(pc := pc) }

  function End(l: Local, o: Outcome): Local { l.(pc := AtEnd(o)) }

  function CleanUp(l: Local, o: Outcome): Local { l.(pc := AtCleanTemps(0, o)) }

  function NoteRemove(l: Local, p: Path, r: Reply): Local {
    if r.Err? then l.(stuck := l.stuck + {p}) else l
  }

  function Resolved(env: Env, job: Job, l: Local, i: nat, info: Option<Info>): Local
    requires i < job.N()
  {
    match ResolveOwnership(env, job.files[i], job.defaults, info)
    case None => End(l, Aborted)
    case Some(o) =>
      var l' := l.(preps := l.preps + [Prep(o, info.Some?, None, None)]);
      Goto(l', if i + 1 < job.N() then AtStat(i + 1)
               else if !job.solo && job.retention != -1 then AtBackupRead(0)
               else AtTemp(0, SOpen))
  }

  function AfterBackup(job: Job, l: Local, i: nat): Local {
    Goto(l, if job.solo then AtRename(0)
            else if i + 1 < job.N() then AtBackupRead(i + 1) else AtTemp(0, SOpen))
  }

  function BackupFailed(job: Job, l: Local): Local {
    if job.solo then CleanUp(l, Aborted) else Goto(l, AtBackupCleanup(0))
  }

  function TempReady(job: Job, l: Local, i: nat): Local
    requires i < |l.preps|
  {
    Goto(l, if i + 1 < job.N() then AtTemp(i + 1, SOpen)
            else if job.solo && l.preps[i].hadOrig && job.retention != -1 then AtBackupRead(i)
            else if job.hasPre then AtPre
            else AtRename(0))
  }

  function Finish(job: Job, l: Local): Local {
    if job.solo then CleanUp(l, Deployed) else End(l, Deployed)
  }

  function Success(job: Job, l: Local): Local {
    if job.Keep() > 0 then Goto(l, AtPruneList(0)) else Finish(job, l)
  }

  function Pruned(job: Job, l: Local, i: nat): Local {
    if i + 1 < job.N() then Goto(l, AtPruneList(i + 1)) else Finish(job, l)
  }

  function Restored(job: Job, l: Local, i: nat, failed: bool): Local {
    var l' := l.(undone := i + 1, firstErr := l.firstErr || failed);
    if i + 1 < l.done then Goto(l', AtRestore(i + 1))
    else if !l.reloadFailed then CleanUp(l', if l'.firstErr then Stranded else RenameFailed)
    else if l'.firstErr then End(l', Stranded)
    else Goto(l', AtPost2)
  }

  // ----- one function for each place a call can stand -----

  function OnCtx(job: Job, l: Local, r: Reply): Local {
    if !r.Ok? then End(l, Aborted)
    else Goto(l, if job.solo || job.skipIdempotent then AtStat(0) else AtIdem(0))
  }

  function OnIdem(env: Env, job: Job, l: Local, i: nat, r: Reply): Local
    requires i < job.N()
  {
    if r.Data? && Sha256Eq(env, r.bytes, job.files[i].bytes) then
      if i + 1 == job.N() then End(l, Skipped) else Goto(l, AtIdem(i + 1))
    else if job.solo then Resolved(env, job, l, i, l.info)
    else Goto(l, AtStat(0))
  }

  function OnStat(env: Env, job: Job, l: Local, i: nat, r: Reply): Local
    requires i < job.N()
  {
    var info := if r.Stats? then Some(r.info) else None;
    if job.solo && info.Some? && !job.skipIdempotent then l.(info := info, pc := AtIdem(i))
    else Resolved(env, job, l.(info := info), i, info)
  }

  function OnBackupRead(job: Job, l: Local, i: nat, r: Reply): Local
    requires i < |l.preps|
  {
    if !l.preps[i].hadOrig then AfterBackup(job, l, i)
    else if r.Data? then l.(data := r.bytes, pc := AtBackupStat(i))
    else BackupFailed(job, l)
  }

  function OnBackupStat(job: Job, l: Local, i: nat, r: Reply): Local {
    if r.Stats? then l.(info := Some(r.info), pc := AtBackupWrite(i)) else BackupFailed(job, l)
  }

  function OnBackupWrite(job: Job, l: Local, i: nat, stamp: nat, r: Reply): Local
    requires i < |l.preps|
  {
    if r.Made? then
      l.(stamp := stamp, pc := AtBackupChown(i), preps := l.preps[i := l.preps[i].(backup := Some(stamp))])
    else BackupFailed(job, l)
  }

  function OnBackupCleanup(job: Job, l: Local, i: nat): Local
    requires i < |l.preps|
  {
    var l' := l.(preps := l.preps[i := l.preps[i].(backup := None)]);
    if i + 1 < job.N() then Goto(l', AtBackupCleanup(i + 1)) else End(l', Aborted)
  }

  function OnTemp(env: Env, job: Job, l: Local, i: nat, stage: Stage, p: Path, r: Reply): Local
    requires i < |l.preps| && p.Temp?
  {
    match stage
    case SOpen => if r.Made? then l.(stamp := p.stamp, pc := AtTemp(i, SWrite)) else CleanUp(l, Aborted)
    case SWrite => Goto(l, AtTemp(i, if r.Ok? then SSync else SDrop))
    case SSync => Goto(l, AtTemp(i, if r.Ok? then SClose else SDrop))
    case SClose =>
      if r.Ok? then l.(preps := l.preps[i := l.preps[i].(temp := Some(l.stamp))], pc := AtTemp(i, SChmod))
      else Goto(l, AtTemp(i, SDrop))
    case SChmod => if r.Ok? then Goto(l, AtTemp(i, SChown)) else CleanUp(l, Aborted)
    case SChown => if r.Ok? || !env.root then TempReady(job, l, i) else CleanUp(l, Aborted)
    case SDrop => CleanUp(NoteRemove(l, p, r), Aborted)
  }

  function OnPre(l: Local, r: Reply): Local {
    var l' := l.(pre := l.pre + 1);
    if r.Ok? then Goto(l', AtRename(0)) else CleanUp(l', Rejected)
  }

  function OnRename(job: Job, l: Local, i: nat, r: Reply): Local {
    if r.Ok? then
      var l' := l.(done := i + 1);
      if i + 1 < job.N() then Goto(l', AtRename(i + 1))
      else if job.hasPost then Goto(l', AtPost)
      else Success(job, l')
    else if job.solo then CleanUp(l, Aborted)
    else if i == 0 then CleanUp(l, RenameFailed)
    else Goto(l, AtRestore(0))
  }

  function OnPost(job: Job, l: Local, r: Reply): Local {
    var l' := l.(post := l.post + 1);
    if r.Ok? then Success(job, l') else l'.(reloadFailed := true, pc := AtRestore(0))
  }

  function OnRestore(job: Job, l: Local, i: nat, r: Reply): Local
    requires i < |l.preps|
  {
    if l.preps[i].backup.None? then Restored(job, l, i, r.Err?)
    else if r.Data? then l.(data := r.bytes, pc := AtRestoreTemp(i, SOpen))
    else Restored(job, l, i, true)
  }

  function OnRestoreTemp(env: Env, job: Job, l: Local, i: nat, stage: Stage, p: Path, r: Reply): Local
    requires p.Temp?
  {
    match stage
    case SOpen => if r.Made? then l.(stamp := p.stamp, pc := AtRestoreTemp(i, SWrite)) else Restored(job, l, i, true)
    case SWrite => Goto(l, AtRestoreTemp(i, if r.Ok? then SSync else SDrop))
    case SSync => Goto(l, AtRestoreTemp(i, if r.Ok? then SClose else SDrop))
    case SClose => Goto(l, AtRestoreTemp(i, if r.Ok? then SChmod else SDrop))
    case SChmod => Goto(l, AtRestoreTemp(i, if r.Ok? then SChown else SDrop))
    case SChown => Goto(l, if r.Ok? || !env.root then AtRestoreRename(i) else AtRestoreTemp(i, SDrop))
    case SDrop => Restored(job, NoteRemove(l, p, r), i, true)
  }

  function OnRestoreRename(job: Job, l: Local, i: nat, r: Reply): Local {
    if r.Ok? then Restored(job, l, i, false) else Goto(l, AtRestoreTemp(i, SDrop))
  }

  function OnPost2(l: Local, r: Reply): Local {
    End(l.(post := l.post + 1), if r.Ok? then RolledBack else Stranded)
  }

  function OnPruneList(job: Job, l: Local, i: nat, r: Reply): Local {
    if r.Names? && Doomed(job.Keep(), r.found) != {} then Goto(l, AtPruneRemove(i, Doomed(job.Keep(), r.found)))
    else Pruned(job, l.(swept := l.swept && r.Names?), i)
  }

  function OnPruneRemove(job: Job, l: Local, i: nat, todo: set<Path>, p: Path, r: Reply): Local {
    var l' := l.(swept := l.swept && !(p.Backup? && r.Err?));
    if todo - {p} == {} then Pruned(job, l', i) else Goto(l', AtPruneRemove(i, todo - {p}))
  }

  function OnCleanTemps(job: Job, l: Local, i: nat, next: Outcome, r: Reply): Local
    requires i < |l.preps| && i < job.N()
  {
    var l' := if l.preps[i].temp.Some? then NoteRemove(l, Temp(job.files[i].abs, l.preps[i].temp.value), r) else l;
    if i + 1 < job.N() then Goto(l', AtCleanTemps(i + 1, next)) else End(l', next)
  }

  // The temp a stage works on: SOpen picks the stamp, the others use it.
  function StagePath(job: Job, l: Local, i: nat, stage: Stage, op: Op): Path
    requires i < job.N()
  {
    if stage.SOpen? && op.Open? && op.path.Temp? then op.path else Temp(job.files[i].abs, l.stamp)
  }

  function Recv(env: Env, job: Job, l: Local, op: Op, r: Reply): Local
    requires InBounds(job, l) && Allows(job, l, op)
  {
    match l.pc
    case AtCtx => OnCtx(job, l, r)
    case AtIdem(i) => OnIdem(env, job, l, i, r)
    case AtStat(i) => OnStat(env, job, l, i, r)
    case AtBackupRead(i) => OnBackupRead(job, l, i, r)
    case AtBackupStat(i) => OnBackupStat(job, l, i, r)
    case AtBackupWrite(i) => OnBackupWrite(job, l, i, op.path.stamp, r)
    case AtBackupChown(i) => AfterBackup(job, l, i)
    case AtBackupCleanup(i) => OnBackupCleanup(job, l, i)
    case AtTemp(i, stage) => OnTemp(env, job, l, i, stage, StagePath(job, l, i, stage, op), r)
    case AtPre => OnPre(l, r)
    case AtRename(i) => OnRename(job, l, i, r)
    case AtPost => OnPost(job, l, r)
    case AtRestore(i) => OnRestore(job, l, i, r)
    case AtRestoreTemp(i, stage) => OnRestoreTemp(env, job, l, i, stage, StagePath(job, l, i, stage, op), r)
    case AtRestoreRename(i) => OnRestoreRename(job, l, i, r)
    case AtPost2 => OnPost2(l, r)
    case AtPruneList(i) => OnPruneList(job, l, i, r)
    case AtPruneRemove(i, todo) => OnPruneRemove(job, l, i, todo, op.path, r)
    case AtCleanTemps(i, next) => OnCleanTemps(job, l, i, next, r)
  }
}
