/**
 System calls take names. Two paths can have one name: a destination may be
 called like a temp or backup of another. Here a call works on names, and for
 plans in which that does not happen its runs are exactly those on paths.
 */
module Naming {
  import opened Common
  import opened FileSystem
  import opened Ownership
  import opened Retention
  import opened Protocol
  import opened Progress
  import opened Names
  import opened Runs

  // ----- one path for every name -----

  lemma SomePath(s: string)
    ensures exists p: Path :: Canonical(p) && Render(p) == s
  {
    var p := EveryNameHasAPath(s);
  }

  // Names in ds are destinations, any other name is read canonically.
  ghost function PathOf(ds: set<string>, s: string): (p: Path)
    ensures Render(p) == s
  {
    if s in ds then Live(s)
    else
      SomePath(s);
      var p: Path :| Canonical(p) && Render(p) == s;
      p
  }

  ghost predicate Named(ds: set<string>, p: Path) { PathOf(ds, Render(p)) == p }

  ghost predicate AllNamed(ds: set<string>, fs: Files) { forall p :: p in fs ==> Named(ds, p) }

  lemma CanonicalNamed(ds: set<string>, p: Path)
    requires Canonical(p) && Render(p) !in ds
    ensures Named(ds, p)
  {
    RenderInjective(PathOf(ds, Render(p)), p);
  }

  // The system call as the file system gets it.
  ghost function ByName(ds: set<string>, op: Op): Op {
    match op
    case Read(p) => Read(PathOf(ds, Render(p)))
    case Stat(p) => Stat(PathOf(ds, Render(p)))
    case WriteBackup(p, b, m) => WriteBackup(PathOf(ds, Render(p)), b, m)
    case Open(p) => Open(PathOf(ds, Render(p)))
    case Write(p, b) => Write(PathOf(ds, Render(p)), b)
    case Sync(p) => Sync(PathOf(ds, Render(p)))
    case Close(p) => Close(PathOf(ds, Render(p)))
    case Chmod(p, m) => Chmod(PathOf(ds, Render(p)), m)
    case Chown(p, u, g) => Chown(PathOf(ds, Render(p)), u, g)
    case Remove(p) => Remove(PathOf(ds, Render(p)))
    case Rename(p, q) => Rename(PathOf(ds, Render(p)), PathOf(ds, Render(q)))
    case _ => op
  }

  // The files have one path for every name, whatever was called.
  lemma EffectNamed(env: Env, ds: set<string>, fs: Files, op: Op, r: Reply)
    requires AllNamed(ds, fs) && Permitted(fs, ByName(ds, op), r)
    ensures AllNamed(ds, Effect(env, fs, ByName(ds, op), r))
  {
  }

  // A run of a call among the destinations ds, working on names.
  ghost function ExecByName(env: Env, ds: set<string>, job: Job, fs0: Files, run: seq<Event>): Option<State> {
    if run == [] then Some(State(START, fs0))
    else
      var e := run[|run| - 1];
      match ExecByName(env, ds, job, fs0, run[..|run| - 1])
      case None => None
      case Some(s) =>
        if InBounds(job, s.l) && Allows(job, s.l, e.op) && Permitted(s.fs, ByName(ds, e.op), e.reply) then
          Some(State(Recv(env, job, s.l, e.op, e.reply), Effect(env, s.fs, ByName(ds, e.op), e.reply)))
        else None
  }

  // ----- what a call names -----

  // Stamps in use come from the clock, and backups only from plans that take them.
  predicate StampAt(job: Job, prep: Prep) {
    && (prep.temp.Some? ==> prep.temp.value <= MAX_NANOS)
    && (prep.backup.Some? ==> prep.backup.value <= MAX_NANOS && job.retention != -1)
  }

  predicate Stamped(job: Job, l: Local) {
    && l.stamp <= MAX_NANOS && (forall j :: 0 <= j < |l.preps| ==> StampAt(job, l.preps[j]))
    && (BackingUp(l.pc) ==> job.retention != -1)
  }

  ghost predicate TodoNamed(ds: set<string>, l: Local) {
    l.pc.AtPruneRemove? ==> forall p :: p in l.pc.todo ==> Named(ds, p)
  }

  lemma StampedLook(env: Env, job: Job, l: Local, i: nat, info: Option<Info>)
    requires i < job.N() && Stamped(job, l)
    ensures Stamped(job, Resolved(env, job, l, i, info))
  {
  }

  lemma StampedFirst(env: Env, job: Job, l: Local, i: nat, r: Reply)
    requires i < job.N() && Stamped(job, l)
    ensures Stamped(job, OnIdem(env, job, l, i, r)) && Stamped(job, OnStat(env, job, l, i, r))
  {
    var info := if r.Stats? then Some(r.info) else None;
    StampedLook(env, job, l, i, l.info);
    StampedLook(env, job, l.(info := info), i, info);
  }

  // A step that leaves preps and stamp alone.
  lemma StampedStill(job: Job, l: Local, l': Local)
    requires Stamped(job, l) && l'.preps == l.preps && l'.stamp == l.stamp && (BackingUp(l'.pc) ==> job.retention != -1)
    ensures Stamped(job, l')
  {
  }

  lemma StampedBackup(job: Job, l: Local, i: nat, r: Reply)
    requires i < |l.preps| && Stamped(job, l) && job.retention != -1
    ensures Stamped(job, OnBackupRead(job, l, i, r)) && Stamped(job, OnBackupStat(job, l, i, r))
    ensures Stamped(job, AfterBackup(job, l, i))
  {
    StampedStill(job, l, OnBackupRead(job, l, i, r));
    StampedStill(job, l, OnBackupStat(job, l, i, r));
    StampedStill(job, l, AfterBackup(job, l, i));
  }

  lemma StampedSaved(job: Job, l: Local, i: nat, stamp: nat, r: Reply)
    requires i < |l.preps| && Stamped(job, l) && job.retention != -1 && stamp <= MAX_NANOS
    ensures Stamped(job, OnBackupWrite(job, l, i, stamp, r)) && Stamped(job, OnBackupCleanup(job, l, i))
  {
  }

  lemma StampedTemp(env: Env, job: Job, l: Local, i: nat, stage: Stage, p: Path, r: Reply)
    requires i < |l.preps| && p.Temp? && p.stamp <= MAX_NANOS && Stamped(job, l)
    ensures Stamped(job, OnTemp(env, job, l, i, stage, p, r))
  {
  }

  lemma StampedRestored(job: Job, l: Local, i: nat, failed: bool)
    requires Stamped(job, l)
    ensures Stamped(job, Restored(job, l, i, failed))
  {
    var l' := Restored(job, l, i, failed);
    assert l'.pc.AtRestore? || l'.pc.AtCleanTemps? || l'.pc.AtEnd? || l'.pc.AtPost2?;
    StampedStill(job, l, l');
  }

  lemma StampedRestore(job: Job, l: Local, i: nat, r: Reply)
    requires i < |l.preps| && Stamped(job, l)
    ensures Stamped(job, OnRestore(job, l, i, r)) && Stamped(job, OnRestoreRename(job, l, i, r))
  {
    StampedRestored(job, l, i, r.Err?);
    StampedRestored(job, l, i, true);
    StampedRestored(job, l, i, false);
  }

  lemma StampedRestoreTemp(env: Env, job: Job, l: Local, i: nat, stage: Stage, p: Path, r: Reply)
    requires p.Temp? && p.stamp <= MAX_NANOS && Stamped(job, l)
    ensures Stamped(job, OnRestoreTemp(env, job, l, i, stage, p, r))
  {
    StampedRestored(job, l, i, true);
    StampedRestored(job, NoteRemove(l, p, r), i, true);
  }

  lemma StampedSuccess(job: Job, l: Local)
    requires Stamped(job, l)
    ensures Stamped(job, Success(job, l))
  {
    StampedStill(job, l, Success(job, l));
  }

  lemma StampedRename(job: Job, l: Local, i: nat, r: Reply)
    requires Stamped(job, l)
    ensures Stamped(job, OnRename(job, l, i, r))
  {
    StampedSuccess(job, l.(done := i + 1));
  }

  lemma StampedHooks(job: Job, l: Local, r: Reply)
    requires Stamped(job, l)
    ensures Stamped(job, OnPost(job, l, r)) && Stamped(job, OnPre(l, r)) && Stamped(job, OnPost2(l, r))
  {
    StampedSuccess(job, l.(post := l.post + 1));
  }

  lemma StampedPrune(job: Job, l: Local, i: nat, todo: set<Path>, p: Path, r: Reply)
    requires Stamped(job, l)
    ensures Stamped(job, OnPruneList(job, l, i, r)) && Stamped(job, OnPruneRemove(job, l, i, todo, p, r))
  {
    var l1, l2 := OnPruneList(job, l, i, r), OnPruneRemove(job, l, i, todo, p, r);
    assert !BackingUp(l1.pc) && !BackingUp(l2.pc);
    StampedStill(job, l, l1);
    StampedStill(job, l, l2);
  }

  lemma StampedClean(job: Job, l: Local, i: nat, next: Outcome, r: Reply)
    requires Stamped(job, l) && i < |l.preps| && i < job.N()
    ensures Stamped(job, OnCleanTemps(job, l, i, next, r))
  {
    var l' := OnCleanTemps(job, l, i, next, r);
    assert l'.pc.AtCleanTemps? || l'.pc.AtEnd?;
    StampedStill(job, l, l');
  }

  lemma EarlyStamped(env: Env, job: Job, l: Local, op: Op, r: Reply)
    requires InBounds(job, l) && Allows(job, l, op) && Stamped(job, l) && Before(l.pc)
    ensures Stamped(job, Recv(env, job, l, op, r))
  {
    match l.pc
    case AtCtx => StampedStill(job, l, OnCtx(job, l, r));
    case AtIdem(i) => StampedFirst(env, job, l, i, r);
    case AtStat(i) => StampedFirst(env, job, l, i, r);
    case AtBackupRead(i) => StampedBackup(job, l, i, r);
    case AtBackupStat(i) => StampedBackup(job, l, i, r);
    case AtBackupWrite(i) => StampedSaved(job, l, i, op.path.stamp, r);
    case AtBackupChown(i) => StampedBackup(job, l, i, r);
    case AtBackupCleanup(i) => StampedSaved(job, l, i, 0, r);
  }

  lemma LateStamped(env: Env, job: Job, l: Local, op: Op, r: Reply)
    requires InBounds(job, l) && Allows(job, l, op) && Stamped(job, l) && !Before(l.pc)
    ensures Stamped(job, Recv(env, job, l, op, r))
  {
    match l.pc
    case AtTemp(i, stage) => StampedTemp(env, job, l, i, stage, StagePath(job, l, i, stage, op), r);
    case AtRename(i) => StampedRename(job, l, i, r);
    case AtPre => StampedHooks(job, l, r);
    case AtPost => StampedHooks(job, l, r);
    case AtPost2 => StampedHooks(job, l, r);
    case AtRestore(i) => StampedRestore(job, l, i, r);
    case AtRestoreTemp(i, stage) => StampedRestoreTemp(env, job, l, i, stage, StagePath(job, l, i, stage, op), r);
    case AtRestoreRename(i) => StampedRestore(job, l, i, r);
    case AtPruneList(i) => StampedPrune(job, l, i, {}, Live(""), r);
    case AtPruneRemove(i, todo) => StampedPrune(job, l, i, todo, op.path, r);
    case AtCleanTemps(i, next) => StampedClean(job, l, i, next, r);
  }

  lemma StepStamped(env: Env, job: Job, l: Local, op: Op, r: Reply)
    requires InBounds(job, l) && Allows(job, l, op) && Stamped(job, l)
    ensures Stamped(job, Recv(env, job, l, op, r))
  {
    if Before(l.pc) { EarlyStamped(env, job, l, op, r); } else { LateStamped(env, job, l, op, r); }
  }

  lemma ListTodo(job: Job, l: Local, i: nat, r: Reply, ps: set<Path>)
    requires r.Names? ==> r.found <= ps
    ensures var l' := OnPruneList(job, l, i, r); l'.pc.AtPruneRemove? ==> l'.pc.todo <= ps
  {
  }

  lemma RemoveTodo(job: Job, l: Local, i: nat, todo: set<Path>, p: Path, r: Reply)
    ensures var l' := OnPruneRemove(job, l, i, todo, p, r); l'.pc.AtPruneRemove? ==> l'.pc.todo <= todo
  {
  }

  // The janitor removes what it found, by its path.
  lemma StepTodoNamed(env: Env, ds: set<string>, job: Job, l: Local, fs: Files, op: Op, r: Reply)
    requires job.WellFormed() && Sane(job, l) && Allows(job, l, op) && Permitted(fs, op, r)
    requires AllNamed(ds, fs) && TodoNamed(ds, l)
    ensures TodoNamed(ds, Recv(env, job, l, op, r))
  {
    if l.pc.AtPruneList? {
      ListTodo(job, l, l.pc.i, r, fs.Keys);
    } else if l.pc.AtPruneRemove? {
      RemoveTodo(job, l, l.pc.i, l.pc.todo, op.path, r);
    } else {
      StepOnward(env, job, l, op, r);
    }
  }

  // A plan's own paths are the ones its names stand for.
  lemma OwnNamed(ds: set<string>, job: Job, j: nat, n: nat)
    requires Proper(ds, job) && Dests(job) <= ds && j < job.N() && n <= MAX_NANOS
    ensures Named(ds, Live(job.files[j].abs)) && Named(ds, Temp(job.files[j].abs, n))
    ensures job.retention != -1 ==> Named(ds, Backup(job.files[j].abs, n))
  {
    assert job.files[j] in job.files;
    CanonicalNamed(ds, Temp(job.files[j].abs, n));
    if job.retention != -1 { CanonicalNamed(ds, Backup(job.files[j].abs, n)); }
  }

  lemma StageByName(ds: set<string>, job: Job, j: nat, stage: Stage, op: Op, stamp: nat, data: Bytes, o: Owner)
    requires Proper(ds, job) && Dests(job) <= ds && j < job.N() && stamp <= MAX_NANOS
    requires AllowsStage(stage, op, job.files[j].abs, stamp, data, o)
    ensures ByName(ds, op) == op
  {
    OwnNamed(ds, job, j, if op.Open? then op.path.stamp else stamp);
  }

  // Where the call stands, the path it means and the path its name stands for are one.
  lemma CallByName(ds: set<string>, job: Job, l: Local, op: Op)
    requires Proper(ds, job) && Dests(job) <= ds && InBounds(job, l) && Allows(job, l, op)
    requires Stamped(job, l) && TodoNamed(ds, l)
    ensures ByName(ds, op) == op
  {
    match l.pc
    case AtTemp(i, stage) => StageByName(ds, job, i, stage, op, l.stamp, job.files[i].bytes, l.preps[i].owner);
    case AtRestoreTemp(i, stage) => StageByName(ds, job, i, stage, op, l.stamp, l.data, l.preps[i].owner);
    case AtIdem(i) => OwnNamed(ds, job, i, 0);
    case AtStat(i) => OwnNamed(ds, job, i, 0);
    case AtBackupRead(i) => OwnNamed(ds, job, i, 0);
    case AtBackupStat(i) => OwnNamed(ds, job, i, 0);
    case AtBackupWrite(i) => OwnNamed(ds, job, i, op.path.stamp);
    case AtBackupChown(i) => OwnNamed(ds, job, i, l.stamp);
    case AtBackupCleanup(i) => if l.preps[i].backup.Some? { OwnNamed(ds, job, i, l.preps[i].backup.value); }
    case AtRename(i) => OwnNamed(ds, job, i, l.preps[i].temp.value);
    case AtRestore(i) => OwnNamed(ds, job, i, if l.preps[i].backup.Some? then l.preps[i].backup.value else 0);
    case AtRestoreRename(i) => OwnNamed(ds, job, i, l.stamp);
    case AtCleanTemps(i, _) => if l.preps[i].temp.Some? { OwnNamed(ds, job, i, l.preps[i].temp.value); }
    case _ =>
  }

  // ----- whole runs -----

  // What keeps names and paths together along a run.
  ghost predicate InStep(ds: set<string>, job: Job, l: Local, fs: Files) {
    Sane(job, l) && Stamped(job, l) && TodoNamed(ds, l) && AllNamed(ds, fs)
  }

  lemma StepInStep(env: Env, ds: set<string>, job: Job, l: Local, fs: Files, op: Op, r: Reply)
    requires job.WellFormed() && Proper(ds, job) && Dests(job) <= ds && InStep(ds, job, l, fs) && Allows(job, l, op)
    ensures ByName(ds, op) == op
    ensures Permitted(fs, op, r) ==> InStep(ds, job, Recv(env, job, l, op, r), Effect(env, fs, op, r))
  {
    CallByName(ds, job, l, op);
    if Permitted(fs, op, r) {
      StepOnward(env, job, l, op, r);
      StepStamped(env, job, l, op, r);
      StepTodoNamed(env, ds, job, l, fs, op, r);
      EffectNamed(env, ds, fs, op, r);
    }
  }

  // If no destination is called like a temp or backup of the plan, the runs on
  // names are the runs on paths, with the same states.
  lemma {:induction false} RunsByName(env: Env, ds: set<string>, job: Job, fs0: Files, run: seq<Event>)
    requires job.WellFormed() && Proper(ds, job) && Dests(job) <= ds && AllNamed(ds, fs0)
    ensures ExecByName(env, ds, job, fs0, run) == Exec(env, job, fs0, run)
    ensures Exec(env, job, fs0, run).Some? ==>
              InStep(ds, job, Exec(env, job, fs0, run).value.l, Exec(env, job, fs0, run).value.fs)
  {
    if run != [] {
      var past, e := run[..|run| - 1], run[|run| - 1];
      RunsByName(env, ds, job, fs0, past);
      if Exec(env, job, fs0, past).Some? {
        var s := Exec(env, job, fs0, past).value;
        if Allows(job, s.l, e.op) { StepInStep(env, ds, job, s.l, s.fs, e.op, e.reply); }
      }
    }
  }
}
