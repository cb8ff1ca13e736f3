/** What the events of a run tell: why it failed, which backups it wrote, which paths it made. */
module Events {
  import opened Common
  import opened FileSystem
  import opened Ownership
  import opened Protocol
  import opened Progress
  import opened Names
  import opened Invariant
  import opened Safety
  import opened Runs

  // ----- why a call failed -----

  // Hooks that failed, whether the call has turned back (a rename or a reload
  // failed) and whether anything failed after that.
  datatype Log = Log(failedPres: nat, failedPosts: nat, turned: bool, troubled: bool)

  predicate Fails(e: Event) { !e.reply.Ok? }

  // A failure that leaves a destination unrestored, if it comes during a restore.
  predicate Trouble(env: Env, e: Event) {
    match e.op
    case Remove(p) => p.Live? && e.reply.Err?
    case Read(_) => !e.reply.Data?
    case Open(_) => !e.reply.Made?
    case Write(_, _) => Fails(e)
    case Sync(_) => Fails(e)
    case Close(_) => Fails(e)
    case Chmod(_, _) => Fails(e)
    case Chown(_, _, _) => Fails(e) && env.root
    case Rename(_, _) => Fails(e)
    case _ => false
  }

  function Note(env: Env, g: Log, e: Event): Log {
    Log(g.failedPres + Count(e.op.PreCommit? && Fails(e)), g.failedPosts + Count(e.op.PostCommit? && Fails(e)),
        g.turned || ((e.op.Rename? || e.op.PostCommit?) && Fails(e)), g.troubled || (g.turned && Trouble(env, e)))
  }

  function LogOf(env: Env, run: seq<Event>): Log {
    if run == [] then Log(0, 0, false, false) else Note(env, LogOf(env, run[..|run| - 1]), run[|run| - 1])
  }

  predicate Turned(pc: PC) {
    match pc
    case AtRestore(_) => true
    case AtRestoreTemp(_, _) => true
    case AtRestoreRename(_) => true
    case AtPost2 => true
    case AtCleanTemps(_, o) => o.RenameFailed? || o.RolledBack? || o.Stranded?
    case AtEnd(o) => o.RenameFailed? || o.RolledBack? || o.Stranded?
    case _ => false
  }

  predicate Ends(pc: PC, o: Outcome) { pc == AtEnd(o) || (pc.AtCleanTemps? && pc.next == o) }

  // The log of a run that has got to l.
  predicate Tells(l: Local, g: Log) {
    && (Turned(l.pc) ==> g.turned) && (g.turned ==> Turned(l.pc) || Ends(l.pc, Aborted))
    && (g.troubled <==> l.firstErr || (l.pc.AtRestoreTemp? && l.pc.stage.SDrop?))
    && g.failedPosts == Count(l.reloadFailed) + Count(Ends(l.pc, Stranded) && !l.firstErr)
    && g.failedPres == Count(Ends(l.pc, Rejected))
  }

  // A step before or after the dangerous part.
  predicate Calm(l: Local, l': Local) {
    && !l.firstErr && !l'.firstErr && l'.reloadFailed == l.reloadFailed && !Turned(l.pc) && !Turned(l'.pc)
    && !Ends(l.pc, Aborted) && !Ends(l.pc, Rejected) && !Ends(l'.pc, Rejected)
  }

  lemma TellsCalm(env: Env, l: Local, l': Local, g: Log, e: Event)
    requires Tells(l, g) && Calm(l, l') && !e.op.Rename? && !e.op.PreCommit? && !e.op.PostCommit?
    ensures Tells(l', Note(env, g, e))
  {
  }

  lemma CalmLook(env: Env, job: Job, l: Local, op: Op, r: Reply)
    requires InBounds(job, l) && Allows(job, l, op) && !l.firstErr && (l.pc.AtCtx? || l.pc.AtIdem? || l.pc.AtStat?)
    ensures Calm(l, Recv(env, job, l, op, r))
  {
  }

  lemma CalmRead(job: Job, l: Local, i: nat, r: Reply)
    requires i < |l.preps| && BackingUp(l.pc) && !l.firstErr
    ensures Calm(l, OnBackupRead(job, l, i, r)) && Calm(l, OnBackupStat(job, l, i, r))
    ensures Calm(l, AfterBackup(job, l, i))
  {
  }

  lemma CalmWrite(job: Job, l: Local, i: nat, stamp: nat, r: Reply)
    requires i < |l.preps| && BackingUp(l.pc) && !l.firstErr
    ensures Calm(l, OnBackupWrite(job, l, i, stamp, r)) && Calm(l, OnBackupCleanup(job, l, i))
  {
  }

  lemma CalmSave(env: Env, job: Job, l: Local, op: Op, r: Reply)
    requires InBounds(job, l) && Allows(job, l, op) && !l.firstErr
    requires BackingUp(l.pc)
    ensures Calm(l, Recv(env, job, l, op, r))
  {
    match l.pc
    case AtBackupRead(i) => CalmRead(job, l, i, r);
    case AtBackupStat(i) => CalmRead(job, l, i, r);
    case AtBackupWrite(i) => CalmWrite(job, l, i, op.path.stamp, r);
    case AtBackupChown(i) => CalmRead(job, l, i, r);
    case AtBackupCleanup(i) => CalmWrite(job, l, i, 0, r);
  }

  lemma CalmTemp(env: Env, job: Job, l: Local, i: nat, stage: Stage, p: Path, r: Reply)
    requires i < |l.preps| && p.Temp? && l.pc == AtTemp(i, stage) && !l.firstErr
    ensures Calm(l, OnTemp(env, job, l, i, stage, p, r))
  {
  }

  lemma CalmPrune(env: Env, job: Job, l: Local, op: Op, r: Reply)
    requires InBounds(job, l) && Allows(job, l, op) && !l.firstErr && (l.pc.AtPruneList? || l.pc.AtPruneRemove?)
    ensures Calm(l, Recv(env, job, l, op, r))
  {
  }

  lemma TellsPre(env: Env, l: Local, g: Log, e: Event)
    requires Tells(l, g) && l.pc.AtPre? && e.op.PreCommit? && !l.firstErr
    ensures Tells(OnPre(l, e.reply), Note(env, g, e))
  {
  }

  lemma TellsRename(env: Env, job: Job, l: Local, g: Log, e: Event, i: nat)
    requires Tells(l, g) && l.pc == AtRename(i) && e.op.Rename? && !l.firstErr && !l.reloadFailed
    ensures Tells(OnRename(job, l, i, e.reply), Note(env, g, e))
  {
  }

  lemma TellsPost(env: Env, job: Job, l: Local, g: Log, e: Event)
    requires Tells(l, g) && l.pc.AtPost? && e.op.PostCommit? && !l.firstErr && !l.reloadFailed
    ensures Tells(OnPost(job, l, e.reply), Note(env, g, e))
  {
  }

  lemma TellsPost2(env: Env, l: Local, g: Log, e: Event)
    requires Tells(l, g) && l.pc.AtPost2? && e.op.PostCommit? && !l.firstErr && l.reloadFailed
    ensures Tells(OnPost2(l, e.reply), Note(env, g, e))
  {
  }

  lemma TellsRestored(job: Job, l: Local, g: Log, i: nat, failed: bool)
    requires Turned(l.pc) && !l.pc.AtEnd? && g.turned && (g.troubled <==> l.firstErr || failed)
    requires g.failedPosts == Count(l.reloadFailed) && g.failedPres == 0
    ensures Tells(Restored(job, l, i, failed), g)
  {
  }

  lemma TellsRestore(env: Env, job: Job, l: Local, g: Log, e: Event, i: nat)
    requires Tells(l, g) && InBounds(job, l) && l.pc == AtRestore(i)
    requires Allows(job, l, e.op) && (e.op.Read? ==> e.reply.Err? || e.reply.Data?)
    ensures Tells(OnRestore(job, l, i, e.reply), Note(env, g, e))
  {
    TellsRestored(job, l, Note(env, g, e), i, Trouble(env, e));
  }

  lemma TellsRestoreTemp(env: Env, job: Job, l: Local, g: Log, e: Event, i: nat, stage: Stage, p: Path, d: string,
                         data: Bytes, o: Owner)
    requires Tells(l, g) && l.pc == AtRestoreTemp(i, stage) && p.Temp? && AllowsStage(stage, e.op, d, l.stamp, data, o)
    requires e.op.Continue? ==> e.reply.Ok?
    ensures Tells(OnRestoreTemp(env, job, l, i, stage, p, e.reply), Note(env, g, e))
  {
    if stage.SDrop? {
      TellsRestored(job, NoteRemove(l, p, e.reply), Note(env, g, e), i, true);
    } else if stage.SOpen? && !e.reply.Made? {
      TellsRestored(job, l, Note(env, g, e), i, true);
    }
  }

  lemma TellsRestoreRename(env: Env, job: Job, l: Local, g: Log, e: Event, i: nat)
    requires Tells(l, g) && l.pc == AtRestoreRename(i) && e.op.Rename?
    ensures Tells(OnRestoreRename(job, l, i, e.reply), Note(env, g, e))
  {
    if e.reply.Ok? { TellsRestored(job, l, Note(env, g, e), i, false); }
  }

  lemma TellsCleanTemps(env: Env, job: Job, l: Local, g: Log, e: Event, i: nat, next: Outcome)
    requires Tells(l, g) && l.pc == AtCleanTemps(i, next) && i < job.N() == |l.preps|
    requires e.op.Continue? || (e.op.Remove? && e.op.path.Temp?)
    ensures Tells(OnCleanTemps(job, l, i, next, e.reply), Note(env, g, e))
  {
    var l' := OnCleanTemps(job, l, i, next, e.reply);
    assert l' == l.(pc := l'.pc, stuck := l'.stuck) && (l'.pc == AtEnd(next) || l'.pc == AtCleanTemps(i + 1, next));
  }

  lemma CalmFacts(env: Env, job: Job, fs0: Files, l: Local)
    requires PCInv(env, job, fs0, l)
    ensures !Turned(l.pc) && !l.pc.AtCleanTemps? && !l.pc.AtEnd? ==> !l.firstErr && !l.reloadFailed
    ensures l.pc.AtPost2? ==> !l.firstErr && l.reloadFailed
  {
  }

  predicate Steady(pc: PC) {
    !Turned(pc) && !pc.AtPre? && !pc.AtRename? && !pc.AtPost? && !pc.AtCleanTemps? && !pc.AtEnd?
  }

  lemma CalmStep(env: Env, job: Job, l: Local, op: Op, r: Reply)
    requires InBounds(job, l) && Allows(job, l, op) && !l.firstErr && Steady(l.pc)
    ensures Calm(l, Recv(env, job, l, op, r))
  {
    match l.pc
    case AtTemp(i, stage) => CalmTemp(env, job, l, i, stage, StagePath(job, l, i, stage, op), r);
    case AtPruneList(_) => CalmPrune(env, job, l, op, r);
    case AtPruneRemove(_, _) => CalmPrune(env, job, l, op, r);
    case AtCtx => CalmLook(env, job, l, op, r);
    case AtIdem(_) => CalmLook(env, job, l, op, r);
    case AtStat(_) => CalmLook(env, job, l, op, r);
    case _ => CalmSave(env, job, l, op, r);
  }

  lemma SteadyOps(job: Job, l: Local, op: Op)
    requires InBounds(job, l) && Allows(job, l, op) && Steady(l.pc)
    ensures !op.Rename? && !op.PreCommit? && !op.PostCommit?
  {
  }

  lemma TellsSteady(env: Env, job: Job, fs0: Files, l: Local, g: Log, e: Event)
    requires PCInv(env, job, fs0, l) && Allows(job, l, e.op) && Tells(l, g) && Steady(l.pc)
    ensures Tells(Recv(env, job, l, e.op, e.reply), Note(env, g, e))
  {
    CalmFacts(env, job, fs0, l);
    CalmStep(env, job, l, e.op, e.reply);
    SteadyOps(job, l, e.op);
    TellsCalm(env, l, Recv(env, job, l, e.op, e.reply), g, e);
  }

  lemma TellsBack(env: Env, job: Job, fs0: Files, l: Local, fs: Files, g: Log, e: Event)
    requires Step(env, job, fs0, l, fs, e.op, e.reply) && Tells(l, g)
    requires l.pc.AtRestore? || l.pc.AtRestoreTemp? || l.pc.AtRestoreRename? || l.pc.AtPost2?
    ensures Tells(Recv(env, job, l, e.op, e.reply), Note(env, g, e))
  {
    match l.pc
    case AtRestore(i) => TellsRestore(env, job, l, g, e, i);
    case AtRestoreTemp(i, stage) =>
      TellsRestoreTemp(env, job, l, g, e, i, stage, StagePath(job, l, i, stage, e.op), job.files[i].abs, l.data,
                       l.preps[i].owner);
    case AtRestoreRename(i) => TellsRestoreRename(env, job, l, g, e, i);
    case AtPost2 =>
      CalmFacts(env, job, fs0, l);
      TellsPost2(env, l, g, e);
  }

  lemma TellsForward(env: Env, job: Job, fs0: Files, l: Local, g: Log, e: Event)
    requires PCInv(env, job, fs0, l) && Allows(job, l, e.op) && Tells(l, g)
    requires l.pc.AtPre? || l.pc.AtRename? || l.pc.AtPost? || l.pc.AtCleanTemps?
    ensures Tells(Recv(env, job, l, e.op, e.reply), Note(env, g, e))
  {
    CalmFacts(env, job, fs0, l);
    match l.pc
    case AtPre => TellsPre(env, l, g, e);
    case AtRename(i) => TellsRename(env, job, l, g, e, i);
    case AtPost => TellsPost(env, job, l, g, e);
    case AtCleanTemps(i, next) => TellsCleanTemps(env, job, l, g, e, i, next);
  }

  lemma TellsStep(env: Env, job: Job, fs0: Files, l: Local, fs: Files, g: Log, e: Event)
    requires Step(env, job, fs0, l, fs, e.op, e.reply) && Tells(l, g)
    ensures Tells(Recv(env, job, l, e.op, e.reply), Note(env, g, e))
  {
    if Steady(l.pc) {
      TellsSteady(env, job, fs0, l, g, e);
    } else if l.pc.AtPre? || l.pc.AtRename? || l.pc.AtPost? || l.pc.AtCleanTemps? {
      TellsForward(env, job, fs0, l, g, e);
    } else {
      TellsBack(env, job, fs0, l, fs, g, e);
    }
  }

  lemma {:induction false} RunTells(env: Env, job: Job, fs0: Files, run: seq<Event>, l: Local, fs: Files)
    requires job.WellFormed() && Reaches(env, job, fs0, run, l, fs)
    ensures Tells(l, LogOf(env, run))
  {
    if run != [] {
      var past := run[..|run| - 1];
      var s, e := Exec(env, job, fs0, past).value, run[|run| - 1];
      RunTells(env, job, fs0, past, s.l, s.fs);
      RunKeepsInvariant(env, job, fs0, past, s.l, s.fs);
      TellsStep(env, job, fs0, s.l, s.fs, LogOf(env, past), e);
    }
  }

  // The error a call returns, from the events of its run alone.
  lemma ErrorSaysWhy(env: Env, job: Job, fs0: Files, run: seq<Event>, l: Local, fs: Files, o: Outcome)
    requires job.WellFormed() && Reaches(env, job, fs0, run, l, fs) && l.pc == AtEnd(o)
    ensures var g := LogOf(env, run);
            && (o.Err() == ValidateFailed <==> g.failedPres > 0)
            && (o.Err() == ReloadFailed <==> g.failedPosts == 1 && !g.troubled)
            && (o.Err() == RollbackFailed <==> g.troubled || g.failedPosts == 2)
            && (o.Err() == PlainError <==> o.Err() != NoError && g.failedPres == 0 && g.failedPosts == 0 && !g.troubled)
  {
    RunTells(env, job, fs0, run, l, fs);
    RunKeepsInvariant(env, job, fs0, run, l, fs);
  }

  // ----- which backups a call wrote -----

  function Written(op: Op): set<Path> { if op.WriteBackup? then {op.path} else {} }

  function Stored(run: seq<Event>): set<Path> {
    if run == [] then {} else Stored(run[..|run| - 1]) + Written(run[|run| - 1].op)
  }

  // Every backup the call remembers is one it wrote.
  predicate Recorded(job: Job, preps: seq<Prep>, saved: set<Path>) {
    forall j :: 0 <= j < |preps| && j < job.N() && preps[j].backup.Some? ==>
      Backup(job.files[j].abs, preps[j].backup.value) in saved
  }

  // No backup is remembered that was not before.
  predicate NoneTaken(l: Local, l': Local) {
    forall j :: 0 <= j < |l'.preps| && l'.preps[j].backup.Some? ==>
      j < |l.preps| && l'.preps[j].backup == l.preps[j].backup
  }

  lemma LookTakesNone(env: Env, job: Job, l: Local, op: Op, r: Reply)
    requires InBounds(job, l) && Allows(job, l, op) && (l.pc.AtCtx? || l.pc.AtIdem? || l.pc.AtStat?)
    ensures NoneTaken(l, Recv(env, job, l, op, r))
  {
  }

  lemma SaveTakesNone(env: Env, job: Job, l: Local, op: Op, r: Reply)
    requires InBounds(job, l) && Allows(job, l, op)
    requires l.pc.AtBackupRead? || l.pc.AtBackupStat? || l.pc.AtBackupChown? || l.pc.AtBackupCleanup?
    ensures NoneTaken(l, Recv(env, job, l, op, r))
  {
  }

  lemma TempTakesNone(env: Env, job: Job, l: Local, i: nat, stage: Stage, p: Path, r: Reply)
    requires i < |l.preps| && p.Temp?
    ensures NoneTaken(l, OnTemp(env, job, l, i, stage, p, r))
  {
  }

  lemma RestoreTempKeeps(env: Env, job: Job, l: Local, i: nat, stage: Stage, p: Path, r: Reply)
    requires p.Temp?
    ensures OnRestoreTemp(env, job, l, i, stage, p, r).preps == l.preps
  {
  }

  lemma RestTakesNone(env: Env, job: Job, l: Local, op: Op, r: Reply)
    requires InBounds(job, l) && Allows(job, l, op)
    requires l.pc.AtPre? || l.pc.AtRename? || l.pc.AtPost? || l.pc.AtRestore? || l.pc.AtRestoreRename? || l.pc.AtPost2?
    ensures Recv(env, job, l, op, r).preps == l.preps
  {
  }

  lemma LateTakesNone(env: Env, job: Job, l: Local, op: Op, r: Reply)
    requires InBounds(job, l) && Allows(job, l, op) && (l.pc.AtPruneList? || l.pc.AtPruneRemove? || l.pc.AtCleanTemps?)
    ensures Recv(env, job, l, op, r).preps == l.preps
  {
  }

  lemma StepTakesNone(env: Env, job: Job, l: Local, op: Op, r: Reply)
    requires InBounds(job, l) && Allows(job, l, op) && !l.pc.AtBackupWrite?
    ensures NoneTaken(l, Recv(env, job, l, op, r))
  {
    match l.pc
    case AtTemp(i, stage) => TempTakesNone(env, job, l, i, stage, StagePath(job, l, i, stage, op), r);
    case AtRestoreTemp(i, stage) => RestoreTempKeeps(env, job, l, i, stage, StagePath(job, l, i, stage, op), r);
    case AtCtx => LookTakesNone(env, job, l, op, r);
    case AtIdem(_) => LookTakesNone(env, job, l, op, r);
    case AtStat(_) => LookTakesNone(env, job, l, op, r);
    case AtPruneList(_) => LateTakesNone(env, job, l, op, r);
    case AtPruneRemove(_, _) => LateTakesNone(env, job, l, op, r);
    case AtCleanTemps(_, _) => LateTakesNone(env, job, l, op, r);
    case AtPre => RestTakesNone(env, job, l, op, r);
    case AtRename(_) => RestTakesNone(env, job, l, op, r);
    case AtPost => RestTakesNone(env, job, l, op, r);
    case AtPost2 => RestTakesNone(env, job, l, op, r);
    case AtRestore(_) => RestTakesNone(env, job, l, op, r);
    case AtRestoreRename(_) => RestTakesNone(env, job, l, op, r);
    case _ => SaveTakesNone(env, job, l, op, r);
  }

  lemma RecordedStep(env: Env, job: Job, l: Local, op: Op, r: Reply, saved: set<Path>)
    requires InBounds(job, l) && Allows(job, l, op) && Recorded(job, l.preps, saved)
    ensures Recorded(job, Recv(env, job, l, op, r).preps, saved + Written(op))
  {
    if !l.pc.AtBackupWrite? { StepTakesNone(env, job, l, op, r); }
  }

  // Before the janitor starts, a call writes and removes no backups but its own.
  lemma OwnBackupsOnly(job: Job, l: Local, op: Op, p: Path)
    requires InBounds(job, l) && Allows(job, l, op) && p.Backup? && Touches(op, p) && !Janitored(l.pc)
    ensures op.Read? || p in Written(op) || l.pc.AtBackupChown? || l.pc.AtBackupCleanup?
  {
  }

  lemma EarlierStep(env: Env, job: Job, fs0: Files, l: Local, fs: Files, op: Op, r: Reply, saved: set<Path>, p: Path)
    requires PCInv(env, job, fs0, l) && Allows(job, l, op) && Permitted(fs, op, r) && Recorded(job, l.preps, saved)
    requires !Janitored(l.pc) && p.Backup? && p !in saved + Written(op)
    ensures SameAt(fs, Effect(env, fs, op, r), p)
  {
    if Touches(op, p) {
      OwnBackupsOnly(job, l, op, p);
    } else {
      EffectFrame(env, fs, op, r, p);
    }
  }

  lemma JanitorGoesOn(job: Job, l: Local, i: nat)
    ensures Janitored(Pruned(job, l, i).pc)
  {
  }

  lemma ClosingGoesOn(job: Job, l: Local, i: nat, next: Outcome, r: Reply)
    requires i < |l.preps| && i < job.N()
    ensures Ends(OnCleanTemps(job, l, i, next, r).pc, next)
  {
  }

  lemma StaysJanitored(env: Env, job: Job, l: Local, op: Op, r: Reply)
    requires InBounds(job, l) && Allows(job, l, op) && Janitored(l.pc)
    ensures Janitored(Recv(env, job, l, op, r).pc)
  {
    match l.pc
    case AtPruneList(i) => JanitorGoesOn(job, l.(swept := l.swept && r.Names?), i);
    case AtPruneRemove(i, _) => JanitorGoesOn(job, l.(swept := l.swept && !(op.path.Backup? && r.Err?)), i);
    case AtCleanTemps(i, next) => ClosingGoesOn(job, l, i, next, r);
  }

  lemma {:induction false} RunStores(env: Env, job: Job, fs0: Files, run: seq<Event>, l: Local, fs: Files)
    requires job.WellFormed() && Reaches(env, job, fs0, run, l, fs)
    ensures Recorded(job, l.preps, Stored(run))
    ensures !Janitored(l.pc) ==> forall p :: p in fs0 && p.Backup? && p !in Stored(run) ==> SameAt(fs0, fs, p)
  {
    if run != [] {
      var past := run[..|run| - 1];
      var s, e := Exec(env, job, fs0, past).value, run[|run| - 1];
      RunStores(env, job, fs0, past, s.l, s.fs);
      RunKeepsInvariant(env, job, fs0, past, s.l, s.fs);
      RecordedStep(env, job, s.l, e.op, e.reply, Stored(past));
      if Janitored(s.l.pc) { StaysJanitored(env, job, s.l, e.op, e.reply); }
      if !Janitored(l.pc) {
        forall p | p in fs0 && p.Backup? && p !in Stored(run)
          ensures SameAt(fs0, fs, p)
        {
          EarlierStep(env, job, fs0, s.l, s.fs, e.op, e.reply, Stored(past), p);
        }
      }
    }
  }

  // New backups are ones the call wrote.
  lemma {:induction false} NewAreStored(env: Env, job: Job, fs0: Files, run: seq<Event>, l: Local, fs: Files, p: Path)
    requires Reaches(env, job, fs0, run, l, fs) && p.Backup? && p in fs && p !in fs0
    ensures p in Stored(run)
  {
    if run != [] {
      var past := run[..|run| - 1];
      var s, e := Exec(env, job, fs0, past).value, run[|run| - 1];
      OpMakes(job, s.l, e.op);
      if p in s.fs { NewAreStored(env, job, fs0, past, s.l, s.fs, p); }
    }
  }

  // Until a call prunes, and so on every return but success, the backups from
  // before it are all there and as they were, except those it wrote over.
  lemma EarlierBackupsStay(env: Env, job: Job, fs0: Files, run: seq<Event>, l: Local, fs: Files, p: Path)
    requires job.WellFormed() && Reaches(env, job, fs0, run, l, fs) && !Janitored(l.pc)
    requires p.Backup? && p in fs0 && p !in Stored(run)
    ensures SameAt(fs0, fs, p)
  {
    RunStores(env, job, fs0, run, l, fs);
  }

  // ----- which paths a call made -----

  ghost predicate Kin(job: Job, fs0: Files, fs: Files) {
    forall p :: p in fs ==> p in fs0 || (job.IsDest(p.of) && Timely(p))
  }

  lemma StageMakes(stage: Stage, op: Op, dest: string, stamp: nat, data: Bytes, o: Owner)
    requires AllowsStage(stage, op, dest, stamp, data, o)
    ensures op.Open? ==> op.path.of == dest && Timely(op.path)
    ensures !op.WriteBackup? && !op.Rename?
  {
  }

  lemma OpMakes(job: Job, l: Local, op: Op)
    requires InBounds(job, l) && Allows(job, l, op)
    ensures op.Open? || op.WriteBackup? ==> job.IsDest(op.path.of) && Timely(op.path)
    ensures op.Rename? ==> job.IsDest(op.to.of) && op.to.Live?
  {
    match l.pc
    case AtTemp(i, stage) => StageMakes(stage, op, job.files[i].abs, l.stamp, job.files[i].bytes, l.preps[i].owner);
    case AtRestoreTemp(i, stage) => StageMakes(stage, op, job.files[i].abs, l.stamp, l.data, l.preps[i].owner);
    case _ =>
  }

  lemma StepMakesKin(env: Env, job: Job, fs0: Files, l: Local, fs: Files, op: Op, r: Reply, p: Path)
    requires Kin(job, fs0, fs) && InBounds(job, l) && Allows(job, l, op)
    requires Permitted(fs, op, r) && p in Effect(env, fs, op, r)
    ensures p in fs0 || (job.IsDest(p.of) && Timely(p))
  {
    OpMakes(job, l, op);
  }

  lemma {:induction false} RunMakesKin(env: Env, job: Job, fs0: Files, run: seq<Event>, l: Local, fs: Files)
    requires Reaches(env, job, fs0, run, l, fs)
    ensures Kin(job, fs0, fs)
  {
    if run != [] {
      var past := run[..|run| - 1];
      var s, e := Exec(env, job, fs0, past).value, run[|run| - 1];
      RunMakesKin(env, job, fs0, past, s.l, s.fs);
      forall p | p in fs
        ensures p in fs0 || (job.IsDest(p.of) && Timely(p))
      {
        StepMakesKin(env, job, fs0, s.l, s.fs, e.op, e.reply, p);
      }
    }
  }

  // ----- names along a run -----

  // Every name stays the name of one file.
  lemma NamesStayUnique(env: Env, job: Job, fs0: Files, run: seq<Event>, l: Local, fs: Files)
    requires Reaches(env, job, fs0, run, l, fs) && AllCanonical(fs0)
    requires forall j :: 0 <= j < job.N() ==> Canonical(Live(job.files[j].abs))
    ensures AllCanonical(fs)
  {
    RunMakesKin(env, job, fs0, run, l, fs);
  }

  // No file gets d's backup prefix but d's backups.
  lemma StaysLone(env: Env, job: Job, fs0: Files, run: seq<Event>, l: Local, fs: Files, d: string)
    requires Reaches(env, job, fs0, run, l, fs) && Lone(fs0, d)
    requires forall j :: 0 <= j < job.N() ==> !Near(d, job.files[j].abs)
    ensures Lone(fs, d)
  {
    RunMakesKin(env, job, fs0, run, l, fs);
    forall p | p in fs && Listed(d, p)
      ensures p.Backup? && p.of == d && p.stamp <= MAX_NANOS
    {
      if p !in fs0 { ListedIsNear(d, p); }
    }
  }
}
