/**
 One failure does not keep a call from the rest of a loop: every temp is
 removed, every old backup is tried and every destination is restored, each on
 its own.
 */
module Diligence {
  import opened Common
  import opened FileSystem
  import opened Retention
  import opened Protocol
  import opened Progress
  import opened Invariant
  import opened Safety
  import opened Runs
  import opened Guarantees

  // ----- temps -----

  ghost predicate RemoveFailed(run: seq<Event>, p: Path) {
    exists k :: 0 <= k < |run| && run[k].op == Remove(p) && run[k].reply.Err?
  }

  lemma {:induction false} StuckFailed(env: Env, job: Job, fs0: Files, run: seq<Event>, l: Local, fs: Files, p: Path)
    requires job.WellFormed() && Reaches(env, job, fs0, run, l, fs) && p in l.stuck
    ensures RemoveFailed(run, p)
  {
    if run != [] {
      var past, e := run[..|run| - 1], run[|run| - 1];
      var m := LastStep(env, job, fs0, run, l, fs);
      StepBooks(env, job, m.l, m.fs, e.op, e.reply);
      if p in m.l.stuck {
        StuckFailed(env, job, fs0, past, m.l, m.fs, p);
        var k :| 0 <= k < |past| && past[k].op == Remove(p) && past[k].reply.Err?;
        assert run[k] == past[k];
      } else {
        assert run[|past|].op == Remove(p) && run[|past|].reply.Err?;
      }
    }
  }

  // A temp that a finished call leaves behind is one whose own removal failed.
  lemma LeftTempFailed(env: Env, job: Job, fs0: Files, run: seq<Event>, l: Local, fs: Files, o: Outcome, p: Path)
    requires Arrived(env, job, fs0, run, l, fs) && l.pc == AtEnd(o) && p.Temp? && p in fs && p !in fs0
    ensures RemoveFailed(run, p)
  {
    Facts(env, job, fs0, run, l, fs);
    if job.IsDest(p.of) {
      var j :| 0 <= j < job.N() && job.files[j].abs == p.of;
      assert Accounted(job, fs0, l, fs, j, p.stamp);
      StuckFailed(env, job, fs0, run, l, fs, p);
    } else {
      BystandersUntouched(env, job, fs0, run, l, fs, p);
    }
  }

  // ----- old backups -----

  // Some event from k on removes p or tries to.
  ghost predicate TriedAfter(run: seq<Event>, k: nat, p: Path) {
    exists m :: k < m < |run| && run[m].op == Remove(p)
  }

  // What the k-th event found has been tried, all but `todo`.
  ghost predicate TriedAll(job: Job, run: seq<Event>, k: nat, todo: set<Path>)
    requires k < |run|
  {
    run[k].op.List? && run[k].reply.Names? ==>
      forall p :: p in Doomed(job.Keep(), run[k].reply.found) && p !in todo ==> TriedAfter(run, k, p)
  }

  function TodoOf(pc: PC): set<Path> { if pc.AtPruneRemove? then pc.todo else {} }

  // Listings are worked off one at a time.
  ghost predicate WorkedOff(job: Job, run: seq<Event>, todo: set<Path>) {
    forall k :: 0 <= k < |run| ==> TriedAll(job, run, k, todo)
  }

  ghost predicate Working(job: Job, l: Local, run: seq<Event>) { WorkedOff(job, run, TodoOf(l.pc)) }

  ghost predicate ListedUpTo(job: Job, run: seq<Event>, n: nat) {
    forall j :: 0 <= j < n && j < job.N() ==> exists k :: 0 <= k < |run| && run[k].op == List(job.files[j].abs)
  }

  lemma TriedExtends(past: seq<Event>, e: Event, k: nat, p: Path)
    requires TriedAfter(past, k, p)
    ensures TriedAfter(past + [e], k, p)
  {
    var m :| k < m < |past| && past[m].op == Remove(p);
    assert (past + [e])[m] == past[m];
  }

  lemma TriesNow(past: seq<Event>, e: Event, k: nat, p: Path)
    requires k < |past| && e.op == Remove(p)
    ensures TriedAfter(past + [e], k, p)
  {
    assert (past + [e])[|past|] == e;
  }

  // What is left to do shrinks by what was just tried, or all is new.
  lemma TriedStep(job: Job, past: seq<Event>, e: Event, k: nat, todo: set<Path>, todo': set<Path>)
    requires k < |past| && TriedAll(job, past, k, todo)
    requires forall p :: p in todo && p !in todo' ==> e.op == Remove(p)
    ensures TriedAll(job, past + [e], k, todo')
  {
    var run := past + [e];
    assert run[k] == past[k];
    if run[k].op.List? && run[k].reply.Names? {
      forall p | p in Doomed(job.Keep(), run[k].reply.found) && p !in todo'
        ensures TriedAfter(run, k, p)
      {
        if p in todo { TriesNow(past, e, k, p); } else { TriedExtends(past, e, k, p); }
      }
    }
  }

  lemma WorkingStep(job: Job, l: Local, past: seq<Event>, e: Event, l': Local)
    requires Working(job, l, past)
    requires forall p :: p in TodoOf(l.pc) && p !in TodoOf(l'.pc) ==> e.op == Remove(p)
    requires e.op.List? && e.reply.Names? ==> Doomed(job.Keep(), e.reply.found) <= TodoOf(l'.pc)
    ensures Working(job, l', past + [e])
  {
    var run := past + [e];
    forall k | 0 <= k < |run|
      ensures TriedAll(job, run, k, TodoOf(l'.pc))
    {
      if k < |past| {
        assert TriedAll(job, past, k, TodoOf(l.pc));
        TriedStep(job, past, e, k, TodoOf(l.pc), TodoOf(l'.pc));
      } else {
        assert run[k] == e;
      }
    }
  }

  lemma PrunedTodo(job: Job, l: Local, i: nat)
    ensures TodoOf(Pruned(job, l, i).pc) == {}
  {
  }

  lemma ListTodo(job: Job, l: Local, i: nat, r: Reply)
    ensures r.Names? ==> Doomed(job.Keep(), r.found) <= TodoOf(OnPruneList(job, l, i, r).pc)
  {
    PrunedTodo(job, l.(swept := l.swept && r.Names?), i);
  }

  lemma RemoveTodo(job: Job, l: Local, i: nat, todo: set<Path>, p: Path, r: Reply)
    ensures todo - {p} <= TodoOf(OnPruneRemove(job, l, i, todo, p, r).pc)
  {
    PrunedTodo(job, l.(swept := l.swept && !(p.Backup? && r.Err?)), i);
  }

  lemma OnlyPruningLists(job: Job, l: Local, op: Op)
    requires InBounds(job, l) && Allows(job, l, op) && op.List?
    ensures l.pc.AtPruneList?
  {
  }

  lemma WorkStep(env: Env, job: Job, l: Local, past: seq<Event>, e: Event, l': Local)
    requires InBounds(job, l) && Allows(job, l, e.op) && Working(job, l, past) && l' == Recv(env, job, l, e.op, e.reply)
    ensures Working(job, l', past + [e])
  {
    if e.op.List? { OnlyPruningLists(job, l, e.op); }
    if l.pc.AtPruneList? {
      ListTodo(job, l, l.pc.i, e.reply);
    } else if l.pc.AtPruneRemove? {
      RemoveTodo(job, l, l.pc.i, l.pc.todo, e.op.path, e.reply);
    }
    WorkingStep(job, l, past, e, l');
  }

  lemma {:induction false} RunWorks(env: Env, job: Job, fs0: Files, run: seq<Event>, l: Local, fs: Files)
    requires job.WellFormed() && Reaches(env, job, fs0, run, l, fs)
    ensures Working(job, l, run)
  {
    if run != [] {
      var past, e := run[..|run| - 1], run[|run| - 1];
      assert run == past + [e];
      var m := LastStep(env, job, fs0, run, l, fs);
      RunWorks(env, job, fs0, past, m.l, m.fs);
      WorkStep(env, job, m.l, past, e, l);
    }
  }

  // How many destinations have been listed.
  function ListedTo(job: Job, pc: PC): nat {
    match pc
    case AtPruneList(i) => i
    case AtPruneRemove(i, _) => i + 1
    case AtCleanTemps(_, o) => if o.Deployed? && job.Keep() > 0 then job.N() else 0
    case AtEnd(o) => if o.Deployed? && job.Keep() > 0 then job.N() else 0
    case _ => 0
  }

  lemma ListedExtends(job: Job, past: seq<Event>, e: Event, n: nat)
    requires ListedUpTo(job, past, n)
    ensures ListedUpTo(job, past + [e], n)
    ensures n < job.N() && e.op == List(job.files[n].abs) ==> ListedUpTo(job, past + [e], n + 1)
  {
    var run := past + [e];
    forall j | 0 <= j < n && j < job.N()
      ensures exists k :: 0 <= k < |run| && run[k].op == List(job.files[j].abs)
    {
      var k :| 0 <= k < |past| && past[k].op == List(job.files[j].abs);
      assert run[k] == past[k];
    }
    assert run[|past|] == e;
  }

  lemma PrunedListed(job: Job, l: Local, i: nat)
    requires i < job.N()
    ensures ListedTo(job, Pruned(job, l, i).pc) <= i + 1
  {
  }

  lemma SuccessListed(job: Job, l: Local)
    ensures ListedTo(job, Success(job, l).pc) == 0
  {
  }

  lemma TempListed(env: Env, job: Job, l: Local, i: nat, stage: Stage, p: Path, r: Reply)
    requires i < |l.preps| && p.Temp?
    ensures ListedTo(job, OnTemp(env, job, l, i, stage, p, r).pc) == 0
    ensures ListedTo(job, OnRestoreTemp(env, job, l, i, stage, p, r).pc) == 0
  {
  }

  lemma LookListed(env: Env, job: Job, l: Local, i: nat, info: Option<Info>)
    requires i < job.N()
    ensures ListedTo(job, Resolved(env, job, l, i, info).pc) == 0
  {
  }

  lemma ReadListed(job: Job, l: Local, i: nat, r: Reply)
    requires i < |l.preps|
    ensures ListedTo(job, OnBackupRead(job, l, i, r).pc) == 0 && ListedTo(job, OnBackupStat(job, l, i, r).pc) == 0
    ensures ListedTo(job, AfterBackup(job, l, i).pc) == 0
  {
  }

  lemma WriteListed(job: Job, l: Local, i: nat, stamp: nat, r: Reply)
    requires i < |l.preps|
    ensures ListedTo(job, OnBackupWrite(job, l, i, stamp, r).pc) == 0
    ensures ListedTo(job, OnBackupCleanup(job, l, i).pc) == 0
  {
  }

  lemma EarlyListed(env: Env, job: Job, l: Local, op: Op, r: Reply)
    requires InBounds(job, l) && Allows(job, l, op) && Before(l.pc)
    ensures ListedTo(job, Recv(env, job, l, op, r).pc) == 0
  {
    match l.pc
    case AtCtx =>
    case AtIdem(i) => LookListed(env, job, l, i, l.info);
    case AtStat(i) =>
      var info := if r.Stats? then Some(r.info) else None;
      LookListed(env, job, l.(info := info), i, info);
    case AtBackupRead(i) => ReadListed(job, l, i, r);
    case AtBackupStat(i) => ReadListed(job, l, i, r);
    case AtBackupWrite(i) => WriteListed(job, l, i, op.path.stamp, r);
    case AtBackupChown(i) => ReadListed(job, l, i, r);
    case AtBackupCleanup(i) => WriteListed(job, l, i, 0, r);
  }

  lemma CommitListed(job: Job, l: Local, i: nat, r: Reply)
    ensures ListedTo(job, OnPre(l, r).pc) == 0 && ListedTo(job, OnPost2(l, r).pc) == 0
    ensures ListedTo(job, OnRename(job, l, i, r).pc) == 0 && ListedTo(job, OnPost(job, l, r).pc) == 0
  {
    SuccessListed(job, l.(done := i + 1));
    SuccessListed(job, l.(post := l.post + 1));
  }

  lemma RestoreListed(job: Job, l: Local, i: nat, r: Reply)
    requires i < |l.preps|
    ensures ListedTo(job, OnRestore(job, l, i, r).pc) == 0 && ListedTo(job, OnRestoreRename(job, l, i, r).pc) == 0
  {
  }

  lemma MidListed(env: Env, job: Job, l: Local, op: Op, r: Reply)
    requires InBounds(job, l) && Allows(job, l, op) && !Before(l.pc)
    requires !l.pc.AtPruneList? && !l.pc.AtPruneRemove? && !l.pc.AtCleanTemps?
    ensures ListedTo(job, Recv(env, job, l, op, r).pc) == 0
  {
    match l.pc
    case AtTemp(i, stage) => TempListed(env, job, l, i, stage, StagePath(job, l, i, stage, op), r);
    case AtRestoreTemp(i, stage) => TempListed(env, job, l, i, stage, StagePath(job, l, i, stage, op), r);
    case AtPre => CommitListed(job, l, 0, r);
    case AtRename(i) => CommitListed(job, l, i, r);
    case AtPost => CommitListed(job, l, 0, r);
    case AtPost2 => CommitListed(job, l, 0, r);
    case AtRestore(i) => RestoreListed(job, l, i, r);
    case AtRestoreRename(i) => RestoreListed(job, l, i, r);
  }

  lemma PruneListed(job: Job, l: Local, i: nat, todo: set<Path>, p: Path, r: Reply)
    requires i < job.N()
    ensures ListedTo(job, OnPruneList(job, l, i, r).pc) <= i + 1
    ensures ListedTo(job, OnPruneRemove(job, l, i, todo, p, r).pc) <= i + 1
  {
    PrunedListed(job, l.(swept := l.swept && r.Names?), i);
    PrunedListed(job, l.(swept := l.swept && !(p.Backup? && r.Err?)), i);
  }

  lemma CleanListed(job: Job, l: Local, i: nat, next: Outcome, r: Reply)
    requires i < |l.preps| && i < job.N()
    ensures ListedTo(job, OnCleanTemps(job, l, i, next, r).pc) == ListedTo(job, AtCleanTemps(i, next))
  {
  }

  // A step lists at most the destination the janitor is at.
  lemma StepListed(env: Env, job: Job, l: Local, op: Op, r: Reply)
    requires InBounds(job, l) && Allows(job, l, op) && !Before(l.pc)
    ensures var n := ListedTo(job, Recv(env, job, l, op, r).pc);
            n <= ListedTo(job, l.pc) || (l.pc.AtPruneList? && n <= l.pc.i + 1)
  {
    match l.pc
    case AtPruneList(i) => PruneListed(job, l, i, {}, Live(""), r);
    case AtPruneRemove(i, todo) => PruneListed(job, l, i, todo, op.path, r);
    case AtCleanTemps(i, next) => CleanListed(job, l, i, next, r);
    case _ => MidListed(env, job, l, op, r);
  }

  lemma ListedStep(env: Env, job: Job, l: Local, past: seq<Event>, e: Event, l': Local)
    requires InBounds(job, l) && Allows(job, l, e.op) && ListedUpTo(job, past, ListedTo(job, l.pc))
    requires l' == Recv(env, job, l, e.op, e.reply)
    ensures ListedUpTo(job, past + [e], ListedTo(job, l'.pc))
  {
    ListedExtends(job, past, e, ListedTo(job, l.pc));
    if Before(l.pc) { EarlyListed(env, job, l, e.op, e.reply); } else { StepListed(env, job, l, e.op, e.reply); }
  }

  lemma {:induction false} RunLists(env: Env, job: Job, fs0: Files, run: seq<Event>, l: Local, fs: Files)
    requires job.WellFormed() && Reaches(env, job, fs0, run, l, fs)
    ensures ListedUpTo(job, run, ListedTo(job, l.pc))
  {
    if run != [] {
      var past, e := run[..|run| - 1], run[|run| - 1];
      assert run == past + [e];
      var m := LastStep(env, job, fs0, run, l, fs);
      RunLists(env, job, fs0, past, m.l, m.fs);
      ListedStep(env, job, m.l, past, e, l);
    }
  }

  // A successful call with retention has listed the backups of every destination,
  // and tried to remove each file beyond retention in every listing that worked,
  // whatever became of the others.
  lemma JanitorTriesAll(env: Env, job: Job, fs0: Files, run: seq<Event>, l: Local, fs: Files)
    requires job.WellFormed() && Reaches(env, job, fs0, run, l, fs) && l.pc == AtEnd(Deployed) && job.Keep() > 0
    ensures ListedUpTo(job, run, job.N()) && WorkedOff(job, run, {})
  {
    RunWorks(env, job, fs0, run, l, fs);
    assert TodoOf(l.pc) == {};
    RunLists(env, job, fs0, run, l, fs);
    assert ListedTo(job, l.pc) == job.N();
  }

  // ----- destinations -----

  // The event is a failed step of the restore of d. A chown that fails is
  // forgiven unless the process is root.
  predicate Hurts(env: Env, e: Event, d: string) {
    && (e.reply.Err? || e.reply.Torn?)
    && match e.op
       case Read(p) => p.Backup? && p.of == d
       case Open(p) => p.of == d
       case Write(p, _) => p.of == d
       case Sync(p) => p.of == d
       case Close(p) => p.of == d
       case Chmod(p, _) => p.of == d
       case Chown(p, _, _) => p.Temp? && p.of == d && env.root
       case Rename(p, _) => p.of == d
       case Remove(p) => p == Live(d)
       case _ => false
  }

  ghost predicate Hurt(env: Env, run: seq<Event>, d: string) { exists k :: 0 <= k < |run| && Hurts(env, run[k], d) }

  lemma HurtExtends(env: Env, past: seq<Event>, e: Event, d: string)
    ensures Hurt(env, past, d) || Hurts(env, e, d) ==> Hurt(env, past + [e], d)
  {
    var run := past + [e];
    assert run[|past|] == e;
    if k :| 0 <= k < |past| && Hurts(env, past[k], d) { assert run[k] == past[k]; }
  }

  ghost predicate BackOrHurt(env: Env, job: Job, fs0: Files, l: Local, fs: Files, run: seq<Event>, j: nat)
    requires j < job.N() && j < |l.preps|
  {
    IsBack(env, job, fs0, l, fs, j) || Hurt(env, run, job.files[j].abs)
  }

  ghost predicate Restores(env: Env, job: Job, fs0: Files, l: Local, fs: Files, run: seq<Event>) {
    && (forall j :: 0 <= j < l.undone && j < job.N() && j < |l.preps| ==> BackOrHurt(env, job, fs0, l, fs, run, j))
    && (l.pc.AtRestoreTemp? && l.pc.stage.SDrop? && l.pc.i < job.N() ==> Hurt(env, run, job.files[l.pc.i].abs))
  }

  // ----- steps that undo nothing -----

  lemma LookUndoes(env: Env, job: Job, l: Local, i: nat, info: Option<Info>)
    requires i < job.N()
    ensures Resolved(env, job, l, i, info).undone == l.undone && !Restoring(Resolved(env, job, l, i, info).pc)
  {
  }

  lemma ReadUndoes(job: Job, l: Local, i: nat, r: Reply)
    requires i < |l.preps|
    ensures var l' := OnBackupRead(job, l, i, r); l'.undone == l.undone && !Restoring(l'.pc)
    ensures var l' := OnBackupStat(job, l, i, r); l'.undone == l.undone && !Restoring(l'.pc)
    ensures var l' := AfterBackup(job, l, i); l'.undone == l.undone && !Restoring(l'.pc)
  {
  }

  lemma WriteUndoes(job: Job, l: Local, i: nat, stamp: nat, r: Reply)
    requires i < |l.preps|
    ensures var l' := OnBackupWrite(job, l, i, stamp, r); l'.undone == l.undone && !Restoring(l'.pc)
    ensures var l' := OnBackupCleanup(job, l, i); l'.undone == l.undone && !Restoring(l'.pc)
  {
  }

  lemma TempUndoes(env: Env, job: Job, l: Local, i: nat, stage: Stage, p: Path, r: Reply)
    requires i < |l.preps| && p.Temp?
    ensures var l' := OnTemp(env, job, l, i, stage, p, r); l'.undone == l.undone && !Restoring(l'.pc)
  {
  }

  lemma SuccessUndoes(job: Job, l: Local)
    ensures Success(job, l).undone == l.undone && !Restoring(Success(job, l).pc)
  {
  }

  // From a rename or the reload it goes to the first restore at most.
  lemma CommitUndoes(job: Job, l: Local, i: nat, r: Reply)
    ensures var l' := OnPre(l, r); l'.undone == l.undone && !Restoring(l'.pc)
    ensures var l' := OnPost2(l, r); l'.undone == l.undone && !Restoring(l'.pc) && l'.preps == l.preps
    ensures var l' := OnRename(job, l, i, r); l'.undone == l.undone && (!Restoring(l'.pc) || l'.pc == AtRestore(0))
    ensures var l' := OnPost(job, l, r); l'.undone == l.undone && (!Restoring(l'.pc) || l'.pc == AtRestore(0))
  {
    SuccessUndoes(job, l.(done := i + 1));
    SuccessUndoes(job, l.(post := l.post + 1));
  }

  lemma PrunedUndoes(job: Job, l: Local, i: nat)
    ensures Pruned(job, l, i).undone == l.undone && !Restoring(Pruned(job, l, i).pc)
  {
  }

  lemma PruneUndoes(job: Job, l: Local, i: nat, todo: set<Path>, p: Path, r: Reply)
    ensures var l' := OnPruneList(job, l, i, r); l'.undone == l.undone && !Restoring(l'.pc)
    ensures var l' := OnPruneRemove(job, l, i, todo, p, r); l'.undone == l.undone && !Restoring(l'.pc)
  {
    PrunedUndoes(job, l.(swept := l.swept && r.Names?), i);
    PrunedUndoes(job, l.(swept := l.swept && !(p.Backup? && r.Err?)), i);
  }

  lemma CleanUndoes(job: Job, l: Local, i: nat, next: Outcome, r: Reply)
    requires i < |l.preps| && i < job.N()
    ensures var l' := OnCleanTemps(job, l, i, next, r);
            l'.undone == l.undone && !Restoring(l'.pc) && l'.preps == l.preps
  {
  }

  lemma FirstUndoes(env: Env, job: Job, l: Local, i: nat, r: Reply)
    requires i < job.N()
    ensures var l' := OnIdem(env, job, l, i, r); l'.undone == l.undone && !Restoring(l'.pc)
    ensures var l' := OnStat(env, job, l, i, r); l'.undone == l.undone && !Restoring(l'.pc)
  {
    var info := if r.Stats? then Some(r.info) else None;
    LookUndoes(env, job, l, i, l.info);
    LookUndoes(env, job, l.(info := info), i, info);
  }

  lemma EarlyUndoes(env: Env, job: Job, l: Local, op: Op, r: Reply)
    requires InBounds(job, l) && Allows(job, l, op) && Before(l.pc)
    ensures var l' := Recv(env, job, l, op, r); l'.undone == l.undone && !Restoring(l'.pc)
  {
    match l.pc
    case AtCtx =>
    case AtIdem(i) => FirstUndoes(env, job, l, i, r);
    case AtStat(i) => FirstUndoes(env, job, l, i, r);
    case AtBackupRead(i) => ReadUndoes(job, l, i, r);
    case AtBackupStat(i) => ReadUndoes(job, l, i, r);
    case AtBackupWrite(i) => WriteUndoes(job, l, i, op.path.stamp, r);
    case AtBackupChown(i) => ReadUndoes(job, l, i, r);
    case AtBackupCleanup(i) => WriteUndoes(job, l, i, 0, r);
  }

  lemma LaterUndoes(env: Env, job: Job, l: Local, op: Op, r: Reply)
    requires InBounds(job, l) && Allows(job, l, op) && !Before(l.pc) && !Restoring(l.pc)
    ensures var l' := Recv(env, job, l, op, r); l'.undone == l.undone && (!Restoring(l'.pc) || l'.pc == AtRestore(0))
    ensures l.pc.AtPost2? || l.pc.AtCleanTemps? ==> Recv(env, job, l, op, r).preps == l.preps
  {
    match l.pc
    case AtTemp(i, stage) => TempUndoes(env, job, l, i, stage, StagePath(job, l, i, stage, op), r);
    case AtPre => CommitUndoes(job, l, 0, r);
    case AtRename(i) => CommitUndoes(job, l, i, r);
    case AtPost => CommitUndoes(job, l, 0, r);
    case AtPost2 => CommitUndoes(job, l, 0, r);
    case AtPruneList(i) => PruneUndoes(job, l, i, {}, Live(""), r);
    case AtPruneRemove(i, todo) => PruneUndoes(job, l, i, todo, op.path, r);
    case AtCleanTemps(i, next) => CleanUndoes(job, l, i, next, r);
  }

  // Where a call can be that has undone something.
  lemma UndoneWhere(env: Env, job: Job, fs0: Files, l: Local)
    requires PCInv(env, job, fs0, l) && l.undone > 0
    ensures Restoring(l.pc) || l.pc.AtPost2? || l.pc.AtCleanTemps? || l.pc.AtEnd?
    ensures Restoring(l.pc) ==> l.pc.i == l.undone
  {
  }

  // ----- what is undone stays -----

  lemma RollingTouches(job: Job, l: Local, op: Op, d: string)
    requires InBounds(job, l) && Allows(job, l, op) && Touches(op, Live(d))
    requires Restoring(l.pc) || l.pc.AtPost2? || l.pc.AtCleanTemps?
    ensures Restoring(l.pc) && d == job.files[l.pc.i].abs
  {
  }

  lemma UndoneStays(env: Env, job: Job, fs0: Files, l: Local, fs: Files, op: Op, r: Reply, j: nat)
    requires Step(env, job, fs0, l, fs, op, r) && j < l.undone && j < job.N()
    ensures SameAt(fs, Effect(env, fs, op, r), Live(job.files[j].abs))
  {
    UndoneWhere(env, job, fs0, l);
    if Touches(op, Live(job.files[j].abs)) { RollingTouches(job, l, op, job.files[j].abs); }
    EffectFrame(env, fs, op, r, Live(job.files[j].abs));
  }

  // A destination undone before the step.
  lemma BackStays(env: Env, job: Job, fs0: Files, l: Local, fs: Files, past: seq<Event>, e: Event, l': Local,
                  fs': Files, j: nat)
    requires Step(env, job, fs0, l, fs, e.op, e.reply) && Restores(env, job, fs0, l, fs, past)
    requires fs' == Effect(env, fs, e.op, e.reply) && l'.preps == l.preps
    requires j < l.undone && j < job.N() && j < |l.preps|
    ensures BackOrHurt(env, job, fs0, l', fs', past + [e], j)
  {
    assert BackOrHurt(env, job, fs0, l, fs, past, j);
    UndoneStays(env, job, fs0, l, fs, e.op, e.reply, j);
    HurtExtends(env, past, e, job.files[j].abs);
  }

  lemma ElsewhereRestores(env: Env, job: Job, fs0: Files, l: Local, fs: Files, past: seq<Event>, e: Event, l': Local,
                          fs': Files)
    requires Step(env, job, fs0, l, fs, e.op, e.reply) && Restores(env, job, fs0, l, fs, past) && !Restoring(l.pc)
    requires l' == Recv(env, job, l, e.op, e.reply) && fs' == Effect(env, fs, e.op, e.reply)
    ensures Restores(env, job, fs0, l', fs', past + [e])
  {
    if Before(l.pc) {
      EarlyUndoes(env, job, l, e.op, e.reply);
    } else {
      LaterUndoes(env, job, l, e.op, e.reply);
    }
    if l.undone > 0 {
      UndoneWhere(env, job, fs0, l);
      forall j | 0 <= j < l'.undone && j < job.N() && j < |l'.preps|
        ensures BackOrHurt(env, job, fs0, l', fs', past + [e], j)
      {
        BackStays(env, job, fs0, l, fs, past, e, l', fs', j);
      }
    }
  }

  // ----- the destination in hand -----

  // The restore of destination i is over.
  lemma RestoredOne(env: Env, job: Job, fs0: Files, l: Local, fs: Files, past: seq<Event>, e: Event, m: Local,
                    l': Local, fs': Files, i: nat, failed: bool)
    requires Step(env, job, fs0, l, fs, e.op, e.reply) && Restores(env, job, fs0, l, fs, past)
    requires Restoring(l.pc) && l.pc.i == i && fs' == Effect(env, fs, e.op, e.reply)
    requires m == l.(stuck := m.stuck) && l' == Restored(job, m, i, failed)
    requires if failed then Hurt(env, past + [e], job.files[i].abs) else IsBack(env, job, fs0, l, fs', i)
    ensures Restores(env, job, fs0, l', fs', past + [e])
  {
    RestoredShape(job, m, i, failed);
    forall j | 0 <= j < l'.undone && j < job.N() && j < |l'.preps|
      ensures BackOrHurt(env, job, fs0, l', fs', past + [e], j)
    {
      if j < i {
        BackStays(env, job, fs0, l, fs, past, e, l', fs', j);
      } else {
        HurtExtends(env, past, e, job.files[i].abs);
      }
    }
  }

  lemma RestoredShape(job: Job, l: Local, i: nat, failed: bool)
    ensures var l' := Restored(job, l, i, failed);
            l'.undone == i + 1 && l'.preps == l.preps && !l'.pc.AtRestoreTemp? && !l'.pc.AtRestoreRename?
  {
  }

  // It goes on: what was undone before stays so.
  lemma GoesOn(env: Env, job: Job, fs0: Files, l: Local, fs: Files, past: seq<Event>, e: Event, l': Local, fs': Files)
    requires Step(env, job, fs0, l, fs, e.op, e.reply) && Restores(env, job, fs0, l, fs, past) && Restoring(l.pc)
    requires fs' == Effect(env, fs, e.op, e.reply) && l'.preps == l.preps && l'.undone == l.undone
    requires (l'.pc.AtRestoreTemp? || l'.pc.AtRestoreRename?) && l'.pc.i == l.pc.i
    requires l'.pc.AtRestoreTemp? && l'.pc.stage.SDrop? ==>
               Hurts(env, e, job.files[l.pc.i].abs) || Hurt(env, past, job.files[l.pc.i].abs)
    ensures Restores(env, job, fs0, l', fs', past + [e])
  {
    HurtExtends(env, past, e, job.files[l.pc.i].abs);
    forall j | 0 <= j < l'.undone && j < job.N() && j < |l'.preps|
      ensures BackOrHurt(env, job, fs0, l', fs', past + [e], j)
    {
      BackStays(env, job, fs0, l, fs, past, e, l', fs', j);
    }
  }

  lemma StartRestores(env: Env, job: Job, fs0: Files, l: Local, fs: Files, past: seq<Event>, e: Event, l': Local,
                      fs': Files, i: nat)
    requires Step(env, job, fs0, l, fs, e.op, e.reply) && Restores(env, job, fs0, l, fs, past) && l.pc == AtRestore(i)
    requires l' == OnRestore(job, l, i, e.reply) && fs' == Effect(env, fs, e.op, e.reply)
    ensures Restores(env, job, fs0, l', fs', past + [e])
  {
    HurtExtends(env, past, e, job.files[i].abs);
    if l.preps[i].backup.None? {
      RestoredOne(env, job, fs0, l, fs, past, e, l, l', fs', i, e.reply.Err?);
    } else if e.reply.Data? {
      GoesOn(env, job, fs0, l, fs, past, e, l', fs');
    } else {
      RestoredOne(env, job, fs0, l, fs, past, e, l, l', fs', i, true);
    }
  }

  // A stage that does not lead to the next one failed.
  lemma StageHurts(env: Env, job: Job, l: Local, fs: Files, e: Event, i: nat, stage: Stage)
    requires InBounds(job, l) && l.pc == AtRestoreTemp(i, stage) && Allows(job, l, e.op) && Permitted(fs, e.op, e.reply)
    requires match stage
             case SOpen => !e.reply.Made?
             case SChown => !e.reply.Ok? && env.root
             case SDrop => false
             case _ => !e.reply.Ok?
    ensures Hurts(env, e, job.files[i].abs)
  {
  }

  lemma TempRestores(env: Env, job: Job, fs0: Files, l: Local, fs: Files, past: seq<Event>, e: Event, l': Local,
                     fs': Files, i: nat, stage: Stage, p: Path)
    requires Step(env, job, fs0, l, fs, e.op, e.reply) && Restores(env, job, fs0, l, fs, past)
    requires l.pc == AtRestoreTemp(i, stage) && p == StagePath(job, l, i, stage, e.op)
    requires l' == OnRestoreTemp(env, job, l, i, stage, p, e.reply) && fs' == Effect(env, fs, e.op, e.reply)
    ensures Restores(env, job, fs0, l', fs', past + [e])
  {
    HurtExtends(env, past, e, job.files[i].abs);
    if stage.SDrop? {
      RestoredOne(env, job, fs0, l, fs, past, e, NoteRemove(l, p, e.reply), l', fs', i, true);
    } else if stage.SOpen? && !e.reply.Made? {
      StageHurts(env, job, l, fs, e, i, stage);
      RestoredOne(env, job, fs0, l, fs, past, e, l, l', fs', i, true);
    } else {
      if l'.pc == AtRestoreTemp(i, SDrop) { StageHurts(env, job, l, fs, e, i, stage); }
      GoesOn(env, job, fs0, l, fs, past, e, l', fs');
    }
  }

  lemma RenameRestores(env: Env, job: Job, fs0: Files, l: Local, fs: Files, past: seq<Event>, e: Event, l': Local,
                       fs': Files, i: nat)
    requires Step(env, job, fs0, l, fs, e.op, e.reply) && Restores(env, job, fs0, l, fs, past)
    requires l.pc == AtRestoreRename(i)
    requires l' == OnRestoreRename(job, l, i, e.reply) && fs' == Effect(env, fs, e.op, e.reply)
    ensures Restores(env, job, fs0, l', fs', past + [e])
  {
    if e.reply.Ok? {
      assert HasOld(job, fs0, l, i);
      RestoredOne(env, job, fs0, l, fs, past, e, l, l', fs', i, false);
    } else {
      GoesOn(env, job, fs0, l, fs, past, e, l', fs');
    }
  }

  lemma RestoresStep(env: Env, job: Job, fs0: Files, l: Local, fs: Files, past: seq<Event>, e: Event, l': Local,
                     fs': Files)
    requires Step(env, job, fs0, l, fs, e.op, e.reply) && Restores(env, job, fs0, l, fs, past)
    requires l' == Recv(env, job, l, e.op, e.reply) && fs' == Effect(env, fs, e.op, e.reply)
    ensures Restores(env, job, fs0, l', fs', past + [e])
  {
    match l.pc
    case AtRestore(i) => StartRestores(env, job, fs0, l, fs, past, e, l', fs', i);
    case AtRestoreTemp(i, stage) =>
      TempRestores(env, job, fs0, l, fs, past, e, l', fs', i, stage, StagePath(job, l, i, stage, e.op));
    case AtRestoreRename(i) => RenameRestores(env, job, fs0, l, fs, past, e, l', fs', i);
    case _ => ElsewhereRestores(env, job, fs0, l, fs, past, e, l', fs');
  }

  lemma RestoresNext(env: Env, job: Job, fs0: Files, past: seq<Event>, l: Local, fs: Files, e: Event, l': Local,
                     fs': Files)
    requires job.WellFormed() && Reaches(env, job, fs0, past, l, fs) && Restores(env, job, fs0, l, fs, past)
    requires StepOf(env, job, State(l, fs), e, State(l', fs'))
    ensures Restores(env, job, fs0, l', fs', past + [e])
  {
    RunKeepsInvariant(env, job, fs0, past, l, fs);
    RestoresStep(env, job, fs0, l, fs, past, e, l', fs');
  }

  lemma {:induction false} RunRestores(env: Env, job: Job, fs0: Files, run: seq<Event>, l: Local, fs: Files)
    requires job.WellFormed() && Reaches(env, job, fs0, run, l, fs)
    ensures Restores(env, job, fs0, l, fs, run)
  {
    if run != [] {
      var past, e := run[..|run| - 1], run[|run| - 1];
      assert run == past + [e];
      var m := LastStep(env, job, fs0, run, l, fs);
      RunRestores(env, job, fs0, past, m.l, m.fs);
      RestoresNext(env, job, fs0, past, m.l, m.fs, e, l, fs);
    }
  }

  // After any rollback, one that reports failure included, every renamed
  // destination has its old bytes again, or is gone again if there was none,
  // unless a step of its own restore failed.
  lemma RestoreGoesOn(env: Env, job: Job, fs0: Files, run: seq<Event>, l: Local, fs: Files, o: Outcome, j: nat)
    requires Ran(env, job, fs0, run, l, fs) && l.pc == AtEnd(o) && job.retention != -1
    requires (o.Stranded? || o.RolledBack? || o.RenameFailed?) && j < l.done
    ensures j < job.N() && (BytesAt(fs, Live(job.files[j].abs)) == BytesAt(fs0, Live(job.files[j].abs))
                            || Hurt(env, run, job.files[j].abs))
  {
    Facts(env, job, fs0, run, l, fs);
    RunRestores(env, job, fs0, run, l, fs);
    assert PrepAt(env, job, fs0, l, j);
    assert BackOrHurt(env, job, fs0, l, fs, run, j);
  }
}
