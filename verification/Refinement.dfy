/** When a call changes nothing, and how AtomicWriteFile agrees with Apply. */
module Refinement {
  import opened Common
  import opened FileSystem
  import opened Ownership
  import opened Protocol
  import opened Progress
  import opened Invariant
  import opened Safety
  import opened Runs
  import opened Guarantees
  import opened Campaigns

  predicate NoErrors(run: seq<Event>) { forall k :: 0 <= k < |run| ==> !run[k].reply.Err? }

  ghost predicate EveryMatches(env: Env, job: Job, fs: Files) {
    forall j :: 0 <= j < job.N() ==> Matches(env, job, fs, j)
  }

  // Still comparing, or done with comparing and skipped.
  predicate Idle(job: Job, l: Local) {
    || l.pc.AtCtx? || l.pc.AtIdem? || (l.pc == AtStat(0) && job.solo) || l.pc == AtEnd(Skipped)
  }

  lemma IdleStep(env: Env, job: Job, fs0: Files, l: Local, op: Op, r: Reply)
    requires job.WellFormed() && !job.skipIdempotent && EveryMatches(env, job, fs0)
    requires InBounds(job, l) && Idle(job, l) && Allows(job, l, op) && Permitted(fs0, op, r) && !r.Err?
    ensures Idle(job, Recv(env, job, l, op, r)) && Effect(env, fs0, op, r) == fs0
    ensures !op.PreCommit? && !op.PostCommit?
  {
    match l.pc
    case AtIdem(i) => assert Matches(env, job, fs0, i);
    case AtStat(i) => assert Matches(env, job, fs0, i);
    case AtCtx =>
  }

  lemma {:induction false} StaysIdle(env: Env, job: Job, fs0: Files, run: seq<Event>, l: Local, fs: Files)
    requires job.WellFormed() && !job.skipIdempotent && EveryMatches(env, job, fs0)
    requires Reaches(env, job, fs0, run, l, fs) && NoErrors(run)
    ensures Idle(job, l) && fs == fs0 && Pres(run) == 0 && Posts(run) == 0
  {
    if run != [] {
      var past, e := run[..|run| - 1], run[|run| - 1];
      var s := Exec(env, job, fs0, past).value;
      assert forall k :: 0 <= k < |past| ==> past[k] == run[k];
      StaysIdle(env, job, fs0, past, s.l, s.fs);
      IdleStep(env, job, fs0, s.l, e.op, e.reply);
    }
  }

  // Without errors on the way, a call skips exactly when every destination
  // already has the bytes and skipping is allowed; then it has done nothing.
  lemma SkipsExactly(env: Env, job: Job, fs0: Files, run: seq<Event>, l: Local, fs: Files, o: Outcome)
    requires job.WellFormed() && Reaches(env, job, fs0, run, l, fs) && NoErrors(run) && l.pc == AtEnd(o)
    ensures o.Skipped? <==> !job.skipIdempotent && EveryMatches(env, job, fs0)
    ensures o.Skipped? ==> fs == fs0 && Pres(run) == 0 && Posts(run) == 0
  {
    RunKeepsInvariant(env, job, fs0, run, l, fs);
    if !job.skipIdempotent && EveryMatches(env, job, fs0) { StaysIdle(env, job, fs0, run, l, fs); }
  }

  // Applying a plan that has just succeeded calls no hook and changes nothing.
  lemma ReapplyDoesNothing(env: Env, job: Job, fs0: Files, run: seq<Event>, l: Local, fs: Files, o: Outcome,
                           again: seq<Event>, l': Local, fs': Files, o': Outcome)
    requires Arrived(env, job, fs0, run, l, fs) && l.pc == AtEnd(o) && o.Err().NoError? && Injective(env)
    requires o.Skipped? || Orderly(job)
    requires Reaches(env, job, fs, again, l', fs') && NoErrors(again) && l'.pc == AtEnd(o') && !job.skipIdempotent
    ensures o'.Skipped? && fs' == fs && Pres(again) == 0 && Posts(again) == 0
  {
    EveryReturn(env, job, fs0, run, l, fs, o);
    forall j | 0 <= j < job.N()
      ensures Matches(env, job, fs, j)
    {
      assert BytesAt(fs, Live(job.files[j].abs)) == Some(job.files[j].bytes);
    }
    SkipsExactly(env, job, fs, again, l', fs', o');
  }

  // ----- when nothing fails -----

  // The system does what it is asked: only a look at a missing file says so.
  predicate Fine(fs: Files, op: Op, r: Reply) {
    if r.Err? then (op.Stat? || op.Read?) && op.path !in fs else !r.Torn?
  }

  ghost predicate Smooth(env: Env, job: Job, fs0: Files, run: seq<Event>) {
    if run == [] then true
    else
      && Smooth(env, job, fs0, run[..|run| - 1])
      && match Exec(env, job, fs0, run[..|run| - 1])
         case None => true
         case Some(s) => Fine(s.fs, run[|run| - 1].op, run[|run| - 1].reply)
  }

  // On the way to success, or there.
  predicate Going(pc: PC) {
    match pc
    case AtBackupCleanup(_) => false
    case AtTemp(_, stage) => !stage.SDrop?
    case AtRestore(_) => false
    case AtRestoreTemp(_, _) => false
    case AtRestoreRename(_) => false
    case AtPost2 => false
    case AtCleanTemps(_, o) => o.Deployed?
    case AtEnd(o) => o.Skipped? || o.Deployed?
    case _ => true
  }

  ghost predicate AllResolve(env: Env, job: Job, fs0: Files) {
    forall j :: 0 <= j < job.N() ==> Resolution(env, job, fs0, j).Some?
  }

  lemma ResolvedGoes(env: Env, job: Job, fs0: Files, l: Local, i: nat, info: Option<Info>)
    requires i < job.N() && Resolution(env, job, fs0, i).Some?
    requires info == if Live(job.files[i].abs) in fs0 then Some(InfoOf(fs0[Live(job.files[i].abs)])) else None
    ensures Going(Resolved(env, job, l, i, info).pc)
  {
  }

  lemma LookGoes(env: Env, job: Job, fs0: Files, l: Local, fs: Files, op: Op, r: Reply)
    requires Step(env, job, fs0, l, fs, op, r) && Fine(fs, op, r) && Looking(l.pc) && AllResolve(env, job, fs0)
    ensures Going(Recv(env, job, l, op, r).pc)
  {
    match l.pc
    case AtCtx =>
    case AtIdem(i) =>
      assert LiveAt(env, job, fs0, l, fs, i);
      if job.solo { ResolvedGoes(env, job, fs0, l, i, l.info); }
    case AtStat(i) =>
      assert LiveAt(env, job, fs0, l, fs, i);
      var info := if r.Stats? then Some(r.info) else None;
      ResolvedGoes(env, job, fs0, l.(info := info), i, info);
  }

  lemma SaveGoes(env: Env, job: Job, fs0: Files, l: Local, fs: Files, op: Op, r: Reply)
    requires Step(env, job, fs0, l, fs, op, r) && Fine(fs, op, r) && BackingUp(l.pc) && Going(l.pc)
    ensures Going(Recv(env, job, l, op, r).pc)
  {
    assert LiveAt(env, job, fs0, l, fs, l.pc.i);
    assert PrepAt(env, job, fs0, l, l.pc.i);
  }

  lemma TempGoes(env: Env, job: Job, l: Local, i: nat, stage: Stage, p: Path, r: Reply)
    requires i < |l.preps| && p.Temp? && !stage.SDrop? && (if stage.SOpen? then r.Made? else r.Ok?)
    ensures Going(OnTemp(env, job, l, i, stage, p, r).pc)
  {
  }

  lemma CommitGoes(job: Job, l: Local, i: nat)
    ensures Going(OnPre(l, Ok).pc) && Going(OnRename(job, l, i, Ok).pc) && Going(OnPost(job, l, Ok).pc)
  {
    assert Going(Success(job, l.(done := i + 1)).pc) && Going(Success(job, l.(post := l.post + 1)).pc);
  }

  lemma PrunedGoes(job: Job, l: Local, i: nat)
    ensures Going(Pruned(job, l, i).pc)
  {
  }

  lemma PruneGoes(job: Job, l: Local, i: nat, todo: set<Path>, p: Path, r: Reply)
    ensures Going(OnPruneList(job, l, i, r).pc) && Going(OnPruneRemove(job, l, i, todo, p, r).pc)
  {
    PrunedGoes(job, l.(swept := l.swept && r.Names?), i);
    PrunedGoes(job, l.(swept := l.swept && !(p.Backup? && r.Err?)), i);
  }

  lemma CleanGoes(job: Job, l: Local, i: nat, next: Outcome, r: Reply)
    requires i < |l.preps| && i < job.N() && next.Deployed?
    ensures Going(OnCleanTemps(job, l, i, next, r).pc)
  {
  }

  lemma StepGoes(env: Env, job: Job, fs0: Files, l: Local, fs: Files, op: Op, r: Reply)
    requires Step(env, job, fs0, l, fs, op, r) && Fine(fs, op, r) && Going(l.pc) && AllResolve(env, job, fs0)
    ensures Going(Recv(env, job, l, op, r).pc)
  {
    if Looking(l.pc) {
      LookGoes(env, job, fs0, l, fs, op, r);
    } else if BackingUp(l.pc) {
      SaveGoes(env, job, fs0, l, fs, op, r);
    } else {
      LaterGoes(env, job, l, fs, op, r);
    }
  }

  lemma LaterGoes(env: Env, job: Job, l: Local, fs: Files, op: Op, r: Reply)
    requires InBounds(job, l) && Allows(job, l, op) && Permitted(fs, op, r) && Fine(fs, op, r) && Going(l.pc)
    requires !Looking(l.pc) && !BackingUp(l.pc)
    ensures Going(Recv(env, job, l, op, r).pc)
  {
    match l.pc
    case AtTemp(i, stage) => TempGoes(env, job, l, i, stage, StagePath(job, l, i, stage, op), r);
    case AtCleanTemps(i, next) => CleanGoes(job, l, i, next, r);
    case AtPre => CommitGoes(job, l, 0);
    case AtRename(i) => CommitGoes(job, l, i);
    case AtPost => CommitGoes(job, l, 0);
    case AtPruneList(i) => PruneGoes(job, l, i, {}, Live(""), r);
    case AtPruneRemove(i, todo) => PruneGoes(job, l, i, todo, op.path, r);
  }

  lemma {:induction false} SmoothGoes(env: Env, job: Job, fs0: Files, run: seq<Event>, l: Local, fs: Files)
    requires job.WellFormed() && Reaches(env, job, fs0, run, l, fs) && Smooth(env, job, fs0, run)
    requires AllResolve(env, job, fs0)
    ensures Going(l.pc)
  {
    if run != [] {
      var past, e := run[..|run| - 1], run[|run| - 1];
      var s := Exec(env, job, fs0, past).value;
      SmoothGoes(env, job, fs0, past, s.l, s.fs);
      RunKeepsInvariant(env, job, fs0, past, s.l, s.fs);
      StepGoes(env, job, fs0, s.l, s.fs, e.op, e.reply);
    }
  }

  // A call in which every user and group is known and nothing fails ends skipped
  // or deployed, Apply and AtomicWriteFile alike.
  lemma SmoothCallSucceeds(env: Env, job: Job, fs0: Files, run: seq<Event>, l: Local, fs: Files, o: Outcome)
    requires job.WellFormed() && Reaches(env, job, fs0, run, l, fs) && Smooth(env, job, fs0, run) && l.pc == AtEnd(o)
    requires forall j :: 0 <= j < job.N() ==> !LookupFails(env, job, fs0, j)
    ensures o.Skipped? || o.Deployed?
  {
    forall j | 0 <= j < job.N()
      ensures Resolution(env, job, fs0, j).Some?
    {
      ResolutionMeans(env, job, fs0, j);
    }
    SmoothGoes(env, job, fs0, run, l, fs);
  }

  // ----- AtomicWriteFile and the one-file plan -----

  // The same destination bytes, and ownership wherever the plan fixes it.
  predicate SameFile(env: Env, o: Owner, a: File, b: File) {
    && a.bytes == b.bytes && (o.modeSet ==> a.mode == b.mode)
    && (env.root || !o.Chowns() ==> a.uid == b.uid && a.gid == b.gid)
  }

  lemma DeployedFile(env: Env, job: Job, fs0: Files, run: seq<Event>, l: Local, fs: Files)
    requires Ran(env, job, fs0, run, l, fs) && l.pc == AtEnd(Deployed) && job.N() == 1
    ensures Resolution(env, job, fs0, 0).Some? && Live(job.files[0].abs) in fs
    ensures fs[Live(job.files[0].abs)].bytes == job.files[0].bytes
    ensures Owned(env, Resolution(env, job, fs0, 0).value, fs[Live(job.files[0].abs)])
  {
    OneFileIsSpaced(job);
    Facts(env, job, fs0, run, l, fs);
    assert LiveAt(env, job, fs0, l, fs, 0) && PrepAt(env, job, fs0, l, 0);
  }

  // A successful AtomicWriteFile leaves what a successful one-file Apply with
  // the same options leaves: bytes and ownership always, and the same backup
  // contents for every retention, given a clock that moves and, where there is
  // something to prune, a janitor that works.
  lemma AtomicWriteRefinesApply(env: Env, write: Call, apply: Call, fs0: Files, fsW: Files, fsA: Files)
    requires Ran(env, write.job, fs0, write.run, write.l, fsW) && Ran(env, apply.job, fs0, apply.run, apply.l, fsA)
    requires write.job.solo && apply.job == write.job.(solo := false)
    requires write.l.pc == AtEnd(Deployed) && apply.l.pc == AtEnd(Deployed)
    ensures
      var d := write.job.files[0].abs;
      && Live(d) in fsW && Live(d) in fsA && Resolution(env, write.job, fs0, 0).Some?
      && SameFile(env, Resolution(env, write.job, fs0, 0).value, fsW[Live(d)], fsA[Live(d)])
    ensures
      var d := write.job.files[0].abs;
      && ClockMoved(fs0, write.run) && ClockMoved(fs0, apply.run) && Prunes(write, fs0, d) && Prunes(apply, fs0, d)
      ==> History(fsW, d) == History(fsA, d)
  {
    var d := write.job.files[0].abs;
    DeployedFile(env, write.job, fs0, write.run, write.l, fsW);
    DeployedFile(env, apply.job, fs0, apply.run, apply.l, fsA);
    if ClockMoved(fs0, write.run) && ClockMoved(fs0, apply.run) && Prunes(write, fs0, d) && Prunes(apply, fs0, d) {
      HistoryStep(env, write, fs0, fsW, 0, Deployed);
      HistoryStep(env, apply, fs0, fsA, 0, Deployed);
    }
  }

  lemma MatchAlike(env: Env, a: Job, b: Job, fs: Files)
    requires a.files == b.files
    ensures EveryMatches(env, a, fs) <==> EveryMatches(env, b, fs)
  {
    assert forall j :: 0 <= j < a.N() ==> (Matches(env, a, fs, j) <==> Matches(env, b, fs, j));
  }

  // ... and the two make the same decision to skip.
  lemma AtomicWriteSkipsAlike(env: Env, write: Call, apply: Call, fs0: Files, fsW: Files, fsA: Files, oW: Outcome,
                              oA: Outcome)
    requires write.job.solo && apply.job == write.job.(solo := false) && write.job.WellFormed()
    requires Reaches(env, write.job, fs0, write.run, write.l, fsW) && NoErrors(write.run) && write.l.pc == AtEnd(oW)
    requires Reaches(env, apply.job, fs0, apply.run, apply.l, fsA) && NoErrors(apply.run) && apply.l.pc == AtEnd(oA)
    ensures oW.Skipped? <==> oA.Skipped?
  {
    SkipsExactly(env, write.job, fs0, write.run, write.l, fsW, oW);
    SkipsExactly(env, apply.job, fs0, apply.run, apply.l, fsA, oA);
    MatchAlike(env, write.job, apply.job, fs0);
  }
}
