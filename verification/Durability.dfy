/**
 What a run's events say about a temp before it is renamed: it was opened,
 written in full, synced and closed, in that order, and each of these worked.
 */
module Durability {
  import opened Common
  import opened FileSystem
  import opened Ownership
  import opened Protocol
  import opened Progress
  import opened Invariant
  import opened Safety
  import opened Runs
  import opened Events

  // The event is the i-th of the four.
  predicate Does(e: Event, i: nat, p: Path, data: Bytes) {
    match i
    case 0 => e.op == Open(p) && e.reply.Made?
    case 1 => e.op == Write(p, data) && e.reply.Ok?
    case 2 => e.op == Sync(p) && e.reply.Ok?
    case _ => e.op == Close(p) && e.reply.Ok?
  }

  predicate Trail(run: seq<Event>, p: Path, data: Bytes, at: seq<nat>) {
    && (forall i :: 0 <= i < |at| ==> at[i] < |run| && Does(run[at[i]], i, p, data))
    && (forall i, j :: 0 <= i < j < |at| ==> at[i] < at[j])
  }

  // The first m of them have been done, in order.
  ghost predicate Done(run: seq<Event>, p: Path, data: Bytes, m: nat) {
    exists at: seq<nat> :: |at| == m && Trail(run, p, data, at)
  }

  lemma DoneExtends(past: seq<Event>, e: Event, p: Path, data: Bytes, m: nat)
    requires Done(past, p, data, m)
    ensures Done(past + [e], p, data, m)
  {
    var at: seq<nat> :| |at| == m && Trail(past, p, data, at);
    assert Trail(past + [e], p, data, at);
  }

  lemma DoesNext(past: seq<Event>, e: Event, p: Path, data: Bytes, m: nat)
    requires Done(past, p, data, m) && Does(e, m, p, data)
    ensures Done(past + [e], p, data, m + 1)
  {
    var at: seq<nat> :| |at| == m && Trail(past, p, data, at);
    var more := at + [|past|];
    assert (past + [e])[|past|] == e;
    assert Trail(past + [e], p, data, more);
  }

  lemma NothingDone(run: seq<Event>, p: Path, data: Bytes)
    ensures Done(run, p, data, 0)
  {
    assert Trail(run, p, data, []);
  }

  // How much is done when a temp gets to a stage.
  function Steps(stage: Stage): nat {
    match stage
    case SOpen => 0
    case SWrite => 1
    case SSync => 2
    case SClose => 3
    case SChmod => 4
    case SChown => 4
    case SDrop => 0
  }

  // The temp in hand.
  ghost predicate InHand(job: Job, l: Local, run: seq<Event>) {
    match l.pc
    case AtTemp(i, stage) => i < job.N() && Done(run, Temp(job.files[i].abs, l.stamp), job.files[i].bytes, Steps(stage))
    case AtRestoreTemp(i, stage) => i < job.N() && Done(run, Temp(job.files[i].abs, l.stamp), l.data, Steps(stage))
    case AtRestoreRename(i) => i < job.N() && Done(run, Temp(job.files[i].abs, l.stamp), l.data, 4)
    case _ => true
  }

  // The temps the call remembers.
  ghost predicate OnRecord(job: Job, preps: seq<Prep>, run: seq<Event>) {
    forall j :: 0 <= j < |preps| && j < job.N() && preps[j].temp.Some? ==>
      Done(run, Temp(job.files[j].abs, preps[j].temp.value), job.files[j].bytes, 4)
  }

  // ----- the temp in hand -----

  // A stage that worked leads to the next, any other to the removal of the temp.
  predicate Leads(stage: Stage, r: Reply, stage': Stage) {
    || stage'.SDrop?
    || match stage
       case SOpen => stage'.SWrite? && r.Made?
       case SWrite => stage'.SSync? && r.Ok?
       case SSync => stage'.SClose? && r.Ok?
       case SClose => stage'.SChmod? && r.Ok?
       case SChmod => stage'.SChown? && r.Ok?
       case _ => false
  }

  // One stage of a temp, of which the next one needs what e has just done.
  lemma NextStage(past: seq<Event>, e: Event, d: string, stamp: nat, data: Bytes, o: Owner, stage: Stage, stamp': nat,
                  stage': Stage)
    requires AllowsStage(stage, e.op, d, stamp, data, o) && Done(past, Temp(d, stamp), data, Steps(stage))
    requires stamp' == if stage.SOpen? && e.reply.Made? then e.op.path.stamp else stamp
    requires Leads(stage, e.reply, stage')
    ensures Done(past + [e], Temp(d, stamp'), data, Steps(stage'))
  {
    if stage'.SDrop? {
      NothingDone(past + [e], Temp(d, stamp'), data);
    } else if stage.SChmod? {
      DoneExtends(past, e, Temp(d, stamp), data, 4);
    } else {
      if stage.SOpen? { NothingDone(past, Temp(d, stamp'), data); }
      DoesNext(past, e, Temp(d, stamp'), data, Steps(stage));
    }
  }

  // Where a stage of a temp leads.
  lemma TempLeads(env: Env, job: Job, l: Local, i: nat, stage: Stage, p: Path, r: Reply)
    requires i < |l.preps| && p.Temp? && !stage.SChown?
    ensures var l' := OnTemp(env, job, l, i, stage, p, r);
            l'.pc.AtTemp? ==>
              && l'.pc.i == i && l'.stamp == (if stage.SOpen? && r.Made? then p.stamp else l.stamp)
              && Leads(stage, r, l'.pc.stage)
    ensures var pc := OnTemp(env, job, l, i, stage, p, r).pc; !pc.AtRestoreTemp? && !pc.AtRestoreRename?
  {
  }

  lemma TempOwned(env: Env, job: Job, l: Local, i: nat, p: Path, r: Reply)
    requires i < |l.preps| && p.Temp?
    ensures var pc := OnTemp(env, job, l, i, SChown, p, r).pc;
            !pc.AtRestoreTemp? && !pc.AtRestoreRename? && (pc.AtTemp? ==> pc.stage.SOpen? && pc.i == i + 1 < job.N())
  {
  }

  lemma TempHand(env: Env, job: Job, l: Local, past: seq<Event>, e: Event, i: nat, stage: Stage)
    requires InBounds(job, l) && l.pc == AtTemp(i, stage) && Allows(job, l, e.op) && InHand(job, l, past)
    ensures InHand(job, Recv(env, job, l, e.op, e.reply), past + [e])
  {
    var l', d, p := Recv(env, job, l, e.op, e.reply), job.files[i].abs, StagePath(job, l, i, stage, e.op);
    if stage.SChown? {
      TempOwned(env, job, l, i, p, e.reply);
      if l'.pc.AtTemp? { NothingDone(past + [e], Temp(job.files[i + 1].abs, l'.stamp), job.files[i + 1].bytes); }
    } else {
      TempLeads(env, job, l, i, stage, p, e.reply);
      if l'.pc.AtTemp? {
        NextStage(past, e, d, l.stamp, job.files[i].bytes, l.preps[i].owner, stage, l'.stamp, l'.pc.stage);
      }
    }
  }

  lemma RestoreLeads(env: Env, job: Job, l: Local, i: nat, stage: Stage, p: Path, r: Reply)
    requires p.Temp?
    ensures var l' := OnRestoreTemp(env, job, l, i, stage, p, r);
            && (l'.pc.AtRestoreTemp? ==>
                  && l'.pc.i == i && l'.data == l.data
                  && l'.stamp == (if stage.SOpen? && r.Made? then p.stamp else l.stamp)
                  && Leads(stage, r, l'.pc.stage))
            && (l'.pc.AtRestoreRename? ==> stage.SChown? && l'.pc.i == i && l'.data == l.data && l'.stamp == l.stamp)
            && !l'.pc.AtTemp?
  {
  }

  lemma RestoreHand(env: Env, job: Job, l: Local, past: seq<Event>, e: Event, i: nat, stage: Stage)
    requires InBounds(job, l) && l.pc == AtRestoreTemp(i, stage) && Allows(job, l, e.op) && InHand(job, l, past)
    ensures InHand(job, Recv(env, job, l, e.op, e.reply), past + [e])
  {
    var l', d, p := Recv(env, job, l, e.op, e.reply), job.files[i].abs, StagePath(job, l, i, stage, e.op);
    RestoreLeads(env, job, l, i, stage, p, e.reply);
    if l'.pc.AtRestoreTemp? {
      NextStage(past, e, d, l.stamp, l.data, l.preps[i].owner, stage, l'.stamp, l'.pc.stage);
    } else if l'.pc.AtRestoreRename? {
      DoneExtends(past, e, Temp(d, l.stamp), l.data, 4);
    }
  }

  // ----- everything else -----

  // No temp is in hand, or one is only about to be made.
  predicate Empty(pc: PC) {
    match pc
    case AtTemp(_, stage) => stage.SOpen?
    case AtRestoreTemp(_, stage) => stage.SOpen?
    case AtRestoreRename(_) => false
    case _ => true
  }

  lemma EmptyHand(job: Job, l: Local, run: seq<Event>)
    requires InBounds(job, l) && Empty(l.pc)
    ensures InHand(job, l, run)
  {
    match l.pc
    case AtTemp(i, _) => NothingDone(run, Temp(job.files[i].abs, l.stamp), job.files[i].bytes);
    case AtRestoreTemp(i, _) => NothingDone(run, Temp(job.files[i].abs, l.stamp), l.data);
    case _ =>
  }

  // No temp is remembered that was not before.
  predicate NoneMade(l: Local, l': Local) {
    forall j :: 0 <= j < |l'.preps| && l'.preps[j].temp.Some? ==> j < |l.preps| && l'.preps[j].temp == l.preps[j].temp
  }

  lemma ResolvedEmpty(env: Env, job: Job, l: Local, i: nat, info: Option<Info>)
    requires i < job.N()
    ensures Empty(Resolved(env, job, l, i, info).pc) && NoneMade(l, Resolved(env, job, l, i, info))
  {
  }

  lemma LookEmpty(env: Env, job: Job, l: Local, op: Op, r: Reply)
    requires InBounds(job, l) && Allows(job, l, op) && Looking(l.pc)
    ensures Empty(Recv(env, job, l, op, r).pc) && NoneMade(l, Recv(env, job, l, op, r))
  {
    match l.pc
    case AtCtx =>
    case AtIdem(i) => ResolvedEmpty(env, job, l, i, l.info);
    case AtStat(i) =>
      var info := if r.Stats? then Some(r.info) else None;
      ResolvedEmpty(env, job, l.(info := info), i, info);
  }

  lemma ReadEmpty(job: Job, l: Local, i: nat, r: Reply)
    requires i < |l.preps|
    ensures var l' := OnBackupRead(job, l, i, r); Empty(l'.pc) && l'.preps == l.preps
    ensures var l' := OnBackupStat(job, l, i, r); Empty(l'.pc) && l'.preps == l.preps
    ensures var l' := AfterBackup(job, l, i); Empty(l'.pc) && l'.preps == l.preps
  {
  }

  lemma WriteEmpty(job: Job, l: Local, i: nat, stamp: nat, r: Reply)
    requires i < |l.preps|
    ensures var l' := OnBackupWrite(job, l, i, stamp, r); Empty(l'.pc) && NoneMade(l, l')
    ensures var l' := OnBackupCleanup(job, l, i); Empty(l'.pc) && NoneMade(l, l')
  {
  }

  lemma SaveEmpty(env: Env, job: Job, l: Local, op: Op, r: Reply)
    requires InBounds(job, l) && Allows(job, l, op) && BackingUp(l.pc)
    ensures Empty(Recv(env, job, l, op, r).pc) && NoneMade(l, Recv(env, job, l, op, r))
  {
    match l.pc
    case AtBackupRead(i) => ReadEmpty(job, l, i, r);
    case AtBackupStat(i) => ReadEmpty(job, l, i, r);
    case AtBackupWrite(i) => WriteEmpty(job, l, i, op.path.stamp, r);
    case AtBackupChown(i) => ReadEmpty(job, l, i, r);
    case AtBackupCleanup(i) => WriteEmpty(job, l, i, 0, r);
  }

  lemma SuccessEmpty(job: Job, l: Local)
    ensures Empty(Success(job, l).pc) && Success(job, l).preps == l.preps
  {
  }

  lemma CommitEmpty(env: Env, job: Job, l: Local, op: Op, r: Reply)
    requires InBounds(job, l) && Allows(job, l, op) && (l.pc.AtPre? || l.pc.AtRename? || l.pc.AtPost? || l.pc.AtPost2?)
    ensures Empty(Recv(env, job, l, op, r).pc) && Recv(env, job, l, op, r).preps == l.preps
  {
    match l.pc
    case AtRename(i) => SuccessEmpty(job, l.(done := i + 1));
    case AtPost => SuccessEmpty(job, l.(post := l.post + 1));
    case _ =>
  }

  lemma RestoredEmpty(job: Job, l: Local, i: nat, failed: bool)
    ensures Empty(Restored(job, l, i, failed).pc) && Restored(job, l, i, failed).preps == l.preps
  {
  }

  lemma RestoreEmpty(job: Job, l: Local, i: nat, r: Reply)
    requires i < |l.preps|
    ensures Empty(OnRestore(job, l, i, r).pc) && OnRestore(job, l, i, r).preps == l.preps
    ensures var l' := OnRestoreRename(job, l, i, r);
            l'.preps == l.preps && (Empty(l'.pc) || l' == Goto(l, AtRestoreTemp(i, SDrop)))
  {
    RestoredEmpty(job, l, i, true);
    RestoredEmpty(job, l, i, false);
    RestoredEmpty(job, l, i, r.Err?);
  }

  lemma PrunedEmpty(job: Job, l: Local, i: nat)
    ensures Empty(Pruned(job, l, i).pc)
  {
  }

  lemma PruneEmpty(job: Job, l: Local, i: nat, todo: set<Path>, p: Path, r: Reply)
    ensures Empty(OnPruneList(job, l, i, r).pc) && Empty(OnPruneRemove(job, l, i, todo, p, r).pc)
  {
    PrunedEmpty(job, l.(swept := l.swept && r.Names?), i);
    PrunedEmpty(job, l.(swept := l.swept && !(p.Backup? && r.Err?)), i);
  }

  lemma CleanEmpty(job: Job, l: Local, i: nat, next: Outcome, r: Reply)
    requires i < |l.preps| && i < job.N()
    ensures Empty(OnCleanTemps(job, l, i, next, r).pc)
  {
  }

  // ----- every step -----

  lemma HandStep(env: Env, job: Job, l: Local, past: seq<Event>, e: Event, l': Local)
    requires job.WellFormed() && Sane(job, l) && Allows(job, l, e.op) && InHand(job, l, past)
    requires l' == Recv(env, job, l, e.op, e.reply)
    ensures InHand(job, l', past + [e])
  {
    if l.pc.AtTemp? {
      TempHand(env, job, l, past, e, l.pc.i, l.pc.stage);
    } else if l.pc.AtRestoreTemp? {
      RestoreHand(env, job, l, past, e, l.pc.i, l.pc.stage);
    } else if l.pc.AtRestoreRename? {
      RenameHand(env, job, l, past, e, l.pc.i, l');
    } else {
      OtherHand(env, job, l, past, e, l');
    }
  }

  lemma OtherHand(env: Env, job: Job, l: Local, past: seq<Event>, e: Event, l': Local)
    requires job.WellFormed() && Sane(job, l) && Allows(job, l, e.op) && l' == Recv(env, job, l, e.op, e.reply)
    requires !l.pc.AtTemp? && !l.pc.AtRestoreTemp? && !l.pc.AtRestoreRename?
    ensures InHand(job, l', past + [e])
  {
    StepOnward(env, job, l, e.op, e.reply);
    OtherEmpty(env, job, l, e.op, e.reply);
    EmptyHand(job, l', past + [e]);
  }

  lemma RenameHand(env: Env, job: Job, l: Local, past: seq<Event>, e: Event, i: nat, l': Local)
    requires job.WellFormed() && Sane(job, l) && Allows(job, l, e.op) && l.pc == AtRestoreRename(i)
    requires l' == Recv(env, job, l, e.op, e.reply)
    ensures InHand(job, l', past + [e])
  {
    StepOnward(env, job, l, e.op, e.reply);
    RestoreEmpty(job, l, i, e.reply);
    if Empty(l'.pc) {
      EmptyHand(job, l', past + [e]);
    } else {
      NothingDone(past + [e], Temp(job.files[i].abs, l'.stamp), l'.data);
    }
  }

  lemma OtherEmpty(env: Env, job: Job, l: Local, op: Op, r: Reply)
    requires InBounds(job, l) && Allows(job, l, op)
    requires !l.pc.AtTemp? && !l.pc.AtRestoreTemp? && !l.pc.AtRestoreRename?
    ensures Empty(Recv(env, job, l, op, r).pc)
  {
    if Looking(l.pc) {
      LookEmpty(env, job, l, op, r);
    } else if BackingUp(l.pc) {
      SaveEmpty(env, job, l, op, r);
    } else {
      match l.pc
      case AtRestore(i) => RestoreEmpty(job, l, i, r);
      case AtPruneList(i) => PruneEmpty(job, l, i, {}, Live(""), r);
      case AtPruneRemove(i, todo) => PruneEmpty(job, l, i, todo, op.path, r);
      case AtCleanTemps(i, next) => CleanEmpty(job, l, i, next, r);
      case _ => CommitEmpty(env, job, l, op, r);
    }
  }

  // Only a temp that was closed is remembered.
  lemma StepMakesNone(env: Env, job: Job, l: Local, op: Op, r: Reply)
    requires InBounds(job, l) && Allows(job, l, op) && !(l.pc.AtTemp? && l.pc.stage.SClose?)
    ensures NoneMade(l, Recv(env, job, l, op, r))
  {
    if Looking(l.pc) {
      LookEmpty(env, job, l, op, r);
    } else if BackingUp(l.pc) {
      SaveEmpty(env, job, l, op, r);
    } else {
      LaterMakesNone(env, job, l, op, r);
    }
  }

  lemma LaterMakesNone(env: Env, job: Job, l: Local, op: Op, r: Reply)
    requires InBounds(job, l) && Allows(job, l, op) && !(l.pc.AtTemp? && l.pc.stage.SClose?)
    requires !Looking(l.pc) && !BackingUp(l.pc)
    ensures NoneMade(l, Recv(env, job, l, op, r))
  {
    match l.pc
    case AtTemp(i, stage) => TempMakesNone(env, job, l, i, stage, StagePath(job, l, i, stage, op), r);
    case AtRestoreTemp(i, stage) => RestoreTempKeeps(env, job, l, i, stage, StagePath(job, l, i, stage, op), r);
    case AtRestore(i) => RestoreEmpty(job, l, i, r);
    case AtRestoreRename(i) => RestoreEmpty(job, l, i, r);
    case AtPruneList(_) => LateTakesNone(env, job, l, op, r);
    case AtPruneRemove(_, _) => LateTakesNone(env, job, l, op, r);
    case AtCleanTemps(_, _) => LateTakesNone(env, job, l, op, r);
    case _ => CommitEmpty(env, job, l, op, r);
  }

  lemma TempMakesNone(env: Env, job: Job, l: Local, i: nat, stage: Stage, p: Path, r: Reply)
    requires i < |l.preps| && p.Temp? && !stage.SClose?
    ensures NoneMade(l, OnTemp(env, job, l, i, stage, p, r))
  {
  }

  lemma RecordStays(job: Job, l: Local, past: seq<Event>, e: Event, l': Local)
    requires OnRecord(job, l.preps, past) && NoneMade(l, l')
    ensures OnRecord(job, l'.preps, past + [e])
  {
    forall j | 0 <= j < |l'.preps| && j < job.N() && l'.preps[j].temp.Some?
      ensures Done(past + [e], Temp(job.files[j].abs, l'.preps[j].temp.value), job.files[j].bytes, 4)
    {
      DoneExtends(past, e, Temp(job.files[j].abs, l.preps[j].temp.value), job.files[j].bytes, 4);
    }
  }

  lemma RecordClosed(env: Env, job: Job, l: Local, past: seq<Event>, e: Event, i: nat, l': Local)
    requires InBounds(job, l) && l.pc == AtTemp(i, SClose) && Allows(job, l, e.op) && InHand(job, l, past)
    requires OnRecord(job, l.preps, past) && l' == Recv(env, job, l, e.op, e.reply)
    ensures OnRecord(job, l'.preps, past + [e])
  {
    var p := Temp(job.files[i].abs, l.stamp);
    forall j | 0 <= j < |l'.preps| && j < job.N() && l'.preps[j].temp.Some?
      ensures Done(past + [e], Temp(job.files[j].abs, l'.preps[j].temp.value), job.files[j].bytes, 4)
    {
      if j == i && e.reply.Ok? {
        DoesNext(past, e, p, job.files[i].bytes, 3);
      } else {
        DoneExtends(past, e, Temp(job.files[j].abs, l.preps[j].temp.value), job.files[j].bytes, 4);
      }
    }
  }

  lemma RecordStep(env: Env, job: Job, l: Local, past: seq<Event>, e: Event, l': Local)
    requires InBounds(job, l) && Allows(job, l, e.op) && InHand(job, l, past) && OnRecord(job, l.preps, past)
    requires l' == Recv(env, job, l, e.op, e.reply)
    ensures OnRecord(job, l'.preps, past + [e])
  {
    if l.pc.AtTemp? && l.pc.stage.SClose? {
      RecordClosed(env, job, l, past, e, l.pc.i, l');
    } else {
      StepMakesNone(env, job, l, e.op, e.reply);
      RecordStays(job, l, past, e, l');
    }
  }

  ghost predicate Careful(job: Job, l: Local, run: seq<Event>) { InHand(job, l, run) && OnRecord(job, l.preps, run) }

  lemma CarefulStep(env: Env, job: Job, l: Local, past: seq<Event>, e: Event, l': Local, run: seq<Event>)
    requires job.WellFormed() && Sane(job, l) && Allows(job, l, e.op) && Careful(job, l, past)
    requires l' == Recv(env, job, l, e.op, e.reply) && run == past + [e]
    ensures Careful(job, l', run)
  {
    HandStep(env, job, l, past, e, l');
    RecordStep(env, job, l, past, e, l');
  }

  lemma {:induction false} RunCareful(env: Env, job: Job, fs0: Files, run: seq<Event>, l: Local, fs: Files)
    requires job.WellFormed() && Reaches(env, job, fs0, run, l, fs)
    ensures Careful(job, l, run)
  {
    if run != [] {
      var past, e := run[..|run| - 1], run[|run| - 1];
      assert run == past + [e];
      var m := LastStep(env, job, fs0, run, l, fs);
      RunCareful(env, job, fs0, past, m.l, m.fs);
      RunSane(env, job, fs0, past, m.l, m.fs);
      CarefulStep(env, job, m.l, past, e, l, run);
    }
  }

  // Whenever a call renames a file, deploying or restoring, the run has opened,
  // written, synced and closed that file before, in this order and each with
  // success, and the file holds what was written.
  lemma SyncedBeforeRename(env: Env, job: Job, fs0: Files, run: seq<Event>, l: Local, fs: Files, p: Path, q: Path)
    returns (data: Bytes)
    requires job.WellFormed() && Reaches(env, job, fs0, run, l, fs) && InBounds(job, l) && Allows(job, l, Rename(p, q))
    ensures p.Temp? && q == Live(p.of) && Done(run, p, data, 4) && p in fs && fs[p].bytes == data
    ensures l.pc.AtRename? ==> exists j :: 0 <= j < job.N() && job.files[j].abs == p.of && job.files[j].bytes == data
  {
    RunCareful(env, job, fs0, run, l, fs);
    RunKeepsInvariant(env, job, fs0, run, l, fs);
    if l.pc.AtRename? {
      data := job.files[l.pc.i].bytes;
      assert IsReady(env, job, l, fs, l.pc.i);
    } else {
      data := l.data;
    }
  }
}
