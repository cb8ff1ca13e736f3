/** Whole runs of a call: any sequence of steps and replies from the start. */
module Runs {
  import opened Common
  import opened FileSystem
  import opened Protocol
  import opened Invariant
  import opened Safety
  import opened Progress

  datatype Event = Event(op: Op, reply: Reply)

  datatype State = State(l: Local, fs: Files)

  // The state after the given system calls and replies; None when the call
  // would not have issued them or the system would not have answered so.
  ghost function Exec(env: Env, job: Job, fs0: Files, run: seq<Event>): Option<State> {
    if run == [] then Some(State(START, fs0))
    else
      var e := run[|run| - 1];
      match Exec(env, job, fs0, run[..|run| - 1])
      case None => None
      case Some(s) =>
        if InBounds(job, s.l) && Allows(job, s.l, e.op) && Permitted(s.fs, e.op, e.reply) then
          Some(State(Recv(env, job, s.l, e.op, e.reply), Effect(env, s.fs, e.op, e.reply)))
        else None
  }

  ghost predicate Reaches(env: Env, job: Job, fs0: Files, run: seq<Event>, l: Local, fs: Files) {
    Exec(env, job, fs0, run) == Some(State(l, fs))
  }

  lemma Then(env: Env, job: Job, fs0: Files, run: seq<Event>, l: Local, fs: Files, op: Op, r: Reply)
    requires Reaches(env, job, fs0, run, l, fs) && InBounds(job, l) && Allows(job, l, op) && Permitted(fs, op, r)
    ensures Reaches(env, job, fs0, run + [Event(op, r)], Recv(env, job, l, op, r), Effect(env, fs, op, r))
  {
    assert (run + [Event(op, r)])[..|run|] == run;
  }

  // The same run with every state written out.
  ghost predicate StepOf(env: Env, job: Job, s: State, e: Event, s': State) {
    && InBounds(job, s.l) && Allows(job, s.l, e.op) && Permitted(s.fs, e.op, e.reply)
    && s' == State(Recv(env, job, s.l, e.op, e.reply), Effect(env, s.fs, e.op, e.reply))
  }

  lemma LastStep(env: Env, job: Job, fs0: Files, run: seq<Event>, l: Local, fs: Files) returns (m: State)
    requires Reaches(env, job, fs0, run, l, fs) && run != []
    ensures Reaches(env, job, fs0, run[..|run| - 1], m.l, m.fs) && StepOf(env, job, m, run[|run| - 1], State(l, fs))
  {
    m := Exec(env, job, fs0, run[..|run| - 1]).value;
  }

  ghost predicate Chain(env: Env, job: Job, fs0: Files, run: seq<Event>, states: seq<State>) {
    && |states| == |run| + 1 && states[0] == State(START, fs0)
    && forall k :: 0 <= k < |run| ==> StepOf(env, job, states[k], run[k], states[k + 1])
  }

  lemma {:induction false} ChainReaches(env: Env, job: Job, fs0: Files, run: seq<Event>, states: seq<State>)
    requires Chain(env, job, fs0, run, states)
    ensures Reaches(env, job, fs0, run, states[|run|].l, states[|run|].fs)
  {
    if run != [] {
      var n := |run| - 1;
      ChainReaches(env, job, fs0, run[..n], states[..n + 1]);
      assert StepOf(env, job, states[n], run[n], states[n + 1]);
    }
  }

  lemma {:induction false} RunKeepsInvariant(env: Env, job: Job, fs0: Files, run: seq<Event>, l: Local, fs: Files)
    requires job.WellFormed() && Reaches(env, job, fs0, run, l, fs)
    ensures Inv(env, job, fs0, l, fs)
  {
    if run == [] {
      Initially(env, job, fs0);
    } else {
      var s, e := Exec(env, job, fs0, run[..|run| - 1]).value, run[|run| - 1];
      RunKeepsInvariant(env, job, fs0, run[..|run| - 1], s.l, s.fs);
      StepKeepsInvariant(env, job, fs0, s.l, s.fs, e.op, e.reply);
    }
  }

  // ----- reading the history variables off the run -----

  function Pres(run: seq<Event>): nat {
    if run == [] then 0 else Pres(run[..|run| - 1]) + Count(run[|run| - 1].op.PreCommit?)
  }

  function Posts(run: seq<Event>): nat {
    if run == [] then 0 else Posts(run[..|run| - 1]) + Count(run[|run| - 1].op.PostCommit?)
  }

  // The k-th event is the first look at its destination.
  predicate FirstStat(run: seq<Event>, k: nat)
    requires k < |run|
  {
    run[k].op.Stat? && forall m :: 0 <= m < k ==> !(run[m].op.Stat? && run[m].op.path == run[k].op.path)
  }

  // the first stat of a destination says "absent" only of absent files
  predicate HonestStats(fs0: Files, run: seq<Event>) {
    forall k :: 0 <= k < |run| && FirstStat(run, k) && run[k].reply.Err? ==> run[k].op.path !in fs0
  }

  // removing one's own temp succeeds
  predicate TempsRemovable(run: seq<Event>) {
    forall k :: 0 <= k < |run| && run[k].op.Remove? && run[k].op.path.Temp? ==> !run[k].reply.Err?
  }

  // the janitor can list the directory and remove old backups
  predicate JanitorWorks(run: seq<Event>) {
    forall k :: 0 <= k < |run| && (run[k].op.List? || (run[k].op.Remove? && run[k].op.path.Backup?)) ==>
      !run[k].reply.Err?
  }

  // What one step may add to the books: a hook call, a temp that would not go,
  // a janitor failure, and one more prep for the file just looked at.
  predicate Books(l: Local, l': Local, pre: bool, post: bool, drop: set<Path>, smooth: bool, had: Option<bool>) {
    && l'.pre == l.pre + Count(pre) && l'.post == l.post + Count(post)
    && l'.stuck <= l.stuck + drop && (l.swept && smooth ==> l'.swept)
    && |l.preps| <= |l'.preps| <= |l.preps| + Count(had.Some?)
    && (forall j :: 0 <= j < |l.preps| ==> l'.preps[j].hadOrig == l.preps[j].hadOrig)
    && (|l'.preps| > |l.preps| ==> Some(l'.preps[|l.preps|].hadOrig) == had)
  }

  predicate NoBooks(l: Local, l': Local) { Books(l, l', false, false, {}, true, None) }

  function Failed(p: Path, r: Reply): set<Path> { if r.Err? then {p} else {} }

  ghost predicate Booked(l: Local, l': Local, op: Op, r: Reply) {
    Books(l, l', op.PreCommit?, op.PostCommit?, if op.Remove? && op.path.Temp? then Failed(op.path, r) else {},
          !(r.Err? && (op.List? || (op.Remove? && op.path.Backup?))), 
          if l.pc.AtIdem? then Some(l.info.Some?) else if l.pc.AtStat? then Some(r.Stats?) else None)
  }

  lemma BooksResolved(env: Env, job: Job, l: Local, i: nat, info: Option<Info>)
    requires i < job.N()
    ensures Books(l, Resolved(env, job, l, i, info), false, false, {}, true, Some(info.Some?))
  {
  }

  lemma BooksRestored(job: Job, l: Local, i: nat, failed: bool)
    ensures NoBooks(l, Restored(job, l, i, failed))
  {
  }

  lemma BooksTemp(env: Env, job: Job, l: Local, i: nat, stage: Stage, p: Path, r: Reply)
    requires i < |l.preps| && p.Temp?
    ensures Books(l, OnTemp(env, job, l, i, stage, p, r), false, false,
                  if stage.SDrop? then Failed(p, r) else {}, true, None)
  {
  }

  lemma BooksRestoreTemp(env: Env, job: Job, l: Local, i: nat, stage: Stage, p: Path, r: Reply)
    requires p.Temp?
    ensures Books(l, OnRestoreTemp(env, job, l, i, stage, p, r), false, false,
                  if stage.SDrop? then Failed(p, r) else {}, true, None)
  {
    BooksRestored(job, l, i, true);
    BooksRestored(job, NoteRemove(l, p, r), i, true);
  }

  lemma BooksLook(env: Env, job: Job, l: Local, op: Op, r: Reply)
    requires InBounds(job, l) && Allows(job, l, op) && (l.pc.AtCtx? || l.pc.AtIdem? || l.pc.AtStat?)
    ensures Booked(l, Recv(env, job, l, op, r), op, r)
  {
    match l.pc
    case AtIdem(i) => BooksResolved(env, job, l, i, l.info);
    case AtStat(i) =>
      var info := if r.Stats? then Some(r.info) else None;
      BooksResolved(env, job, l.(info := info), i, info);
    case _ =>
  }

  lemma BooksSave(job: Job, l: Local, i: nat, r: Reply)
    requires i < |l.preps|
    ensures NoBooks(l, OnBackupRead(job, l, i, r)) && NoBooks(l, OnBackupStat(job, l, i, r))
    ensures NoBooks(l, AfterBackup(job, l, i))
  {
  }

  lemma BooksWrite(job: Job, l: Local, i: nat, stamp: nat, r: Reply)
    requires i < |l.preps|
    ensures NoBooks(l, OnBackupWrite(job, l, i, stamp, r)) && NoBooks(l, OnBackupCleanup(job, l, i))
  {
  }

  lemma BooksBackup(env: Env, job: Job, l: Local, op: Op, r: Reply)
    requires InBounds(job, l) && Allows(job, l, op)
    requires BackingUp(l.pc)
    ensures Booked(l, Recv(env, job, l, op, r), op, r)
  {
    match l.pc
    case AtBackupRead(i) => BooksSave(job, l, i, r);
    case AtBackupStat(i) => BooksSave(job, l, i, r);
    case AtBackupWrite(i) => BooksWrite(job, l, i, op.path.stamp, r);
    case AtBackupChown(i) => BooksSave(job, l, i, r);
    case AtBackupCleanup(i) => BooksWrite(job, l, i, 0, r);
  }

  lemma BooksRestore(env: Env, job: Job, l: Local, fs: Files, op: Op, r: Reply)
    requires InBounds(job, l) && Allows(job, l, op) && Permitted(fs, op, r)
    requires (l.pc.AtRestore? || l.pc.AtRestoreRename?)
    ensures Booked(l, Recv(env, job, l, op, r), op, r)
  {
    BooksRestored(job, l, l.pc.i, true);
    BooksRestored(job, l, l.pc.i, r.Err?);
    BooksRestored(job, l, l.pc.i, false);
  }

  lemma BooksHooks(env: Env, job: Job, l: Local, op: Op, r: Reply)
    requires InBounds(job, l) && Allows(job, l, op) && (l.pc.AtPre? || l.pc.AtRename? || l.pc.AtPost? || l.pc.AtPost2?)
    ensures Booked(l, Recv(env, job, l, op, r), op, r)
  {
  }

  lemma BooksPrune(env: Env, job: Job, l: Local, fs: Files, op: Op, r: Reply)
    requires InBounds(job, l) && Allows(job, l, op) && Permitted(fs, op, r)
    requires (l.pc.AtPruneList? || l.pc.AtPruneRemove?)
    ensures Booked(l, Recv(env, job, l, op, r), op, r)
  {
  }

  lemma BooksCleanTemps(env: Env, job: Job, l: Local, op: Op, r: Reply)
    requires InBounds(job, l) && Allows(job, l, op) && l.pc.AtCleanTemps?
    ensures Booked(l, Recv(env, job, l, op, r), op, r)
  {
  }

  lemma BooksStage(env: Env, job: Job, l: Local, fs: Files, op: Op, r: Reply)
    requires InBounds(job, l) && Allows(job, l, op) && Permitted(fs, op, r)
    requires l.pc.AtTemp? || l.pc.AtRestoreTemp?
    ensures Booked(l, Recv(env, job, l, op, r), op, r)
  {
    if l.pc.AtTemp? {
      BooksTemp(env, job, l, l.pc.i, l.pc.stage, StagePath(job, l, l.pc.i, l.pc.stage, op), r);
    } else {
      BooksRestoreTemp(env, job, l, l.pc.i, l.pc.stage, StagePath(job, l, l.pc.i, l.pc.stage, op), r);
    }
  }

  lemma StepBooks(env: Env, job: Job, l: Local, fs: Files, op: Op, r: Reply)
    requires InBounds(job, l) && Allows(job, l, op) && Permitted(fs, op, r)
    ensures Booked(l, Recv(env, job, l, op, r), op, r)
  {
    match l.pc
    case AtTemp(_, _) => BooksStage(env, job, l, fs, op, r);
    case AtRestoreTemp(_, _) => BooksStage(env, job, l, fs, op, r);
    case AtPruneList(_) => BooksPrune(env, job, l, fs, op, r);
    case AtPruneRemove(_, _) => BooksPrune(env, job, l, fs, op, r);
    case AtCleanTemps(_, _) => BooksCleanTemps(env, job, l, op, r);
    case AtRestore(_) => BooksRestore(env, job, l, fs, op, r);
    case AtRestoreRename(_) => BooksRestore(env, job, l, fs, op, r);
    case AtPre => BooksHooks(env, job, l, op, r);
    case AtRename(_) => BooksHooks(env, job, l, op, r);
    case AtPost => BooksHooks(env, job, l, op, r);
    case AtPost2 => BooksHooks(env, job, l, op, r);
    case AtCtx => BooksLook(env, job, l, op, r);
    case AtIdem(_) => BooksLook(env, job, l, op, r);
    case AtStat(_) => BooksLook(env, job, l, op, r);
    case _ => BooksBackup(env, job, l, op, r);
  }

  // No existing destination was taken for a missing one.
  predicate SawAll(job: Job, fs0: Files, l: Local) {
    forall j :: 0 <= j < |l.preps| && j < job.N() && Live(job.files[j].abs) in fs0 ==> l.preps[j].hadOrig
  }

  lemma SawStep(env: Env, job: Job, fs0: Files, l: Local, fs: Files, op: Op, r: Reply)
    requires Step(env, job, fs0, l, fs, op, r) && SawAll(job, fs0, l)
    requires l.pc.AtStat? && r.Err? ==> op.path !in fs0
    ensures SawAll(job, fs0, Recv(env, job, l, op, r))
  {
    StepBooks(env, job, l, fs, op, r);
    var l' := Recv(env, job, l, op, r);
    if |l'.preps| > |l.preps| {
      match l.pc
      case AtIdem(i) => assert |OnIdem(env, job, l, i, r).preps| > |l.preps| ==> job.solo;
      case AtStat(i) => assert op == Stat(Live(job.files[i].abs)) && |l.preps| == i;
    }
  }

  // Which destinations have been looked at, up to the last look.
  ghost predicate Looked(job: Job, l: Local, run: seq<Event>) {
    match l.pc
    case AtCtx => forall k :: 0 <= k < |run| ==> !run[k].op.Stat?
    case AtIdem(_) => !job.solo ==> forall k :: 0 <= k < |run| ==> !run[k].op.Stat?
    case AtStat(i) =>
      forall k :: 0 <= k < |run| && run[k].op.Stat? ==>
        exists j :: 0 <= j < i && j < job.N() && run[k].op.path == Live(job.files[j].abs)
    case _ => true
  }

  lemma LookedStat(env: Env, job: Job, l: Local, past: seq<Event>, op: Op, r: Reply, i: nat)
    requires job.WellFormed() && l.pc == AtStat(i) && i < job.N()
    requires op == Stat(Live(job.files[i].abs)) && Looked(job, l, past)
    ensures Looked(job, OnStat(env, job, l, i, r), past + [Event(op, r)])
  {
    var run, l' := past + [Event(op, r)], OnStat(env, job, l, i, r);
    assert l'.pc == AtStat(i + 1) || !Looking(l'.pc) || (l'.pc == AtIdem(i) && job.solo);
    if l'.pc == AtStat(i + 1) {
      forall k | 0 <= k < |run| && run[k].op.Stat?
        ensures exists j :: 0 <= j < i + 1 && j < job.N() && run[k].op.path == Live(job.files[j].abs)
      {
        if k == |past| { assert run[k].op.path == Live(job.files[i].abs); } else { assert run[k] == past[k]; }
      }
    }
  }

  lemma LookedIdem(env: Env, job: Job, l: Local, past: seq<Event>, op: Op, r: Reply, i: nat)
    requires job.WellFormed() && l.pc == AtIdem(i) && i < job.N() && op.Read? && Looked(job, l, past)
    ensures Looked(job, OnIdem(env, job, l, i, r), past + [Event(op, r)])
  {
    var run, l' := past + [Event(op, r)], OnIdem(env, job, l, i, r);
    assert forall k :: 0 <= k < |past| ==> run[k] == past[k];
    assert !Looking(l'.pc) || l'.pc == AtIdem(i + 1) || (l'.pc == AtStat(0) && !job.solo);
  }

  lemma LookedCtx(job: Job, l: Local, past: seq<Event>, op: Op, r: Reply)
    requires l.pc.AtCtx? && op.CtxErr? && Looked(job, l, past)
    ensures Looked(job, OnCtx(job, l, r), past + [Event(op, r)])
  {
    var run := past + [Event(op, r)];
    assert forall k :: 0 <= k < |past| ==> run[k] == past[k];
  }

  lemma LookedLate(env: Env, job: Job, l: Local, past: seq<Event>, op: Op, r: Reply)
    requires job.WellFormed() && Sane(job, l) && Allows(job, l, op) && !Looking(l.pc)
    ensures Looked(job, Recv(env, job, l, op, r), past + [Event(op, r)])
  {
    StepOnward(env, job, l, op, r);
    NeverBack(job, l, Recv(env, job, l, op, r));
  }

  lemma LookedStep(env: Env, job: Job, l: Local, past: seq<Event>, op: Op, r: Reply)
    requires job.WellFormed() && Sane(job, l) && Allows(job, l, op) && Looked(job, l, past)
    ensures Looked(job, Recv(env, job, l, op, r), past + [Event(op, r)])
  {
    match l.pc
    case AtCtx => LookedCtx(job, l, past, op, r);
    case AtIdem(i) => LookedIdem(env, job, l, past, op, r, i);
    case AtStat(i) => LookedStat(env, job, l, past, op, r, i);
    case _ => LookedLate(env, job, l, past, op, r);
  }

  lemma {:induction false} RunSane(env: Env, job: Job, fs0: Files, run: seq<Event>, l: Local, fs: Files)
    requires job.WellFormed() && Reaches(env, job, fs0, run, l, fs)
    ensures Sane(job, l)
  {
    if run != [] {
      var s, e := Exec(env, job, fs0, run[..|run| - 1]).value, run[|run| - 1];
      RunSane(env, job, fs0, run[..|run| - 1], s.l, s.fs);
      StepOnward(env, job, s.l, e.op, e.reply);
    }
  }

  lemma {:induction false} RunLooked(env: Env, job: Job, fs0: Files, run: seq<Event>, l: Local, fs: Files)
    requires job.WellFormed() && Reaches(env, job, fs0, run, l, fs)
    ensures Looked(job, l, run)
  {
    if run != [] {
      var past := run[..|run| - 1];
      var s, e := Exec(env, job, fs0, past).value, run[|run| - 1];
      RunLooked(env, job, fs0, past, s.l, s.fs);
      RunSane(env, job, fs0, past, s.l, s.fs);
      LookedStep(env, job, s.l, past, e.op, e.reply);
      assert run == past + [e];
    }
  }

  // The stat made while preparing is the first of its destination.
  lemma FirstLook(job: Job, l: Local, past: seq<Event>, e: Event)
    requires job.WellFormed() && InBounds(job, l) && Allows(job, l, e.op) && Looked(job, l, past) && l.pc.AtStat?
    ensures FirstStat(past + [e], |past|)
  {
    var run := past + [e];
    forall m | 0 <= m < |past| && run[m].op.Stat?
      ensures run[m].op.path != e.op.path
    {
      assert run[m] == past[m];
    }
  }

  lemma HonestPrefix(fs0: Files, past: seq<Event>, e: Event)
    requires HonestStats(fs0, past + [e])
    ensures HonestStats(fs0, past)
  {
    var run := past + [e];
    forall k | 0 <= k < |past| && FirstStat(past, k) && past[k].reply.Err?
      ensures past[k].op.path !in fs0
    {
      assert run[k] == past[k] && FirstStat(run, k);
    }
  }

  lemma SawNext(env: Env, job: Job, fs0: Files, past: seq<Event>, l: Local, fs: Files, e: Event)
    requires job.WellFormed() && Reaches(env, job, fs0, past, l, fs)
    requires HonestStats(fs0, past + [e]) && SawAll(job, fs0, l)
    requires InBounds(job, l) && Allows(job, l, e.op) && Permitted(fs, e.op, e.reply)
    ensures SawAll(job, fs0, Recv(env, job, l, e.op, e.reply))
  {
    RunKeepsInvariant(env, job, fs0, past, l, fs);
    if l.pc.AtStat? {
      RunLooked(env, job, fs0, past, l, fs);
      FirstLook(job, l, past, e);
      assert (past + [e])[|past|] == e;
    }
    SawStep(env, job, fs0, l, fs, e.op, e.reply);
  }

  lemma {:induction false} RunSawAll(env: Env, job: Job, fs0: Files, run: seq<Event>, l: Local, fs: Files)
    requires job.WellFormed() && Reaches(env, job, fs0, run, l, fs) && HonestStats(fs0, run)
    ensures SawAll(job, fs0, l)
  {
    if run != [] {
      var past := run[..|run| - 1];
      var s, e := Exec(env, job, fs0, past).value, run[|run| - 1];
      assert run == past + [e];
      HonestPrefix(fs0, past, e);
      RunSawAll(env, job, fs0, past, s.l, s.fs);
      SawNext(env, job, fs0, past, s.l, s.fs, e);
    }
  }

  lemma {:induction false} RunBooks(env: Env, job: Job, fs0: Files, run: seq<Event>, l: Local, fs: Files)
    requires job.WellFormed() && Reaches(env, job, fs0, run, l, fs)
    ensures l.pre == Pres(run) && l.post == Posts(run)
    ensures TempsRemovable(run) ==> l.stuck == {}
    ensures JanitorWorks(run) ==> l.swept
    ensures HonestStats(fs0, run) ==> SawAll(job, fs0, l)
  {
    if HonestStats(fs0, run) { RunSawAll(env, job, fs0, run, l, fs); }
    if run != [] {
      var past := run[..|run| - 1];
      var s, e := Exec(env, job, fs0, past).value, run[|run| - 1];
      RunBooks(env, job, fs0, past, s.l, s.fs);
      StepBooks(env, job, s.l, s.fs, e.op, e.reply);
      assert forall k :: 0 <= k < |past| ==> past[k] == run[k];
    }
  }
}
