/** Every interleaving of calls is as good as some serial order, and never stuck. */
module Interleaving {
  import opened Common
  import opened FileSystem
  import opened Ownership
  import opened Protocol
  import opened Progress
  import opened Runs
  import opened Commuting
  import opened Order
  import opened Locks

  // ----- locking and unlocking change no file -----

  predicate SameCall(a: Proc, b: Proc) { a.job == b.job && a.trace == b.trace && LocalOf(a.phase) == LocalOf(b.phase) }

  lemma SerialSame(env: Env, fs0: Files, s: Sys, s': Sys, cuts: seq<Files>)
    requires Serial(env, fs0, s, cuts) && s'.queue == s.queue && s'.fs == s.fs && |s'.procs| == |s.procs|
    requires forall i :: 0 <= i < |s.queue| && s.queue[i] < |s.procs| ==>
               SameCall(s.procs[s.queue[i]], s'.procs[s.queue[i]])
    ensures Serial(env, fs0, s', cuts)
  {
    forall k | 0 <= k < |s.queue|
      ensures s'.queue[k] < |s'.procs|
      ensures var pr := s'.procs[s'.queue[k]]; Reaches(env, pr.job, cuts[k], pr.trace, LocalOf(pr.phase), cuts[k + 1])
    {
      assert SameCall(s.procs[s.queue[k]], s'.procs[s.queue[k]]);
    }
  }

  lemma SerialJoin(env: Env, fs0: Files, s: Sys, s': Sys, cuts: seq<Files>, p: nat)
    requires Serial(env, fs0, s, cuts) && s'.queue == s.queue + [p] && s'.fs == s.fs && p < |s'.procs| == |s.procs|
    requires forall i :: 0 <= i < |s.queue| && s.queue[i] < |s.procs| ==>
               SameCall(s.procs[s.queue[i]], s'.procs[s.queue[i]])
    requires s'.procs[p].phase == Running(START) && s'.procs[p].trace == []
    ensures Serial(env, fs0, s', cuts + [s.fs])
  {
    forall k | 0 <= k < |s'.queue|
      ensures s'.queue[k] < |s'.procs|
      ensures var pr := s'.procs[s'.queue[k]];
              Reaches(env, pr.job, (cuts + [s.fs])[k], pr.trace, LocalOf(pr.phase), (cuts + [s.fs])[k + 1])
    {
      if k < |s.queue| {
        assert SameCall(s.procs[s.queue[k]], s'.procs[s.queue[k]]);
      } else {
        assert Exec(env, s'.procs[p].job, s.fs, []) == Some(State(START, s.fs));
      }
    }
  }

  // ----- a step of one call, seen from the serial order -----

  predicate AllWell(procs: seq<Proc>) { forall p :: 0 <= p < |procs| ==> procs[p].job.WellFormed() }

  // Later calls leave alone what the call at i works on.
  lemma {:induction false} PermittedBefore(env: Env, fs0: Files, s: Sys, cuts: seq<Files>, i: nat, op: Op, r: Reply,
                                           k: nat)
    requires Serial(env, fs0, s, cuts) && i < k <= |s.queue| && Permitted(s.fs, op, r) && AllWell(s.procs)
    requires forall j :: i < j < |s.queue| && s.queue[j] < |s.procs| ==> Outsider(s.procs[s.queue[j]].job, op)
    ensures Permitted(cuts[k], op, r)
    decreases |s.queue| - k
  {
    if k < |s.queue| {
      PermittedBefore(env, fs0, s, cuts, i, op, r, k + 1);
      var pr := s.procs[s.queue[k]];
      ShiftRun(env, pr.job, cuts[k], pr.trace, LocalOf(pr.phase), cuts[k + 1], op, r);
    }
  }

  ghost function Stepped(env: Env, fs: Files, op: Op, r: Reply): Files {
    if Permitted(fs, op, r) then Effect(env, fs, op, r) else fs
  }

  // The serial order with one more step in the run of the i-th call.
  ghost function Slid(env: Env, cuts: seq<Files>, i: nat, op: Op, r: Reply): seq<Files> {
    seq(|cuts|, k requires 0 <= k < |cuts| => if k <= i then cuts[k] else Stepped(env, cuts[k], op, r))
  }

  lemma SlidAt(env: Env, fs0: Files, s: Sys, cuts: seq<Files>, i: nat, op: Op, r: Reply, k: nat)
    requires Serial(env, fs0, s, cuts) && i < k < |s.queue| && Permitted(s.fs, op, r) && AllWell(s.procs)
    requires forall j :: i < j < |s.queue| && s.queue[j] < |s.procs| ==> Outsider(s.procs[s.queue[j]].job, op)
    ensures var pr, cuts' := s.procs[s.queue[k]], Slid(env, cuts, i, op, r);
            Reaches(env, pr.job, cuts'[k], pr.trace, LocalOf(pr.phase), cuts'[k + 1])
  {
    var pr := s.procs[s.queue[k]];
    PermittedBefore(env, fs0, s, cuts, i, op, r, k);
    PermittedBefore(env, fs0, s, cuts, i, op, r, k + 1);
    ShiftRun(env, pr.job, cuts[k], pr.trace, LocalOf(pr.phase), cuts[k + 1], op, r);
  }

  // The run of the call that moved, with the step added.
  lemma OwnRun(env: Env, fs0: Files, s: Sys, cuts: seq<Files>, i: nat, op: Op, r: Reply)
    requires Serial(env, fs0, s, cuts) && i < |s.queue| && Permitted(s.fs, op, r) && AllWell(s.procs)
    requires forall j :: i < j < |s.queue| && s.queue[j] < |s.procs| ==> Outsider(s.procs[s.queue[j]].job, op)
    requires var pr := s.procs[s.queue[i]];
             pr.phase.Running? && InBounds(pr.job, pr.phase.l) && Allows(pr.job, pr.phase.l, op)
    ensures var q, cuts' := Worked(env, s.procs[s.queue[i]], op, r), Slid(env, cuts, i, op, r);
            Reaches(env, q.job, cuts'[i], q.trace, LocalOf(q.phase), cuts'[i + 1])
  {
    var pr := s.procs[s.queue[i]];
    PermittedBefore(env, fs0, s, cuts, i, op, r, i + 1);
    Then(env, pr.job, cuts[i], pr.trace, pr.phase.l, cuts[i + 1], op, r);
  }

  lemma SerialWork(env: Env, fs0: Files, s: Sys, cuts: seq<Files>, i: nat, op: Op, r: Reply, pr': Proc)
    requires Serial(env, fs0, s, cuts) && i < |s.queue| && Permitted(s.fs, op, r) && AllWell(s.procs)
    requires forall j, k :: 0 <= j < k < |s.queue| ==> s.queue[j] != s.queue[k]
    requires forall j :: i < j < |s.queue| && s.queue[j] < |s.procs| ==> Outsider(s.procs[s.queue[j]].job, op)
    requires var pr := s.procs[s.queue[i]];
             pr.phase.Running? && InBounds(pr.job, pr.phase.l) && Allows(pr.job, pr.phase.l, op)
    requires pr' == Worked(env, s.procs[s.queue[i]], op, r)
    ensures Serial(env, fs0, s.(procs := s.procs[s.queue[i] := pr'], fs := Effect(env, s.fs, op, r)),
                   Slid(env, cuts, i, op, r))
  {
    var p, cuts' := s.queue[i], Slid(env, cuts, i, op, r);
    var s' := s.(procs := s.procs[p := pr'], fs := Effect(env, s.fs, op, r));
    OwnRun(env, fs0, s, cuts, i, op, r);
    forall k | 0 <= k < |s.queue|
      ensures s'.queue[k] < |s'.procs|
      ensures var q := s'.procs[s'.queue[k]]; Reaches(env, q.job, cuts'[k], q.trace, LocalOf(q.phase), cuts'[k + 1])
    {
      if k > i {
        SlidAt(env, fs0, s, cuts, i, op, r, k);
      } else if k < i {
        assert s.queue[k] != p;
      }
    }
  }

  // ----- every action keeps the invariant -----

  // One call moves on without passing its lock point.
  lemma ShapeMove(s: Sys, s': Sys, p: nat, pr': Proc)
    requires Shape(s) && p < |s.procs| && s'.procs == s.procs[p := pr'] && s'.queue == s.queue && ProcInv(pr')
    requires pr'.job == s.procs[p].job && pr'.phase.Acquiring? == s.procs[p].phase.Acquiring?
    requires pr'.phase.Running? ==> s.procs[p].phase.Running?
    ensures Shape(s')
  {
  }

  // One call gets its last lock.
  lemma ShapeJoin(s: Sys, s': Sys, p: nat, pr': Proc)
    requires Shape(s) && p < |s.procs| && s'.procs == s.procs[p := pr'] && s'.queue == s.queue + [p] && ProcInv(pr')
    requires pr'.job == s.procs[p].job && s.procs[p].phase.Acquiring? && pr'.phase.Running?
    requires LockInv(s'.procs, s'.locks)
    ensures Shape(s')
  {
    assert p !in s.queue;
    forall i | 0 <= i < |s.queue| && s'.procs[s.queue[i]].phase.Running?
      ensures Dests(s'.procs[s.queue[i]].job) !! Dests(s'.procs[p].job)
    {
      HoldersApart(s'.procs, s'.locks, s.queue[i], p);
    }
  }

  lemma SpreadSame(procs: seq<Proc>, procs': seq<Proc>)
    requires |procs| == |procs'| && forall p :: 0 <= p < |procs| ==> procs[p].job == procs'[p].job
    ensures Spread(procs) <==> Spread(procs')
  {
  }

  // A call takes a lock that is not its last.
  lemma WaitKeeps(env: Env, fs0: Files, s: Sys, s': Sys, p: nat, pr': Proc)
    requires SysInv(env, fs0, s) && p < |s.procs|
    requires s'.procs == s.procs[p := pr'] && s'.fs == s.fs && s'.queue == s.queue
    requires s.procs[p].phase.Acquiring? && pr' == Locked(s.procs[p])
    requires !pr'.phase.Running? && LockInv(s'.procs, s'.locks)
    ensures SysInv(env, fs0, s')
  {
    ShapeMove(s, s', p, pr');
    SpreadSame(s.procs, s'.procs);
    if Spread(s.procs) {
      var cuts :| Serial(env, fs0, s, cuts);
      assert p !in s.queue;
      SerialSame(env, fs0, s, s', cuts);
    }
  }

  // A call takes its last lock: this is its place in the serial order.
  lemma StartKeeps(env: Env, fs0: Files, s: Sys, s': Sys, p: nat, pr': Proc)
    requires SysInv(env, fs0, s) && p < |s.procs| && s'.procs == s.procs[p := pr']
    requires s'.fs == s.fs && s'.queue == s.queue + [p]
    requires s.procs[p].phase.Acquiring? && pr' == Locked(s.procs[p])
    requires pr'.phase.Running? && LockInv(s'.procs, s'.locks)
    ensures SysInv(env, fs0, s')
  {
    ShapeJoin(s, s', p, pr');
    SpreadSame(s.procs, s'.procs);
    if Spread(s.procs) {
      var cuts :| Serial(env, fs0, s, cuts);
      assert p !in s.queue;
      SerialJoin(env, fs0, s, s', cuts, p);
    }
  }

  lemma LockKeeps(env: Env, fs0: Files, s: Sys, s': Sys, p: nat, pr': Proc)
    requires SysInv(env, fs0, s) && p < |s.procs| && s'.procs == s.procs[p := pr'] && s'.fs == s.fs
    requires s.procs[p].phase.Acquiring? && pr' == Locked(s.procs[p])
    requires s'.queue == if pr'.phase.Running? then s.queue + [p] else s.queue
    requires LockInv(s'.procs, s'.locks)
    ensures SysInv(env, fs0, s')
  {
    if pr'.phase.Running? {
      StartKeeps(env, fs0, s, s', p, pr');
    } else {
      WaitKeeps(env, fs0, s, s', p, pr');
    }
  }

  lemma UnlockKeeps(env: Env, fs0: Files, s: Sys, s': Sys, p: nat, pr': Proc)
    requires SysInv(env, fs0, s) && p < |s.procs|
    requires s'.procs == s.procs[p := pr'] && s'.fs == s.fs && s'.queue == s.queue
    requires s.procs[p].phase.Releasing? && pr' == Unlocked(s.procs[p]) && LockInv(s'.procs, s'.locks)
    ensures SysInv(env, fs0, s')
  {
    ShapeMove(s, s', p, pr');
    SpreadSame(s.procs, s'.procs);
    if Spread(s.procs) {
      var cuts :| Serial(env, fs0, s, cuts);
      SerialSame(env, fs0, s, s', cuts);
    }
  }

  // A step of a running call keeps it in order.
  lemma WorkProc(env: Env, fs: Files, pr: Proc, op: Op, r: Reply)
    requires ProcInv(pr) && pr.phase.Running? && Allows(pr.job, pr.phase.l, op) && Permitted(fs, op, r)
    ensures ProcInv(Worked(env, pr, op, r))
  {
    StepOnward(env, pr.job, pr.phase.l, op, r);
    StepTodo(env, pr.job, pr.phase.l, fs, op, r);
  }

  // What the call at i touches is outside the zones of all later calls.
  lemma OutsideLater(s: Sys, i: nat, op: Op)
    requires Shape(s) && Spread(s.procs) && i < |s.queue|
    requires var pr := s.procs[s.queue[i]]; pr.phase.Running? && Allows(pr.job, pr.phase.l, op)
    ensures forall j :: i < j < |s.queue| && s.queue[j] < |s.procs| ==> Outsider(s.procs[s.queue[j]].job, op)
  {
    var pr := s.procs[s.queue[i]];
    forall j | i < j < |s.queue|
      ensures Outsider(s.procs[s.queue[j]].job, op)
    {
      forall q: Path | Touches(op, q)
        ensures !Zone(s.procs[s.queue[j]].job, q)
      {
        AllowsAt(pr.job, pr.phase.l, op, q);
        ZonesApart(pr.job, s.procs[s.queue[j]].job, q);
      }
    }
  }

  lemma WorkKeeps(env: Env, fs0: Files, s: Sys, p: nat, op: Op, r: Reply)
    requires SysInv(env, fs0, s) && Enabled(s, Work(p, op, r))
    ensures SysInv(env, fs0, Do(env, s, Work(p, op, r)))
  {
    WorkProc(env, s.fs, s.procs[p], op, r);
    WorkedKeeps(env, fs0, s, Do(env, s, Work(p, op, r)), p, op, r, Worked(env, s.procs[p], op, r));
  }

  lemma WorkedKeeps(env: Env, fs0: Files, s: Sys, s': Sys, p: nat, op: Op, r: Reply, pr': Proc)
    requires SysInv(env, fs0, s) && Enabled(s, Work(p, op, r)) && ProcInv(pr')
    requires pr' == Worked(env, s.procs[p], op, r)
    requires s' == s.(procs := s.procs[p := pr'], fs := Effect(env, s.fs, op, r))
    ensures SysInv(env, fs0, s')
  {
    WorkKeepsTable(s.procs, s.locks, p, pr');
    ShapeMove(s, s', p, pr');
    SpreadSame(s.procs, s'.procs);
    if Spread(s.procs) { WorkSerial(env, fs0, s, s', p, op, r, pr'); }
  }

  lemma WorkSerial(env: Env, fs0: Files, s: Sys, s': Sys, p: nat, op: Op, r: Reply, pr': Proc)
    requires Shape(s) && Spread(s.procs) && (exists cuts :: Serial(env, fs0, s, cuts)) && Enabled(s, Work(p, op, r))
    requires pr' == Worked(env, s.procs[p], op, r)
    requires s' == s.(procs := s.procs[p := pr'], fs := Effect(env, s.fs, op, r))
    ensures exists cuts :: Serial(env, fs0, s', cuts)
  {
    var cuts :| Serial(env, fs0, s, cuts);
    var i :| 0 <= i < |s.queue| && s.queue[i] == p;
    OutsideLater(s, i, op);
    SerialWork(env, fs0, s, cuts, i, op, r, pr');
  }

  lemma ActKeeps(env: Env, fs0: Files, s: Sys, a: Act)
    requires SysInv(env, fs0, s) && Enabled(s, a)
    ensures SysInv(env, fs0, Do(env, s, a))
  {
    match a
    case Lock(p) =>
      LockKeepsTable(s.procs, s.locks, p, s.procs[p].order[s.procs[p].phase.k]);
      LockKeeps(env, fs0, s, Do(env, s, a), p, Locked(s.procs[p]));
    case Unlock(p) =>
      UnlockKeepsTable(s.procs, s.locks, p, s.procs[p].order[s.procs[p].phase.k - 1]);
      UnlockKeeps(env, fs0, s, Do(env, s, a), p, Unlocked(s.procs[p]));
    case Work(p, op, r) => WorkKeeps(env, fs0, s, p, op, r);
  }

  // ----- whole executions -----

  ghost function Play(env: Env, s0: Sys, acts: seq<Act>): Option<Sys> {
    if acts == [] then Some(s0)
    else
      match Play(env, s0, acts[..|acts| - 1])
      case None => None
      case Some(s) => if Enabled(s, acts[|acts| - 1]) then Some(Do(env, s, acts[|acts| - 1])) else None
  }

  lemma {:induction false} PlayKeeps(env: Env, s0: Sys, acts: seq<Act>, s: Sys)
    requires Initial(s0) && Play(env, s0, acts) == Some(s)
    ensures SysInv(env, s0.fs, s)
  {
    if acts == [] {
      InitialInv(env, s0);
    } else {
      var t := Play(env, s0, acts[..|acts| - 1]).value;
      PlayKeeps(env, s0, acts[..|acts| - 1], t);
      ActKeeps(env, s0.fs, t, acts[|acts| - 1]);
    }
  }

  // However the calls interleave, the files are what running them one after
  // the other, in the order they got their locks, would have made; each call's
  // part of that is a run of its own protocol from where the previous left off.
  lemma Serializable(env: Env, s0: Sys, acts: seq<Act>, s: Sys)
    requires Initial(s0) && Play(env, s0, acts) == Some(s) && Spread(s.procs)
    ensures exists cuts :: Serial(env, s0.fs, s, cuts)
  {
    PlayKeeps(env, s0, acts, s);
  }

  lemma OneHolder(procs: seq<Proc>, locks: map<string, nat>, p: nat, q: nat, d: string)
    requires LockInv(procs, locks) && p < |procs| && q < |procs| && procs[p].Holds(d) && procs[q].Holds(d)
    ensures p == q
  {
    assert locks[d] == p;
  }

  // No path is ever held by two calls.
  lemma MutualExclusion(env: Env, s0: Sys, acts: seq<Act>, s: Sys, p: nat, q: nat, d: string)
    requires Initial(s0) && Play(env, s0, acts) == Some(s)
    requires p < |s.procs| && q < |s.procs| && s.procs[p].Holds(d) && s.procs[q].Holds(d)
    ensures p == q
  {
    PlayKeeps(env, s0, acts, s);
    OneHolder(s.procs, s.locks, p, q, d);
  }

  // ----- progress -----

  // A system call the protocol allows here, when it is not over.
  ghost function StageOp(stage: Stage, d: string, stamp: nat, data: Bytes, o: Owner): (op: Op)
    ensures AllowsStage(stage, op, d, stamp, data, o)
  {
    match stage
    case SOpen => Open(Temp(d, 0))
    case SWrite => Write(Temp(d, stamp), data)
    case SSync => Sync(Temp(d, stamp))
    case SClose => Close(Temp(d, stamp))
    case SChmod => if o.modeSet then Chmod(Temp(d, stamp), o.mode) else Continue
    case SChown => if o.Chowns() then Chown(Temp(d, stamp), o.uid, o.gid) else Continue
    case SDrop => Remove(Temp(d, stamp))
  }

  ghost function TempMap(job: Job, preps: seq<Prep>, n: nat): (m: map<string, Path>)
    requires n <= job.N() == |preps| && (forall j :: 0 <= j < job.N() ==> preps[j].temp.Some?) && job.WellFormed()
    ensures forall d :: d in m <==> exists j :: 0 <= j < n && job.files[j].abs == d
    ensures forall j :: 0 <= j < n ==>
              job.files[j].abs in m && m[job.files[j].abs] == Temp(job.files[j].abs, preps[j].temp.value)
  {
    if n == 0 then map[]
    else TempMap(job, preps, n - 1)[job.files[n - 1].abs := Temp(job.files[n - 1].abs, preps[n - 1].temp.value)]
  }

  ghost function NextOp(job: Job, l: Local): Op
    requires InBounds(job, l) && job.WellFormed()
  {
    match l.pc
    case AtCtx => CtxErr
    case AtIdem(i) => Read(Live(job.files[i].abs))
    case AtStat(i) => Stat(Live(job.files[i].abs))
    case AtBackupRead(i) => if l.preps[i].hadOrig then Read(Live(job.files[i].abs)) else Continue
    case AtBackupStat(i) => Stat(Live(job.files[i].abs))
    case AtBackupWrite(i) => WriteBackup(Backup(job.files[i].abs, 0), l.data, Perm(l.info.value.mode))
    case AtBackupChown(i) => Chown(Backup(job.files[i].abs, l.stamp), l.info.value.uid, l.info.value.gid)
    case AtBackupCleanup(i) =>
      if l.preps[i].backup.Some? then Remove(Backup(job.files[i].abs, l.preps[i].backup.value)) else Continue
    case AtTemp(i, stage) => StageOp(stage, job.files[i].abs, l.stamp, job.files[i].bytes, l.preps[i].owner)
    case AtPre => Op.PreCommit(TempMap(job, l.preps, job.N()))
    case AtRename(i) => Rename(Temp(job.files[i].abs, l.preps[i].temp.value), Live(job.files[i].abs))
    case AtPost => PostCommit
    case AtRestore(i) =>
      if l.preps[i].backup.Some? then Read(Backup(job.files[i].abs, l.preps[i].backup.value))
      else Remove(Live(job.files[i].abs))
    case AtRestoreTemp(i, stage) => StageOp(stage, job.files[i].abs, l.stamp, l.data, l.preps[i].owner)
    case AtRestoreRename(i) => Rename(Temp(job.files[i].abs, l.stamp), Live(job.files[i].abs))
    case AtPost2 => PostCommit
    case AtPruneList(i) => List(job.files[i].abs)
    case AtPruneRemove(_, todo) => Remove(var p :| p in todo; p)
    case AtCleanTemps(i, _) =>
      if l.preps[i].temp.Some? then Remove(Temp(job.files[i].abs, l.preps[i].temp.value)) else Continue
    case AtEnd(_) => Continue
  }

  lemma NextOpAllowed(job: Job, l: Local)
    requires InBounds(job, l) && job.WellFormed() && !l.pc.AtEnd?
    ensures Allows(job, l, NextOp(job, l))
  {
  }

  lemma RunnerCanWork(env: Env, fs0: Files, s: Sys, p: nat)
    requires SysInv(env, fs0, s) && p < |s.procs| && s.procs[p].phase.Running?
    ensures exists a :: Enabled(s, a)
  {
    var pr := s.procs[p];
    NextOpAllowed(pr.job, pr.phase.l);
    var op := NextOp(pr.job, pr.phase.l);
    assert Enabled(s, Work(p, op, if op.Continue? then Ok else Err));
  }

  // The path a call is waiting for.
  function Wants(pr: Proc): string
    requires pr.phase.Acquiring?
  {
    if pr.phase.k < |pr.order| then pr.order[pr.phase.k] else ""
  }

  ghost predicate Highest(procs: seq<Proc>, p: nat, n: nat) {
    && p < |procs| && procs[p].phase.Acquiring?
    && forall q :: 0 <= q < n && q < |procs| && procs[q].phase.Acquiring? ==> !Less(Wants(procs[p]), Wants(procs[q]))
  }

  lemma {:induction false} SomeHighest(procs: seq<Proc>, p0: nat, n: nat) returns (p: nat)
    requires p0 < |procs| && procs[p0].phase.Acquiring? && n <= |procs|
    ensures Highest(procs, p, n)
  {
    if n == 0 {
      p := p0;
    } else {
      p := SomeHighest(procs, p0, n - 1);
      if procs[n - 1].phase.Acquiring? && Less(Wants(procs[p]), Wants(procs[n - 1])) {
        forall q | 0 <= q < n && procs[q].phase.Acquiring?
          ensures !Less(Wants(procs[n - 1]), Wants(procs[q]))
        {
          if q == n - 1 {
            LessIrreflexive(Wants(procs[q]));
          } else if Less(Wants(procs[n - 1]), Wants(procs[q])) {
            LessTransitive(Wants(procs[p]), Wants(procs[n - 1]), Wants(procs[q]));
          }
        }
        p := n - 1;
      }
    }
  }

  // A waiting call wants more than it holds.
  lemma HeldBelowWanted(pr: Proc, d: string)
    requires ProcInv(pr) && pr.phase.Acquiring? && pr.Holds(d)
    ensures Less(d, Wants(pr))
  {
  }

  lemma WaiterCanLock(s: Sys, p: nat)
    requires LockInv(s.procs, s.locks) && Highest(s.procs, p, |s.procs|)
    requires forall q :: 0 <= q < |s.procs| ==> ProcInv(s.procs[q])
    requires forall q :: 0 <= q < |s.procs| ==> s.procs[q].phase.Acquiring? || s.procs[q].phase.Done?
    ensures Enabled(s, Lock(p))
  {
    var d := Wants(s.procs[p]);
    if d in s.locks {
      var q := s.locks[d];
      assert s.procs[q].Holds(d) && s.procs[q].phase.Acquiring?;
      HeldBelowWanted(s.procs[q], d);
    }
  }

  // In every state any execution can reach, an unfinished call means that some
  // call can move.
  lemma NoDeadlock(env: Env, s0: Sys, acts: seq<Act>, s: Sys, p: nat)
    requires Initial(s0) && Play(env, s0, acts) == Some(s) && p < |s.procs| && !s.procs[p].phase.Done?
    ensures exists a :: Enabled(s, a)
  {
    PlayKeeps(env, s0, acts, s);
    if q :| 0 <= q < |s.procs| && s.procs[q].phase.Running? {
      RunnerCanWork(env, s0.fs, s, q);
    } else if q :| 0 <= q < |s.procs| && s.procs[q].phase.Releasing? {
      assert ProcInv(s.procs[q]);
      assert Enabled(s, Unlock(q));
    } else {
      var h := SomeHighest(s.procs, p, |s.procs|);
      WaiterCanLock(s, h);
    }
  }
}
