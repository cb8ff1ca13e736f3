/** Concurrent calls end, each with its promise kept. */
module Liveness {
  import opened Common
  import opened FileSystem
  import opened Protocol
  import opened Progress
  import opened Names
  import opened Runs
  import opened Guarantees
  import opened Commuting
  import opened Locks
  import opened Interleaving

  // ----- every finished call -----

  // A finished call with backups on and honest first stats.
  ghost predicate Promising(pr: Proc, f: Files) {
    && !pr.phase.Acquiring? && pr.phase.l.pc.AtEnd? && pr.job.retention != -1
    && HonestStats(f, pr.trace) && Orderly(pr.job)
  }

  // A call that has run from f to g, is over and does not report a failed
  // rollback has deployed all or nothing.
  ghost predicate Kept(env: Env, pr: Proc, f: Files, g: Files) {
    Promising(pr, f) ==>
      match pr.phase.l.pc.outcome.Err()
      case RollbackFailed => true
      case NoError => AllNew(pr.job, g)
      case _ => AllOld(pr.job, f, g)
  }

  lemma KeptAt(env: Env, pr: Proc, f: Files, g: Files)
    requires pr.job.WellFormed() && Proper(Dests(pr.job), pr.job) && Injective(env)
    requires Reaches(env, pr.job, f, pr.trace, LocalOf(pr.phase), g)
    ensures Kept(env, pr, f, g)
  {
    if Promising(pr, f) {
      var o := pr.phase.l.pc.outcome;
      if o.Err() != RollbackFailed { AllOrNothing(env, pr.job, f, pr.trace, pr.phase.l, g, o); }
    }
  }

  // However calls interleave, there is a serial order of them with the same
  // files in which each finished call is all or nothing.
  lemma EveryCallKept(env: Env, s0: Sys, acts: seq<Act>, s: Sys)
    requires Initial(s0) && Play(env, s0, acts) == Some(s) && Spread(s.procs) && Injective(env)
    ensures exists cuts :: Serial(env, s0.fs, s, cuts) &&
              forall k :: 0 <= k < |s.queue| ==> Kept(env, s.procs[s.queue[k]], cuts[k], cuts[k + 1])
  {
    PlayKeeps(env, s0, acts, s);
    var cuts :| Serial(env, s0.fs, s, cuts);
    forall k | 0 <= k < |s.queue|
      ensures Kept(env, s.procs[s.queue[k]], cuts[k], cuts[k + 1])
    {
      assert NamesApart(s.procs[s.queue[k]].job, s.procs[s.queue[k]].job);
      KeptAt(env, s.procs[s.queue[k]], cuts[k], cuts[k + 1]);
    }
  }

  // ----- no call waits or works forever -----

  // What a call has left to do, apart from the removals of a pruning.
  function Weight(pr: Proc): nat {
    match pr.phase
    case Acquiring(k) => Natural(Rank(pr.job, AtCtx)) + 2 * |pr.order| + 2 - if k < |pr.order| then k else |pr.order|
    case Running(l) => Natural(Rank(pr.job, l.pc)) + |pr.order| + 1
    case Releasing(k, _) => k
    case Done(_) => 0
  }

  function Natural(n: int): nat { if n < 0 then 0 else n }

  function Todo(pr: Proc): nat { if pr.phase.Running? && pr.phase.l.pc.AtPruneRemove? then |pr.phase.l.pc.todo| else 0 }

  function Sum(f: Proc -> nat, procs: seq<Proc>): nat {
    if procs == [] then 0 else Sum(f, procs[..|procs| - 1]) + f(procs[|procs| - 1])
  }

  lemma {:induction false} SumUpdate(f: Proc -> nat, procs: seq<Proc>, p: nat, pr: Proc)
    requires p < |procs|
    ensures Sum(f, procs[p := pr]) + f(procs[p]) == Sum(f, procs) + f(pr)
  {
    var n := |procs| - 1;
    if p == n {
      assert procs[p := pr][..n] == procs[..n];
    } else {
      SumUpdate(f, procs[..n], p, pr);
      assert procs[p := pr][..n] == procs[..n][p := pr];
    }
  }

  // One act brings a call closer to its end.
  predicate Lighter(pr: Proc,
                    pr': Proc) { Weight(pr') < Weight(pr) || (Weight(pr') == Weight(pr) && Todo(pr') < Todo(pr)) }

  lemma RankNatural(job: Job, pc: PC, pc': PC)
    requires Further(job, pc, pc') && 0 <= Within(job, pc) && 0 <= Within(job, pc')
    ensures 0 <= Rank(job, pc') <= Rank(job, pc)
    ensures Rank(job, pc') < Rank(job, pc) || (pc.AtPruneRemove? && pc'.AtPruneRemove? && pc'.todo < pc.todo)
  {
    if Below(job, pc', pc) {
      RankFalls(job, pc, pc');
    } else {
      assert PhaseNo(job, pc) * Block(job) >= 0;
    }
  }

  lemma WithinNatural(job: Job, l: Local)
    requires InBounds(job, l)
    ensures 0 <= Within(job, l.pc)
  {
  }

  lemma Smaller(a: set<Path>, b: set<Path>)
    requires a < b
    ensures |a| < |b|
  {
    var p :| p in b && p !in a;
    assert b == (b - {p}) + {p} && a <= b - {p};
    SizeGrows(a, b - {p});
  }

  lemma WorkLighter(env: Env, pr: Proc, op: Op, r: Reply)
    requires ProcInv(pr) && pr.phase.Running? && Allows(pr.job, pr.phase.l, op)
    ensures Lighter(pr, Worked(env, pr, op, r))
  {
    var l' := Recv(env, pr.job, pr.phase.l, op, r);
    StepOnward(env, pr.job, pr.phase.l, op, r);
    WithinNatural(pr.job, pr.phase.l);
    WithinNatural(pr.job, l');
    RankNatural(pr.job, pr.phase.l.pc, l'.pc);
    if pr.phase.l.pc.AtPruneRemove? && l'.pc.AtPruneRemove? && l'.pc.todo < pr.phase.l.pc.todo {
      Smaller(l'.pc.todo, pr.phase.l.pc.todo);
    }
  }

  lemma LockLighter(pr: Proc)
    requires ProcInv(pr) && pr.phase.Acquiring?
    ensures Lighter(pr, Locked(pr))
  {
  }

  lemma UnlockLighter(pr: Proc)
    requires ProcInv(pr) && pr.phase.Releasing?
    ensures Lighter(pr, Unlocked(pr))
  {
  }

  // The two sums, the second counting only where the first stays.
  predicate Falls(a: seq<Proc>, b: seq<Proc>) {
    || Sum(Weight, b) < Sum(Weight, a)
    || (Sum(Weight, b) == Sum(Weight, a) && Sum(Todo, b) < Sum(Todo, a))
  }

  // Every act leaves less to do.
  lemma ActFalls(env: Env, s: Sys, a: Act)
    requires Shape(s) && Enabled(s, a)
    ensures Falls(s.procs, Do(env, s, a).procs)
  {
    var p, pr := a.p, s.procs[a.p];
    var pr' := Do(env, s, a).procs[p];
    match a {
      case Lock(_) => LockLighter(pr);
      case Unlock(_) => UnlockLighter(pr);
      case Work(_, op, r) => WorkLighter(env, pr, op, r);
    }
    SumUpdate(Weight, s.procs, p, pr');
    SumUpdate(Todo, s.procs, p, pr');
  }

  ghost predicate Follows(env: Env, s: nat -> Sys, a: nat -> Act, k: nat) {
    Enabled(s(k), a(k)) && s(k + 1) == Do(env, s(k), a(k))
  }

  // No interleaving goes on forever.
  lemma {:induction false} NoInfinitePlay(env: Env, fs0: Files, s: nat -> Sys, a: nat -> Act, n: nat)
    requires SysInv(env, fs0, s(n))
    ensures exists k: nat :: n <= k && !Follows(env, s, a, k)
    decreases Sum(Weight, s(n).procs), Sum(Todo, s(n).procs)
  {
    if Follows(env, s, a, n) {
      ActKeeps(env, fs0, s(n), a(n));
      ActFalls(env, s(n), a(n));
      NoInfinitePlay(env, fs0, s, a, n + 1);
    }
  }

  predicate AllDone(s: Sys) { forall p :: 0 <= p < |s.procs| ==> s.procs[p].phase.Done? }

  // A play that cannot go on has finished every call.
  lemma StoppedIsDone(env: Env, s0: Sys, acts: seq<Act>, s: Sys)
    requires Initial(s0) && Play(env, s0, acts) == Some(s) && forall a :: !Enabled(s, a)
    ensures AllDone(s)
  {
    forall p | 0 <= p < |s.procs|
      ensures s.procs[p].phase.Done?
    {
      if !s.procs[p].phase.Done? { NoDeadlock(env, s0, acts, s, p); }
    }
  }

  // And from every reachable state all calls can be brought to their end.
  lemma {:induction false} CanFinish(env: Env, s0: Sys, acts: seq<Act>, s: Sys) returns (all: seq<Act>, t: Sys)
    requires Initial(s0) && Play(env, s0, acts) == Some(s)
    ensures Play(env, s0, all) == Some(t) && AllDone(t) && acts <= all
    decreases Sum(Weight, s.procs), Sum(Todo, s.procs)
  {
    if AllDone(s) {
      all, t := acts, s;
    } else {
      var p :| 0 <= p < |s.procs| && !s.procs[p].phase.Done?;
      NoDeadlock(env, s0, acts, s, p);
      var a :| Enabled(s, a);
      PlayKeeps(env, s0, acts, s);
      ActFalls(env, s, a);
      assert (acts + [a])[..|acts|] == acts;
      all, t := CanFinish(env, s0, acts + [a], Do(env, s, a));
    }
  }

  // ----- why repeated destinations are rejected -----

  // The call waits for a lock it holds.
  ghost predicate WaitsForItself(s: Sys, p: nat, k: nat) {
    && LockInv(s.procs, s.locks) && p < |s.procs| && s.procs[p].phase == Acquiring(k)
    && 0 < k < |s.procs[p].order| && s.procs[p].order[k] == s.procs[p].order[k - 1]
    && forall q :: 0 <= q < |s.procs| && q != p ==> ProcInv(s.procs[q])
  }

  // Nothing another call does changes that.
  lemma OthersMove(s: Sys, s': Sys, p: nat, k: nat, q: nat, pr': Proc)
    requires WaitsForItself(s, p, k) && q < |s.procs| && q != p && s'.procs == s.procs[q := pr']
    requires LockInv(s'.procs, s'.locks) && ProcInv(pr')
    ensures WaitsForItself(s', p, k) && s'.procs[p] == s.procs[p]
  {
  }

  // The lock table and the call that moves stay in order.
  ghost predicate InOrder(s: Sys, q: nat) { LockInv(s.procs, s.locks) && q < |s.procs| && ProcInv(s.procs[q]) }

  lemma LockInOrder(env: Env, s: Sys, q: nat)
    requires InOrder(s, q) && Enabled(s, Lock(q))
    ensures InOrder(Do(env, s, Lock(q)), q)
  {
    LockKeepsTable(s.procs, s.locks, q, s.procs[q].order[s.procs[q].phase.k]);
  }

  lemma UnlockInOrder(env: Env, s: Sys, q: nat)
    requires InOrder(s, q) && Enabled(s, Unlock(q))
    ensures InOrder(Do(env, s, Unlock(q)), q)
  {
    UnlockKeepsTable(s.procs, s.locks, q, s.procs[q].order[s.procs[q].phase.k - 1]);
  }

  lemma WorkInOrder(env: Env, s: Sys, q: nat, op: Op, r: Reply)
    requires InOrder(s, q) && Enabled(s, Work(q, op, r))
    ensures InOrder(Do(env, s, Work(q, op, r)), q)
  {
    WorkKeepsTable(s.procs, s.locks, q, Worked(env, s.procs[q], op, r));
    WorkProc(env, s.fs, s.procs[q], op, r);
  }

  lemma StillWaits(env: Env, s: Sys, p: nat, k: nat, a: Act)
    requires WaitsForItself(s, p, k) && Enabled(s, a)
    ensures WaitsForItself(Do(env, s, a), p, k) && Do(env, s, a).procs[p] == s.procs[p]
  {
    RepeatedPathBlocks(s, p, k);
    var q, s' := a.p, Do(env, s, a);
    assert q != p;
    match a {
      case Lock(_) => LockInOrder(env, s, q);
      case Unlock(_) => UnlockInOrder(env, s, q);
      case Work(_, op, r) => WorkInOrder(env, s, q, op, r);
    }
    OthersMove(s, s', p, k, q, s'.procs[q]);
  }

  // In every play from there the call never moves again.
  lemma {:induction false} RepeatedPathBlocksForever(env: Env, s: Sys, p: nat, k: nat, acts: seq<Act>, t: Sys)
    requires WaitsForItself(s, p, k) && Play(env, s, acts) == Some(t)
    ensures WaitsForItself(t, p, k) && t.procs[p] == s.procs[p]
    ensures forall a :: Enabled(t, a) ==> a.p != p
  {
    if acts != [] {
      var u := Play(env, s, acts[..|acts| - 1]).value;
      RepeatedPathBlocksForever(env, s, p, k, acts[..|acts| - 1], u);
      StillWaits(env, u, p, k, acts[|acts| - 1]);
    }
    RepeatedPathBlocks(t, p, k);
  }
}
