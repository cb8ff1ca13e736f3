/**
 Any number of concurrent calls: each locks its paths in sorted order, runs,
 and unlocks in reverse. The lock of a path is a mutex that is not reentrant.
 */
module Locks {
  import opened FileSystem
  import opened Protocol
  import opened Progress
  import opened Runs
  import opened Commuting
  import opened Order

  datatype Phase = Acquiring(k: nat) | Running(l: Local) | Releasing(k: nat, l: Local) | Done(l: Local)

  datatype Proc = Proc(job: Job, order: seq<string>, phase: Phase, trace: seq<Event>) {
    function Depth(): nat {
      match phase
      case Acquiring(k) => k
      case Running(_) => |order|
      case Releasing(k, _) => k
      case Done(_) => 0
    }

    ghost predicate Holds(d: string) { exists i :: 0 <= i < Depth() && i < |order| && order[i] == d }
  }

  // `queue` lists the calls that have got all their locks, in that order.
  datatype Sys = Sys(procs: seq<Proc>, locks: map<string, nat>, fs: Files, queue: seq<nat>)

  datatype Act = Lock(p: nat) | Work(p: nat, op: Op, reply: Reply) | Unlock(p: nat)

  function Paths(job: Job): seq<string> { seq(|job.files|, i requires 0 <= i < |job.files| => job.files[i].abs) }

  predicate Enabled(s: Sys, a: Act) {
    && a.p < |s.procs|
    && var pr := s.procs[a.p];
    match a
    case Lock(_) => pr.phase.Acquiring? && pr.phase.k < |pr.order| && pr.order[pr.phase.k] !in s.locks
    case Work(_, op, r) =>
      pr.phase.Running? && InBounds(pr.job, pr.phase.l) && Allows(pr.job, pr.phase.l, op) && Permitted(s.fs, op, r)
    case Unlock(_) => pr.phase.Releasing? && 0 < pr.phase.k <= |pr.order|
  }

  function Locked(pr: Proc): Proc
    requires pr.phase.Acquiring?
  {
    pr.(phase := if pr.phase.k + 1 == |pr.order| then Running(START) else Acquiring(pr.phase.k + 1))
  }

  function Worked(env: Env, pr: Proc, op: Op, r: Reply): Proc
    requires pr.phase.Running? && InBounds(pr.job, pr.phase.l) && Allows(pr.job, pr.phase.l, op)
  {
    var l := Recv(env, pr.job, pr.phase.l, op, r);
    pr.(phase := if l.pc.AtEnd? then Releasing(|pr.order|, l) else Running(l), trace := pr.trace + [Event(op, r)])
  }

  function Unlocked(pr: Proc): Proc
    requires pr.phase.Releasing? && pr.phase.k > 0
  {
    pr.(phase := if pr.phase.k == 1 then Done(pr.phase.l) else Releasing(pr.phase.k - 1, pr.phase.l))
  }

  function Do(env: Env, s: Sys, a: Act): Sys
    requires Enabled(s, a)
  {
    var p, pr := a.p, s.procs[a.p];
    match a
    case Lock(_) =>
      Sys(s.procs[p := Locked(pr)], s.locks[pr.order[pr.phase.k] := p], s.fs,
          if pr.phase.k + 1 == |pr.order| then s.queue + [p] else s.queue)
    case Work(_, op, r) => s.(procs := s.procs[p := Worked(env, pr, op, r)], fs := Effect(env, s.fs, op, r))
    case Unlock(_) => s.(procs := s.procs[p := Unlocked(pr)], locks := s.locks - {pr.order[pr.phase.k - 1]})
  }

  ghost predicate Initial(s: Sys) {
    && s.locks == map[] && s.queue == []
    && forall p :: 0 <= p < |s.procs| ==>
         && s.procs[p].job.WellFormed() && s.procs[p].order == Sort(Paths(s.procs[p].job))
         && s.procs[p].phase == Acquiring(0) && s.procs[p].trace == []
  }

  // ----- the invariant -----

  ghost predicate ProcInv(pr: Proc) {
    && pr.job.WellFormed() && Ascending(pr.order) && (set d | d in pr.order) == Dests(pr.job) && |pr.order| > 0
    && match pr.phase
       case Acquiring(k) => k < |pr.order| && pr.trace == []
       case Running(l) => !l.pc.AtEnd? && Sane(pr.job, l) && TodoListed(pr.job, l)
       case Releasing(k, l) => 0 < k <= |pr.order| && l.pc.AtEnd?
       case Done(l) => l.pc.AtEnd?
  }

  // The lock table says exactly who holds what, so no path is held twice.
  ghost predicate LockInv(procs: seq<Proc>, locks: map<string, nat>) {
    && (forall p, d :: 0 <= p < |procs| && procs[p].Holds(d) ==> d in locks && locks[d] == p)
    && (forall d :: d in locks ==> locks[d] < |procs| && procs[locks[d]].Holds(d))
  }

  ghost predicate QueueInv(s: Sys) {
    && (forall i, j :: 0 <= i < j < |s.queue| ==> s.queue[i] != s.queue[j])
    && (forall i :: 0 <= i < |s.queue| ==> s.queue[i] < |s.procs| && !s.procs[s.queue[i]].phase.Acquiring?)
    && (forall p :: 0 <= p < |s.procs| && !s.procs[p].phase.Acquiring? ==> p in s.queue)
  }

  // A call still running shares no path with those that got their locks later.
  ghost predicate ApartInv(s: Sys)
    requires forall i :: 0 <= i < |s.queue| ==> s.queue[i] < |s.procs|
  {
    forall i, j :: 0 <= i < j < |s.queue| && s.procs[s.queue[i]].phase.Running? ==>
      Dests(s.procs[s.queue[i]].job) !! Dests(s.procs[s.queue[j]].job)
  }

  function LocalOf(ph: Phase): Local { if ph.Acquiring? then START else ph.l }

  // The calls run one after the other, in queue order, give the same files.
  ghost predicate Serial(env: Env, fs0: Files, s: Sys, cuts: seq<Files>) {
    && |cuts| == |s.queue| + 1 && cuts[0] == fs0 && cuts[|s.queue|] == s.fs
    && forall k :: 0 <= k < |s.queue| ==>
         && s.queue[k] < |s.procs|
         && var pr := s.procs[s.queue[k]];
         Reaches(env, pr.job, cuts[k], pr.trace, LocalOf(pr.phase), cuts[k + 1])
  }

  ghost predicate Shape(s: Sys) {
    (forall p :: 0 <= p < |s.procs| ==> ProcInv(s.procs[p])) && QueueInv(s) && ApartInv(s)
  }

  // No destination of one call is near a destination of another.
  ghost predicate Spread(procs: seq<Proc>) {
    forall p, q :: 0 <= p < |procs| && 0 <= q < |procs| ==> NamesApart(procs[p].job, procs[q].job)
  }

  ghost predicate SysInv(env: Env, fs0: Files, s: Sys) {
    Shape(s) && LockInv(s.procs, s.locks) && (Spread(s.procs) ==> exists cuts :: Serial(env, fs0, s, cuts))
  }

  // The sorted path list covers the plan's destinations, each once.
  lemma OrderCovers(job: Job)
    requires job.WellFormed()
    ensures Ascending(Sort(Paths(job))) && (set d | d in Sort(Paths(job))) == Dests(job) && |Sort(Paths(job))| > 0
  {
    var paths := Paths(job);
    SortContains(paths);
    SortAscends(paths);
    assert |multiset(paths)| == |multiset(Sort(paths))|;
    forall d
      ensures d in Sort(paths) <==> d in Dests(job)
    {
      assert d in Sort(paths) <==> d in multiset(Sort(paths));
      assert d in paths <==> d in multiset(paths);
      if d in Dests(job) {
        var i :| 0 <= i < |job.files| && job.files[i].abs == d;
        assert paths[i] == d;
      }
    }
  }

  lemma InitialInv(env: Env, s: Sys)
    requires Initial(s)
    ensures SysInv(env, s.fs, s)
  {
    forall p | 0 <= p < |s.procs|
      ensures ProcInv(s.procs[p])
    {
      OrderCovers(s.procs[p].job);
    }
    assert Serial(env, s.fs, s, [s.fs]);
  }

  // ----- locking -----

  lemma LockKeepsTable(procs: seq<Proc>, locks: map<string, nat>, p: nat, d: string)
    requires LockInv(procs, locks) && p < |procs| && ProcInv(procs[p]) && procs[p].phase.Acquiring?
    requires d == procs[p].order[procs[p].phase.k] && d !in locks
    ensures LockInv(procs[p := Locked(procs[p])], locks[d := p])
  {
    var pr, pr' := procs[p], Locked(procs[p]);
    assert pr'.order[pr.phase.k] == d && pr'.Holds(d);
    forall e
      ensures pr'.Holds(e) <==> pr.Holds(e) || e == d
    {
      if pr'.Holds(e) && e != d {
        var i :| 0 <= i < pr'.Depth() && i < |pr.order| && pr.order[i] == e;
        assert i < pr.Depth();
      }
      if pr.Holds(e) {
        var i :| 0 <= i < pr.Depth() && i < |pr.order| && pr.order[i] == e;
        assert pr'.order[i] == e;
      }
    }
  }

  lemma UnlockKeepsTable(procs: seq<Proc>, locks: map<string, nat>, p: nat, d: string)
    requires LockInv(procs, locks) && p < |procs| && ProcInv(procs[p]) && procs[p].phase.Releasing?
    requires d == procs[p].order[procs[p].phase.k - 1]
    ensures LockInv(procs[p := Unlocked(procs[p])], locks - {d})
  {
    var pr, pr' := procs[p], Unlocked(procs[p]);
    assert pr.Holds(d);
    assert locks[d] == p;
    LessIrreflexive(d);
    forall e
      ensures pr'.Holds(e) <==> pr.Holds(e) && e != d
    {
      if pr'.Holds(e) {
        var i :| 0 <= i < pr'.Depth() && i < |pr.order| && pr.order[i] == e;
        assert pr.order[i] == e && Less(e, d);
      }
      if pr.Holds(e) && e != d {
        var i :| 0 <= i < pr.Depth() && i < |pr.order| && pr.order[i] == e;
        assert pr'.order[i] == e && i < pr'.Depth();
      }
    }
  }

  lemma WorkKeepsTable(procs: seq<Proc>, locks: map<string, nat>, p: nat, pr': Proc)
    requires LockInv(procs, locks) && p < |procs| && pr'.order == procs[p].order && pr'.Depth() == procs[p].Depth()
    ensures LockInv(procs[p := pr'], locks)
  {
    assert forall d :: pr'.Holds(d) <==> procs[p].Holds(d);
  }

  lemma HolderOwns(procs: seq<Proc>, locks: map<string, nat>, p: nat)
    requires LockInv(procs, locks) && p < |procs| && ProcInv(procs[p]) && procs[p].Depth() == |procs[p].order|
    ensures forall d :: d in Dests(procs[p].job) ==> d in locks && locks[d] == p
  {
    forall d | d in Dests(procs[p].job)
      ensures d in locks && locks[d] == p
    {
      assert d in procs[p].order;
      assert procs[p].Holds(d);
    }
  }

  // Two calls that hold all their locks have no path in common.
  lemma HoldersApart(procs: seq<Proc>, locks: map<string, nat>, p: nat, q: nat)
    requires LockInv(procs, locks) && p < |procs| && q < |procs| && p != q && ProcInv(procs[p]) && ProcInv(procs[q])
    requires procs[p].Depth() == |procs[p].order| && procs[q].Depth() == |procs[q].order|
    ensures Dests(procs[p].job) !! Dests(procs[q].job)
  {
    HolderOwns(procs, locks, p);
    HolderOwns(procs, locks, q);
  }

  // A call whose next lock is one it holds cannot take it.
  lemma RepeatedPathBlocks(s: Sys, p: nat, k: nat)
    requires LockInv(s.procs, s.locks) && p < |s.procs| && s.procs[p].phase == Acquiring(k)
    requires 0 < k < |s.procs[p].order| && s.procs[p].order[k] == s.procs[p].order[k - 1]
    ensures !Enabled(s, Lock(p)) && s.procs[p].order[k] in s.locks && s.locks[s.procs[p].order[k]] == p
  {
    assert s.procs[p].Holds(s.procs[p].order[k - 1]);
  }
}
