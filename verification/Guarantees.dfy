/**
 What the deploy package promises of one call, over every plan and every
 pattern of failures. `run` is any sequence of system calls and replies.
 */
module Guarantees {
  import opened Common
  import opened FileSystem
  import opened Ownership
  import opened Retention
  import opened Protocol
  import opened Names
  import opened Invariant
  import opened Runs
  import opened Events

  function BytesAt(fs: Files, p: Path): Option<Bytes> { if p in fs then Some(fs[p].bytes) else None }

  ghost predicate AllNew(job: Job, fs: Files) {
    forall j :: 0 <= j < job.N() ==> BytesAt(fs, Live(job.files[j].abs)) == Some(job.files[j].bytes)
  }

  ghost predicate AllOld(job: Job, fs0: Files, fs: Files) {
    forall j :: 0 <= j < job.N() ==> BytesAt(fs, Live(job.files[j].abs)) == BytesAt(fs0, Live(job.files[j].abs))
  }

  ghost predicate Untouched(job: Job, fs0: Files, fs: Files) {
    forall j :: 0 <= j < job.N() ==> SameAt(fs0, fs, Live(job.files[j].abs))
  }

  ghost predicate Injective(env: Env) {
    forall a: Bytes, b: Bytes :: env.hash(a) == env.hash(b) ==> a == b
  }

  // None of the first n destinations existed.
  predicate NoneExisted(job: Job, fs0: Files, n: nat) {
    forall j :: 0 <= j < n && j < job.N() ==> Live(job.files[j].abs) !in fs0
  }

  // A run of the call that has got to l, with the files fs. No destination is
  // called like a temp or backup of the plan: for such plans, a run on paths
  // and a run on names are the same thing (Naming.RunsByName).
  ghost predicate Arrived(env: Env, job: Job, fs0: Files, run: seq<Event>, l: Local, fs: Files) {
    job.WellFormed() && Proper(Dests(job), job) && Reaches(env, job, fs0, run, l, fs)
  }

  // ... in which the first stat of a destination failed only if it was absent.
  ghost predicate Ran(env: Env, job: Job, fs0: Files, run: seq<Event>, l: Local, fs: Files) {
    Arrived(env, job, fs0, run, l, fs) && HonestStats(fs0, run)
  }

  // The janitor cannot take one destination for another's backup.
  predicate Orderly(job: Job) { job.Unlisted() || job.Keep() <= 0 }

  // Whatever else a run gives: the invariant and what its replies entail.
  lemma Facts(env: Env, job: Job, fs0: Files, run: seq<Event>, l: Local, fs: Files)
    requires Arrived(env, job, fs0, run, l, fs)
    ensures Inv(env, job, fs0, l, fs) && (HonestStats(fs0, run) ==> SawAll(job, fs0, l))
    ensures l.pre == Pres(run) && l.post == Posts(run)
    ensures job.Spaced() || job.Keep() <= 0 || !Janitored(l.pc) ==> Rest(env, job, fs0, l, fs)
    ensures Orderly(job) || !Janitored(l.pc) ==> LiveInv(env, job, fs0, l, fs)
  {
    RunKeepsInvariant(env, job, fs0, run, l, fs);
    RunBooks(env, job, fs0, run, l, fs);
  }

  // ----- how a call leaves the bytes -----

  // A restored destination has its old bytes exactly when rollback could know them.
  lemma RestoredAt(env: Env, job: Job, fs0: Files, l: Local, fs: Files, j: nat)
    requires j < job.N() && j < |l.preps| && IsBack(env, job, fs0, l, fs, j)
    requires PrepAt(env, job, fs0, l, j) && BackedUp(job, l) == job.N() && SawAll(job, fs0, l)
    ensures BytesAt(fs, Live(job.files[j].abs)) == BytesAt(fs0, Live(job.files[j].abs))
            <==> job.retention != -1 || Live(job.files[j].abs) !in fs0
  {
  }

  lemma RolledBackExactly(env: Env, job: Job, fs0: Files, l: Local, fs: Files)
    requires Inv(env, job, fs0, l, fs) && Rest(env, job, fs0, l, fs) && SawAll(job, fs0, l)
    requires !l.firstErr && l.undone == l.done && BackedUp(job, l) == job.N()
    ensures AllOld(job, fs0, fs) <==> job.retention != -1 || NoneExisted(job, fs0, l.done)
  {
    forall j | 0 <= j < job.N()
      ensures BytesAt(fs, Live(job.files[j].abs)) == BytesAt(fs0, Live(job.files[j].abs))
              <==> job.retention != -1 || j >= l.done || Live(job.files[j].abs) !in fs0
    {
      assert LiveAt(env, job, fs0, l, fs, j);
      if j < l.done {
        assert PrepAt(env, job, fs0, l, j);
        RestoredAt(env, job, fs0, l, fs, j);
      }
    }
    if !(job.retention != -1 || NoneExisted(job, fs0, l.done)) {
      var j :| 0 <= j < l.done && j < job.N() && Live(job.files[j].abs) in fs0;
      assert BytesAt(fs, Live(job.files[j].abs)) != BytesAt(fs0, Live(job.files[j].abs));
    }
  }

  lemma SucceededNew(env: Env, job: Job, fs0: Files, l: Local, fs: Files)
    requires Inv(env, job, fs0, l, fs) && LiveInv(env, job, fs0, l, fs)
    requires l.pc == AtEnd(Deployed) || (l.pc == AtEnd(Skipped) && Injective(env))
    ensures AllNew(job, fs)
  {
    forall j | 0 <= j < job.N()
      ensures BytesAt(fs, Live(job.files[j].abs)) == Some(job.files[j].bytes)
    {
      assert LiveAt(env, job, fs0, l, fs, j);
      if l.pc == AtEnd(Skipped) {
        assert Matches(env, job, fs0, j);
        assert fs0[Live(job.files[j].abs)].bytes == job.files[j].bytes;
      }
    }
  }

  lemma EarlyUntouched(env: Env, job: Job, fs0: Files, l: Local, fs: Files)
    requires LiveInv(env, job, fs0, l, fs) && l.done == 0
    ensures Untouched(job, fs0, fs)
  {
    forall j | 0 <= j < job.N()
      ensures SameAt(fs0, fs, Live(job.files[j].abs))
    {
      assert LiveAt(env, job, fs0, l, fs, j);
    }
  }

  // How every way of returning leaves the destinations. Rollback restores the
  // old bytes if and only if backups were on or it had nothing to restore.
  lemma EveryReturn(env: Env, job: Job, fs0: Files, run: seq<Event>, l: Local, fs: Files, o: Outcome)
    requires Arrived(env, job, fs0, run, l, fs) && l.pc == AtEnd(o)
    ensures (o.Skipped? && Injective(env)) || (o.Deployed? && Orderly(job)) ==> AllNew(job, fs)
    ensures o.Aborted? || o.Rejected? ==> Untouched(job, fs0, fs)
    ensures o.RolledBack? && HonestStats(fs0, run) ==>
              (AllOld(job, fs0, fs) <==> job.retention != -1 || NoneExisted(job, fs0, job.N()))
    ensures o.RenameFailed? && HonestStats(fs0, run) ==>
              (AllOld(job, fs0, fs) <==> job.retention != -1 || NoneExisted(job, fs0, l.done))
  {
    Facts(env, job, fs0, run, l, fs);
    match o
    case Skipped => if Injective(env) { SucceededNew(env, job, fs0, l, fs); }
    case Deployed => if Orderly(job) { SucceededNew(env, job, fs0, l, fs); }
    case Aborted => EarlyUntouched(env, job, fs0, l, fs);
    case Rejected => EarlyUntouched(env, job, fs0, l, fs);
    case RolledBack => if HonestStats(fs0, run) { RolledBackExactly(env, job, fs0, l, fs); }
    case RenameFailed => if HonestStats(fs0, run) { RolledBackExactly(env, job, fs0, l, fs); }
    case Stranded =>
  }

  // ----- mode and owner -----

  // The ownership the plan resolves to for a destination.
  function Resolution(env: Env, job: Job, fs0: Files, j: nat): Option<Owner>
    requires j < job.N()
  {
    var p := Live(job.files[j].abs);
    ResolveOwnership(env, job.files[j], job.defaults, if p in fs0 then Some(InfoOf(fs0[p])) else None)
  }

  // The plan names an owner and a group for the file, or its defaults do.
  predicate Explicit(file: FileSpec) { file.owner != "" && file.group != "" }

  predicate ByDefault(d: Defaults) { d.owner != "" && d.group != "" }

  // The tables know the user and the group.
  predicate Known(env: Env, owner: string, group: string) { env.users(owner).Some? && env.groups(group).Some? }

  // A name that counts is not in the tables: explicit names always count,
  // defaults only for a new file without them.
  predicate LookupFails(env: Env, job: Job, fs0: Files, j: nat)
    requires j < job.N()
  {
    var file, d := job.files[j], job.defaults;
    if Explicit(file) then !Known(env, file.owner, file.group)
    else Live(file.abs) !in fs0 && ByDefault(d) && !Known(env, d.owner, d.group)
  }

  // What the plan, the tables and the file there was ask for.
  lemma ResolutionMeans(env: Env, job: Job, fs0: Files, j: nat)
    requires j < job.N()
    ensures var file, d, p := job.files[j], job.defaults, Live(job.files[j].abs);
            var r := Resolution(env, job, fs0, j);
            && (r.None? <==> LookupFails(env, job, fs0, j))
            && (r.Some? ==>
                  && (file.mode != 0 ==> r.value.modeSet && r.value.mode == file.mode)
                  && (file.mode == 0 && p in fs0 ==> r.value.modeSet && r.value.mode == fs0[p].mode % 512)
                  && (file.mode == 0 && p !in fs0 && d.mode != 0 ==> r.value.modeSet && r.value.mode == d.mode)
                  && (file.mode == 0 && p !in fs0 && d.mode == 0 ==> !r.value.modeSet)
                  && (Explicit(file) ==>
                        && env.users(file.owner) == Some(r.value.uid)
                        && env.groups(file.group) == Some(r.value.gid))
                  && (!Explicit(file) && p in fs0 ==> r.value.uid == fs0[p].uid && r.value.gid == fs0[p].gid)
                  && (!Explicit(file) && p !in fs0 && ByDefault(d) ==>
                        && env.users(d.owner) == Some(r.value.uid)
                        && env.groups(d.group) == Some(r.value.gid))
                  && (!Explicit(file) && p !in fs0 && !ByDefault(d) ==> r.value.uid < 0 && r.value.gid < 0))
  {
  }

  // f has the pair asked for; without root a chown may have failed, and then it is
  // the process's. A negative number asks for nothing.
  predicate HasPair(env: Env, f: File, uid: int, gid: int) {
    if uid < 0 || gid < 0 then f.uid == env.uid && f.gid == env.gid
    else (f.uid == uid && f.gid == gid) || (!env.root && f.uid == env.uid && f.gid == env.gid)
  }

  // Every deployed file has the plan's bytes; the plan's mode, else the old
  // permission bits, else the default; and the owner and group named for it,
  // else the old ones, else the defaults, else the process's own.
  lemma DeployedOwnership(env: Env, job: Job, fs0: Files, run: seq<Event>, l: Local, fs: Files, j: nat)
    requires Ran(env, job, fs0, run, l, fs) && l.pc == AtEnd(Deployed) && Orderly(job) && j < job.N()
    ensures Live(job.files[j].abs) in fs
    ensures var file, d, p := job.files[j], job.defaults, Live(job.files[j].abs);
            var f := fs[p];
            && f.bytes == file.bytes
            && (file.mode != 0 ==> f.mode == file.mode)
            && (file.mode == 0 && p in fs0 ==> f.mode == fs0[p].mode % 512)
            && (file.mode == 0 && p !in fs0 && d.mode != 0 ==> f.mode == d.mode)
            && (Explicit(file) ==>
                  && Known(env, file.owner, file.group)
                  && HasPair(env, f, env.users(file.owner).value, env.groups(file.group).value))
            && (!Explicit(file) && p in fs0 ==> HasPair(env, f, fs0[p].uid, fs0[p].gid))
            && (!Explicit(file) && p !in fs0 && ByDefault(d) ==>
                  && Known(env, d.owner, d.group)
                  && HasPair(env, f, env.users(d.owner).value, env.groups(d.group).value))
            && (!Explicit(file) && p !in fs0 && !ByDefault(d) ==> f.uid == env.uid && f.gid == env.gid)
  {
    Facts(env, job, fs0, run, l, fs);
    assert LiveAt(env, job, fs0, l, fs, j) && PrepAt(env, job, fs0, l, j);
    ResolutionMeans(env, job, fs0, j);
  }

  // A call that has got past its stats has resolved every file.
  lemma PastStatsResolved(env: Env, job: Job, fs0: Files, run: seq<Event>, l: Local, fs: Files, o: Outcome, j: nat)
    requires Ran(env, job, fs0, run, l, fs) && l.pc == AtEnd(o) && !o.Skipped? && !o.Aborted? && j < job.N()
    ensures Resolution(env, job, fs0, j).Some?
  {
    Facts(env, job, fs0, run, l, fs);
    assert PrepAt(env, job, fs0, l, j);
  }

  // A name that counts and is not known ends the call before it changes anything.
  lemma FailedLookupAborts(env: Env, job: Job, fs0: Files, run: seq<Event>, l: Local, fs: Files, o: Outcome, j: nat)
    requires Ran(env, job, fs0, run, l, fs) && l.pc == AtEnd(o) && j < job.N() && LookupFails(env, job, fs0, j)
    ensures (o.Skipped? || o.Aborted?) && Untouched(job, fs0, fs)
  {
    Facts(env, job, fs0, run, l, fs);
    ResolutionMeans(env, job, fs0, j);
    if !o.Skipped? && !o.Aborted? { PastStatsResolved(env, job, fs0, run, l, fs, o, j); }
    EarlyUntouched(env, job, fs0, l, fs);
  }

  // What restore puts on a file is what was resolved. It is f's own mode and
  // owner, whatever chown answers, exactly when this holds.
  predicate Fits(env: Env, o: Owner, f: File) {
    && o.mode == f.mode
    && (o.Chowns() ==> f.uid == o.uid && f.gid == o.gid)
    && (!o.Chowns() || !env.root ==> f.uid == env.uid && f.gid == env.gid)
  }

  predicate FitsAt(env: Env, job: Job, fs0: Files, j: nat)
    requires j < job.N() && Live(job.files[j].abs) in fs0
  {
    Resolution(env, job, fs0, j).Some? && Fits(env, Resolution(env, job, fs0, j).value, fs0[Live(job.files[j].abs)])
  }

  // A plan that overrides nothing fits, but for set-uid and sticky bits and
  // files this process cannot chown.
  lemma PlainFits(env: Env, job: Job, fs0: Files, j: nat)
    requires j < job.N() && Live(job.files[j].abs) in fs0 && !Overrides(job.files[j])
    ensures var f := fs0[Live(job.files[j].abs)];
            FitsAt(env, job, fs0, j) <==> f.mode < 512 && (env.root || (f.uid == env.uid && f.gid == env.gid))
  {
  }

  // A restored file has its old bytes and the resolved mode; its owner is the
  // resolved pair for root, and else that or the process's own.
  lemma RestoredFile(env: Env, job: Job, fs0: Files, l: Local, fs: Files, j: nat)
    requires Inv(env, job, fs0, l, fs) && Rest(env, job, fs0, l, fs) && SawAll(job, fs0, l) && job.retention != -1
    requires !l.firstErr && l.undone == l.done && BackedUp(job, l) == job.N()
    requires j < l.done && Live(job.files[j].abs) in fs0
    ensures Live(job.files[j].abs) in fs && Resolution(env, job, fs0, j).Some?
    ensures fs[Live(job.files[j].abs)].bytes == fs0[Live(job.files[j].abs)].bytes
    ensures fs[Live(job.files[j].abs)].mode == Resolution(env, job, fs0, j).value.mode
    ensures Owned(env, Resolution(env, job, fs0, j).value, fs[Live(job.files[j].abs)])
  {
    assert LiveAt(env, job, fs0, l, fs, j) && PrepAt(env, job, fs0, l, j);
  }

  // The pair a file ends up with, when that does not depend on chown's answer.
  predicate Settled(env: Env, o: Owner) { env.root || !o.Chowns() || (o.uid == env.uid && o.gid == env.gid) }

  lemma WholeExactly(env: Env, o: Owner, f: File, g: File)
    requires g.bytes == f.bytes && g.mode == o.mode && Owned(env, o, g)
    ensures Fits(env, o, f) ==> g == f
    ensures Settled(env, o) && g == f ==> Fits(env, o, f)
  {
  }

  ghost predicate BackAt(env: Env, job: Job, fs0: Files, fs: Files, j: nat)
    requires j < job.N() && Live(job.files[j].abs) in fs0
  {
    var back, o := SameAt(fs0, fs, Live(job.files[j].abs)), Resolution(env, job, fs0, j);
    (FitsAt(env, job, fs0, j) ==> back) && (back && o.Some? && Settled(env, o.value) ==> FitsAt(env, job, fs0, j))
  }

  // After a rollback an undone destination is the whole old file, mode and
  // owner included, if its ownership fits, and only if it does unless a
  // non-root chown decides. Destinations that had not been renamed are untouched.
  lemma RollbackOwnership(env: Env, job: Job, fs0: Files, run: seq<Event>, l: Local, fs: Files, o: Outcome, j: nat)
    requires Ran(env, job, fs0, run, l, fs) && l.pc == AtEnd(o)
    requires (o.RolledBack? || o.RenameFailed?) && job.retention != -1
    requires j < job.N() && Live(job.files[j].abs) in fs0
    ensures if j < l.done then BackAt(env, job, fs0, fs, j) else SameAt(fs0, fs, Live(job.files[j].abs))
    ensures o.RolledBack? ==> j < l.done
  {
    Facts(env, job, fs0, run, l, fs);
    if j < l.done {
      RestoredFile(env, job, fs0, l, fs, j);
      WholeExactly(env, Resolution(env, job, fs0, j).value, fs0[Live(job.files[j].abs)], fs[Live(job.files[j].abs)]);
    } else {
      assert LiveAt(env, job, fs0, l, fs, j);
    }
  }

  // A mode in the plan stays on a file that was rolled back.
  lemma RollbackKeepsPlanMode(env: Env, job: Job, fs0: Files, run: seq<Event>, l: Local, fs: Files, j: nat)
    requires Ran(env, job, fs0, run, l, fs) && l.pc == AtEnd(RolledBack) && job.retention != -1
    requires j < job.N() && Live(job.files[j].abs) in fs0 && job.files[j].mode != 0
    ensures Live(job.files[j].abs) in fs && fs[Live(job.files[j].abs)].mode == job.files[j].mode
  {
    Facts(env, job, fs0, run, l, fs);
    RestoredFile(env, job, fs0, l, fs, j);
  }

  ghost predicate AllFit(env: Env, job: Job, fs0: Files) {
    forall j :: 0 <= j < job.N() && Live(job.files[j].abs) in fs0 ==> FitsAt(env, job, fs0, j)
  }

  lemma RollbackWhole(env: Env, job: Job, fs0: Files, run: seq<Event>, l: Local, fs: Files, o: Outcome)
    requires Ran(env, job, fs0, run, l, fs) && l.pc == AtEnd(o)
    requires (o.RolledBack? || o.RenameFailed?) && job.retention != -1
    requires AllFit(env, job, fs0)
    ensures Untouched(job, fs0, fs)
  {
    EveryReturn(env, job, fs0, run, l, fs, o);
    forall j | 0 <= j < job.N()
      ensures SameAt(fs0, fs, Live(job.files[j].abs))
    {
      assert BytesAt(fs, Live(job.files[j].abs)) == BytesAt(fs0, Live(job.files[j].abs));
      if Live(job.files[j].abs) in fs0 { RollbackOwnership(env, job, fs0, run, l, fs, o, j); }
    }
  }

  // All or nothing: with backups on, unless the call says that rollback failed.
  // The old state is back in bytes, and in mode and owner where those fit.
  lemma AllOrNothing(env: Env, job: Job, fs0: Files, run: seq<Event>, l: Local, fs: Files, o: Outcome)
    requires Ran(env, job, fs0, run, l, fs) && l.pc == AtEnd(o) && Injective(env) && (o.Deployed? ==> Orderly(job))
    requires job.retention != -1 && !o.Err().RollbackFailed?
    ensures if o.Err().NoError? then AllNew(job, fs) else AllOld(job, fs0, fs)
    ensures !o.Err().NoError? && AllFit(env, job, fs0) ==> Untouched(job, fs0, fs)
  {
    EveryReturn(env, job, fs0, run, l, fs, o);
    assert Untouched(job, fs0, fs) ==> AllOld(job, fs0, fs);
    if (o.RolledBack? || o.RenameFailed?) && AllFit(env, job, fs0) { RollbackWhole(env, job, fs0, run, l, fs, o); }
  }

  // ----- every state on the way -----

  // Untouched, absent as before, or whole (all new or all old bytes) with its
  // resolved ownership already on.
  predicate Whole(env: Env, job: Job, fs0: Files, fs: Files, j: nat)
    requires j < job.N()
  {
    var p := Live(job.files[j].abs);
    || SameAt(fs0, fs, p)
    || (p in fs && Resolution(env, job, fs0, j).Some? && Owned(env, Resolution(env, job, fs0, j).value, fs[p])
        && (fs[p].bytes == job.files[j].bytes || Some(fs[p].bytes) == BytesAt(fs0, p)))
  }

  // Rolled back without a backup: removed although it was there.
  ghost predicate Dropped(job: Job, fs0: Files, l: Local, fs: Files, j: nat)
    requires j < job.N()
  {
    job.retention == -1 && j < l.undone && Live(job.files[j].abs) in fs0 && Live(job.files[j].abs) !in fs
  }

  lemma WholeAt(env: Env, job: Job, fs0: Files, l: Local, fs: Files, j: nat)
    requires Inv(env, job, fs0, l, fs) && LiveInv(env, job, fs0, l, fs) && SawAll(job, fs0, l) && j < job.N()
    ensures Whole(env, job, fs0, fs, j) || Dropped(job, fs0, l, fs, j)
  {
    assert LiveAt(env, job, fs0, l, fs, j);
    if j < l.done { assert PrepAt(env, job, fs0, l, j); }
  }

  // No reader ever sees a half-written or wrongly owned destination. The only
  // other thing to see is a file removed by a rollback without backups.
  lemma TornFree(env: Env, job: Job, fs0: Files, run: seq<Event>, l: Local, fs: Files)
    requires Ran(env, job, fs0, run, l, fs) && (Orderly(job) || !Janitored(l.pc))
    ensures forall j :: 0 <= j < job.N() ==> Whole(env, job, fs0, fs, j) || Dropped(job, fs0, l, fs, j)
  {
    Facts(env, job, fs0, run, l, fs);
    forall j | 0 <= j < job.N()
      ensures Whole(env, job, fs0, fs, j) || Dropped(job, fs0, l, fs, j)
    {
      WholeAt(env, job, fs0, l, fs, j);
    }
  }

  // ----- hooks -----

  // The temp holds what destination j is to become.
  predicate WillBe(env: Env, job: Job, fs0: Files, fs: Files, j: nat, p: Path)
    requires j < job.N()
  {
    && p in fs && fs[p].bytes == job.files[j].bytes
    && Resolution(env, job, fs0, j).Some? && Owned(env, Resolution(env, job, fs0, j).value, fs[p])
  }

  lemma WillBeAt(env: Env, job: Job, fs0: Files, l: Local, fs: Files, j: nat)
    requires Rest(env, job, fs0, l, fs) && l.pc.AtPre? && l.done == 0 && SawAll(job, fs0, l) && j < job.N() == |l.preps|
    requires l.preps[j].temp.Some?
    ensures WillBe(env, job, fs0, fs, j, Temp(job.files[j].abs, l.preps[j].temp.value))
  {
    assert IsReady(env, job, l, fs, j) && PrepAt(env, job, fs0, l, j);
  }

  // PreCommit runs once, before any rename: it sees every temp with its plan
  // bytes and ownership, and every destination untouched.
  lemma PreCommitSees(env: Env, job: Job, fs0: Files, run: seq<Event>, l: Local, fs: Files, temps: map<string, Path>)
    requires Ran(env, job, fs0, run, l, fs) && l.pc.AtPre? && InBounds(job, l) && Allows(job, l, Op.PreCommit(temps))
    ensures Pres(run) == 0 && Posts(run) == 0 && Untouched(job, fs0, fs) && temps.Keys == Dests(job)
    ensures forall j :: 0 <= j < job.N() ==>
              job.files[j].abs in temps && WillBe(env, job, fs0, fs, j, temps[job.files[j].abs])
  {
    Facts(env, job, fs0, run, l, fs);
    EarlyUntouched(env, job, fs0, l, fs);
    forall j | 0 <= j < job.N()
      ensures job.files[j].abs in temps && WillBe(env, job, fs0, fs, j, temps[job.files[j].abs])
    {
      WillBeAt(env, job, fs0, l, fs, j);
    }
  }

  // How often the hooks ran: PostCommit twice exactly when it failed and the
  // restore had no trouble, once exactly when it succeeded or the restore did
  // have trouble.
  lemma HookCounts(env: Env, job: Job, fs0: Files, run: seq<Event>, l: Local, fs: Files, o: Outcome)
    requires Arrived(env, job, fs0, run, l, fs) && l.pc == AtEnd(o)
    ensures Pres(run) == Count(job.hasPre && !o.Skipped? && !o.Aborted?) && Posts(run) <= 2
    ensures Posts(run) == 2 <==> LogOf(env, run).failedPosts > 0 && !LogOf(env, run).troubled
    ensures Posts(run) == 1 <==>
            || (o.Deployed? && job.hasPost)
            || (LogOf(env, run).failedPosts > 0 && LogOf(env, run).troubled)
  {
    Facts(env, job, fs0, run, l, fs);
    RunTells(env, job, fs0, run, l, fs);
  }

  // ----- what is left behind -----

  // Until the janitor starts, and unless the call is giving up, a backup the
  // call names holds the bytes its destination had.
  lemma BackupHolds(env: Env, job: Job, fs0: Files, run: seq<Event>, l: Local, fs: Files, j: nat, b: nat)
    requires Arrived(env, job, fs0, run, l, fs) && Tidy(l.pc) && !Janitored(l.pc)
    requires j < job.N() && Own(l, j) == Some(b)
    ensures Live(job.files[j].abs) in fs0
    ensures BytesAt(fs, Backup(job.files[j].abs, b)) == BytesAt(fs0, Live(job.files[j].abs))
  {
    Facts(env, job, fs0, run, l, fs);
    assert Holding(job, fs0, l, fs, j, Must(job, fs0, l, j), Exact(job, fs0, l, j));
    assert b in Must(job, fs0, l, j);
  }

  // A call that has renamed something has taken all its backups.
  lemma RenamedIsSaved(env: Env, job: Job, fs0: Files, l: Local, fs: Files, j: nat)
    requires Inv(env, job, fs0, l, fs) && Rest(env, job, fs0, l, fs) && SawAll(job, fs0, l) && job.retention != -1
    requires j < l.done && Live(job.files[j].abs) in fs0
    ensures Own(l, j).Some? && Tidy(l.pc)
  {
    assert PrepAt(env, job, fs0, l, j);
  }

  // The destination has its old bytes, or a backup named by the call has them.
  ghost predicate OldBytesKept(job: Job, fs0: Files, l: Local, fs: Files, j: nat)
    requires j < job.N()
  {
    var was := BytesAt(fs0, Live(job.files[j].abs));
    || BytesAt(fs, Live(job.files[j].abs)) == was
    || (Own(l, j).Some? && BytesAt(fs, Backup(job.files[j].abs, Own(l, j).value)) == was)
  }

  // With backups on, wherever a call stops before it prunes, the old bytes of
  // every existing destination are in place or in the backup it took of it.
  lemma AlwaysRecoverable(env: Env, job: Job, fs0: Files, run: seq<Event>, l: Local, fs: Files, j: nat)
    requires Ran(env, job, fs0, run, l, fs) && !Janitored(l.pc) && job.retention != -1
    requires j < job.N() && Live(job.files[j].abs) in fs0
    ensures OldBytesKept(job, fs0, l, fs, j)
  {
    Facts(env, job, fs0, run, l, fs);
    assert LiveAt(env, job, fs0, l, fs, j);
    if j < l.done {
      RenamedIsSaved(env, job, fs0, l, fs, j);
      BackupHolds(env, job, fs0, run, l, fs, j, Own(l, j).value);
    }
  }

  // When rollback failed, every existing destination has a backup, and it holds
  // the old bytes.
  lemma Recoverable(env: Env, job: Job, fs0: Files, run: seq<Event>, l: Local, fs: Files, j: nat)
    requires Ran(env, job, fs0, run, l, fs) && l.pc == AtEnd(Stranded) && job.retention != -1
    requires j < job.N() && Live(job.files[j].abs) in fs0
    ensures j < |l.preps| && l.preps[j].backup.Some?
    ensures BytesAt(fs, Backup(job.files[j].abs, l.preps[j].backup.value)) == BytesAt(fs0, Live(job.files[j].abs))
  {
    Facts(env, job, fs0, run, l, fs);
    assert |l.preps| == job.N();
    assert PrepAt(env, job, fs0, l, j);
    BackupHolds(env, job, fs0, run, l, fs, j, Own(l, j).value);
  }

  // However a call returns, no temp of its own is left, restore temps included.
  lemma NoTempLeft(env: Env, job: Job, fs0: Files, run: seq<Event>, l: Local, fs: Files, o: Outcome, p: Path)
    requires Arrived(env, job, fs0, run, l, fs) && l.pc == AtEnd(o) && TempsRemovable(run)
    requires p.Temp? && p in fs
    ensures p in fs0
  {
    Facts(env, job, fs0, run, l, fs);
    RunBooks(env, job, fs0, run, l, fs);
    if job.IsDest(p.of) {
      var j :| 0 <= j < job.N() && job.files[j].abs == p.of;
      assert Accounted(job, fs0, l, fs, j, p.stamp);
    } else {
      assert FrameAt(job, fs0, l, fs, p);
    }
  }

  // A file that is no destination or sibling of one is never touched, unless
  // its name has a destination's backup prefix and the janitor has started.
  lemma BystandersUntouched(env: Env, job: Job, fs0: Files, run: seq<Event>, l: Local, fs: Files, p: Path)
    requires Arrived(env, job, fs0, run, l, fs) && !job.IsDest(p.of)
    ensures Exposed(job, p) && Janitored(l.pc) && job.Keep() > 0 ==> p !in fs || SameAt(fs0, fs, p)
    ensures !(Exposed(job, p) && Janitored(l.pc) && job.Keep() > 0) ==> SameAt(fs0, fs, p)
  {
    Facts(env, job, fs0, run, l, fs);
    assert FrameAt(job, fs0, l, fs, p);
  }

  // A backup from before the call that the call did not write over goes only
  // by pruning after success, and if no foreign file has the prefix only when
  // enough newer backups stay.
  lemma OnlyOldBackupsGo(env: Env, job: Job, fs0: Files, run: seq<Event>, l: Local, fs: Files, o: Outcome, j: nat,
                         b: nat)
    requires Arrived(env, job, fs0, run, l, fs) && l.pc == AtEnd(o) && j < job.N()
    requires Backup(job.files[j].abs, b) in fs0 && Backup(job.files[j].abs, b) !in Stored(run)
    requires o.Deployed? && job.Keep() > 0 ==>
               job.Spaced() && Lone(fs0, job.files[j].abs) && b in Newest(job.Keep(), AllBackups(job, fs0, l, j))
    ensures SameAt(fs0, fs, Backup(job.files[j].abs, b))
  {
    if o.Deployed? {
      Facts(env, job, fs0, run, l, fs);
      RunStores(env, job, fs0, run, l, fs);
      assert Holding(job, fs0, l, fs, j, Must(job, fs0, l, j), Exact(job, fs0, l, j));
      assert b in Must(job, fs0, l, j);
    } else {
      EarlierBackupsStay(env, job, fs0, run, l, fs, Backup(job.files[j].abs, b));
    }
  }

  // ----- pruning as the code does it -----

  // In every state in which the janitor lists a directory, the paths it goes on
  // to remove are those of the names the code removes.
  lemma PrunesByName(env: Env, job: Job, fs0: Files, run: seq<Event>, l: Local, fs: Files, i: nat,
                     entries: seq<DirEntry>, r: Reply, p: Path)
    requires Arrived(env, job, fs0, run, l, fs) && l.pc == AtPruneList(i) && i < job.N() && Directory(entries, fs)
    requires AllCanonical(fs0) && forall j :: 0 <= j < job.N() ==> Canonical(Live(job.files[j].abs))
    requires r.Names? && Permitted(fs, List(job.files[i].abs), r) && p in fs
    ensures var pc := OnPruneList(job, l, i, r).pc;
            (pc.AtPruneRemove? && pc.i == i && p in pc.todo) <==>
            Render(p) in ToRemove(entries, job.files[i].abs, job.Keep())
  {
    var d := job.files[i].abs;
    NamesStayUnique(env, job, fs0, run, l, fs);
    PruneMatches(entries, fs, d, job.Keep(), p);
    ListingLeads(job, l, i, r, p);
  }

  lemma ListingLeads(job: Job, l: Local, i: nat, r: Reply, p: Path)
    requires r.Names?
    ensures var pc := OnPruneList(job, l, i, r).pc;
            (pc.AtPruneRemove? && pc.i == i && p in pc.todo) <==> p in Doomed(job.Keep(), r.found)
  {
  }
}
