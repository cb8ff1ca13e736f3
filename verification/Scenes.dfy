/**
 Building runs: the steps of a call whose system calls succeed, for any plan.
 The results are in Limits and Aliases.
 */
module Scenes {
  import opened Common
  import opened FileSystem
  import opened Ownership
  import opened Retention
  import opened Protocol
  import opened Names
  import opened Runs
  import opened Naming
  import opened Guarantees
  import opened Host

  // A call to be run: what its first stats show, whether it works on paths or
  // on names, the clock for temps and for backups, and what a chown answers.
  datatype Scenario = Scenario(env: Env, job: Job, fs0: Files, seen: Files, byName: bool, t: nat, b: nat, owns: bool) {
    function N(): nat { job.N() }

    function Dest(i: nat): string
      requires i < N()
    {
      job.files[i].abs
    }

    predicate Existed(i: nat)
      requires i < N()
    {
      Live(Dest(i)) in seen
    }

    // No stat shows what is not there, and no lookup of a user fails.
    ghost predicate Valid() {
      && job.WellFormed() && !job.solo && t <= MAX_NANOS && b <= MAX_NANOS && (env.root ==> owns)
      && (forall p :: p in seen ==> p in fs0 && fs0[p] == seen[p])
      && (forall i :: 0 <= i < N() ==> Resolution(env, job, seen, i).Some?)
    }

    function OwnerOf(i: nat): Owner
      requires i < N() && Resolution(env, job, seen, i).Some?
    {
      Resolution(env, job, seen, i).value
    }
  }

  type Plot = x: Scenario | x.Valid() ghost witness SAMPLE

  ghost const SAMPLE := Scenario(Env(b => b, _ => None, _ => None, false, 0, 0),
                                 Job(false, [FileSpec("", [], 0, "", "")], Defaults(0, "", ""), -1, true, false, false),
                                 map[], map[], false, 0, 0, false)

  // Every lookup of the plan works, whatever files there are.
  predicate Resolves(env: Env, job: Job) {
    forall i :: 0 <= i < job.N() ==> ResolveOwnership(env, job.files[i], job.defaults, None).Some?
  }

  // The path a system call on p works on.
  ghost function At(x: Plot, p: Path): Path { if x.byName then PathOf(Dests(x.job), Render(p)) else p }

  ghost function Via(x: Plot, op: Op): Op { if x.byName then ByName(Dests(x.job), op) else op }

  lemma DestAt(x: Plot, i: nat)
    requires i < x.N()
    ensures At(x, Live(x.Dest(i))) == Live(x.Dest(i))
  {
    assert x.job.files[i] in x.job.files;
  }

  ghost function ExecVia(x: Plot, run: seq<Event>): Option<State> {
    if x.byName then ExecByName(x.env, Dests(x.job), x.job, x.fs0, run) else Exec(x.env, x.job, x.fs0, run)
  }

  // Some run whose first stats show what they should gets here.
  ghost predicate Possible(x: Plot, l: Local, fs: Files) {
    exists run :: ExecVia(x, run) == Some(State(l, fs)) && HonestStats(x.seen, run)
  }

  lemma Go(x: Plot, l: Local, fs: Files, op: Op, r: Reply)
    requires Possible(x, l, fs) && InBounds(x.job, l) && Allows(x.job, l, op) && Permitted(fs, Via(x, op), r)
    requires op.Stat? && r.Err? ==> op.path !in x.seen
    ensures Possible(x, Recv(x.env, x.job, l, op, r), Effect(x.env, fs, Via(x, op), r))
  {
    var run :| ExecVia(x, run) == Some(State(l, fs)) && HonestStats(x.seen, run);
    var longer := run + [Event(op, r)];
    assert longer[..|run|] == run;
    HonestExtends(x.seen, run, Event(op, r));
    assert ExecVia(x, longer) == Some(State(Recv(x.env, x.job, l, op, r), Effect(x.env, fs, Via(x, op), r)));
  }

  lemma HonestExtends(seen: Files, past: seq<Event>, e: Event)
    requires HonestStats(seen, past) && (e.op.Stat? && e.reply.Err? ==> e.op.path !in seen)
    ensures HonestStats(seen, past + [e])
  {
    var run := past + [e];
    forall k | 0 <= k < |run| && FirstStat(run, k) && run[k].reply.Err?
      ensures run[k].op.path !in seen
    {
      if k < |past| {
        assert forall m :: 0 <= m <= k ==> run[m] == past[m];
        assert FirstStat(past, k);
      }
    }
  }

  // What holds at 0 and goes on to the next number holds at n.
  lemma {:induction false} Climb(can: nat -> bool, n: nat)
    requires can(0) && forall u: nat, v: nat :: u < n && v == u + 1 && can(u) ==> can(v)
    ensures can(n)
  {
    if n > 0 { Climb(can, n - 1); }
  }

  // ----- one temp -----

  function DataAt(x: Plot, l: Local, i: nat, restoring: bool): Bytes
    requires i < x.N()
  {
    if restoring then l.data else x.job.files[i].bytes
  }

  ghost predicate OnStage(x: Plot, l: Local, fs: Files, i: nat, stage: Stage, restoring: bool) {
    Possible(x, l, fs) && l.pc == Staging(restoring, i, stage) && i < x.N() == |l.preps|
  }

  lemma Stages(x: Plot, l: Local, fs: Files, i: nat, stage: Stage, op: Op, p: Path, r: Reply, restoring: bool)
    requires OnStage(x, l, fs, i, stage, restoring) && Permitted(fs, Via(x, op), r)
    requires AllowsStage(stage, op, x.Dest(i), l.stamp, DataAt(x, l, i, restoring), l.preps[i].owner)
    requires p == if stage.SOpen? then op.path else Temp(x.Dest(i), l.stamp)
    ensures Possible(x, AfterStage(x.env, x.job, l, i, stage, p, r, restoring), Effect(x.env, fs, Via(x, op), r))
  {
    Go(x, l, fs, op, r);
  }

  function Bare(x: Plot, data: Bytes): File { File(data, 384, x.env.uid, x.env.gid) }

  lemma OpensTemp(x: Plot, l: Local, fs: Files, i: nat, restoring: bool, q: Path, fs': Files)
    requires OnStage(x, l, fs, i, SOpen, restoring)
    requires q == At(x, Temp(x.Dest(i), x.t)) && q !in fs && fs' == fs[q := Bare(x, [])]
    ensures OnStage(x, l.(stamp := x.t, pc := Staging(restoring, i, SWrite)), fs', i, SWrite, restoring)
  {
    var p := Temp(x.Dest(i), x.t);
    Stages(x, l, fs, i, SOpen, Open(p), p, Made(384), restoring);
  }

  lemma FillsTemp(x: Plot, l: Local, fs: Files, i: nat, restoring: bool, q: Path, data: Bytes, fs': Files)
    requires OnStage(x, l, fs, i, SWrite, restoring) && q == At(x, Temp(x.Dest(i), l.stamp)) && q in fs
    requires data == DataAt(x, l, i, restoring) && fs' == fs[q := fs[q].(bytes := data)]
    ensures OnStage(x, l.(pc := Staging(restoring, i, SSync)), fs', i, SSync, restoring)
  {
    var p := Temp(x.Dest(i), l.stamp);
    Stages(x, l, fs, i, SWrite, Write(p, data), p, Ok, restoring);
  }

  lemma SyncsTemp(x: Plot, l: Local, fs: Files, i: nat, restoring: bool)
    requires OnStage(x, l, fs, i, SSync, restoring)
    ensures OnStage(x, l.(pc := Staging(restoring, i, SClose)), fs, i, SClose, restoring)
  {
    var p := Temp(x.Dest(i), l.stamp);
    Stages(x, l, fs, i, SSync, Sync(p), p, Ok, restoring);
  }

  lemma ClosesTemp(x: Plot, l: Local, fs: Files, i: nat, restoring: bool)
    requires OnStage(x, l, fs, i, SClose, restoring)
    ensures OnStage(x, TempMade(l, i, l.stamp, restoring), fs, i, SChmod, restoring)
  {
    var p := Temp(x.Dest(i), l.stamp);
    Stages(x, l, fs, i, SClose, Close(p), p, Ok, restoring);
    assert AfterStage(x.env, x.job, l, i, SClose, p, Ok, restoring) == TempMade(l, i, l.stamp, restoring);
  }

  lemma OpensAndFills(x: Plot, l: Local, fs: Files, i: nat, restoring: bool, q: Path, data: Bytes, fs': Files)
    requires OnStage(x, l, fs, i, SOpen, restoring) && data == DataAt(x, l, i, restoring)
    requires q == At(x, Temp(x.Dest(i), x.t)) && q !in fs && fs' == fs[q := Bare(x, data)]
    ensures OnStage(x, l.(stamp := x.t, pc := Staging(restoring, i, SSync)), fs', i, SSync, restoring)
  {
    var l1, fs1 := l.(stamp := x.t, pc := Staging(restoring, i, SWrite)), fs[q := Bare(x, [])];
    OpensTemp(x, l, fs, i, restoring, q, fs1);
    assert fs1[q := fs1[q].(bytes := data)] == fs';
    FillsTemp(x, l1, fs1, i, restoring, q, data, fs');
  }

  // A temp is written and closed.
  lemma WritesTemp(x: Plot, l: Local, fs: Files, i: nat, restoring: bool, q: Path, data: Bytes, fs': Files)
    requires OnStage(x, l, fs, i, SOpen, restoring) && data == DataAt(x, l, i, restoring)
    requires q == At(x, Temp(x.Dest(i), x.t)) && q !in fs && fs' == fs[q := Bare(x, data)]
    ensures OnStage(x, TempMade(l, i, x.t, restoring), fs', i, SChmod, restoring)
  {
    var l2 := l.(stamp := x.t, pc := Staging(restoring, i, SSync));
    OpensAndFills(x, l, fs, i, restoring, q, data, fs');
    SyncsTemp(x, l2, fs', i, restoring);
    ClosesTemp(x, l2.(pc := Staging(restoring, i, SClose)), fs', i, restoring);
    MadeAlike(l, Staging(restoring, i, SClose), i, x.t, restoring);
  }

  lemma MadeAlike(l: Local, pc: PC, i: nat, t: nat, restoring: bool)
    requires i < |l.preps|
    ensures TempMade(l.(stamp := t, pc := pc), i, t, restoring) == TempMade(l, i, t, restoring)
  {
  }

  // What chmod makes of a file, and a chown that succeeds or not.
  function Moded(o: Owner, f: File): File { if o.modeSet then f.(mode := o.mode) else f }

  function Paired(o: Owner, owns: bool, f: File): File {
    if o.Chowns() && owns then f.(uid := o.uid, gid := o.gid) else f
  }

  // What a staged temp is in the end.
  function Product(x: Plot, o: Owner, data: Bytes): File { Paired(o, x.owns, Moded(o, Bare(x, data))) }

  function NowReady(job: Job, l: Local, i: nat, restoring: bool): Local
    requires i < |l.preps|
  {
    if restoring then Goto(l, AtRestoreRename(i)) else TempReady(job, l, i)
  }

  ghost function ModeCall(p: Path, o: Owner): Op { if o.modeSet then Chmod(p, o.mode) else Continue }

  lemma ModeSet(x: Plot, fs: Files, p: Path, q: Path, o: Owner)
    requires q == At(x, p) && q in fs
    ensures Permitted(fs, Via(x, ModeCall(p, o)), Ok)
    ensures Effect(x.env, fs, Via(x, ModeCall(p, o)), Ok) == fs[q := Moded(o, fs[q])]
  {
    assert fs == fs[q := fs[q]];
  }

  lemma SetsMode(x: Plot, l: Local, fs: Files, i: nat, restoring: bool, q: Path, o: Owner, fs': Files)
    requires OnStage(x, l, fs, i, SChmod, restoring) && o == l.preps[i].owner
    requires q == At(x, Temp(x.Dest(i), l.stamp)) && q in fs && fs' == fs[q := Moded(o, fs[q])]
    ensures OnStage(x, l.(pc := Staging(restoring, i, SChown)), fs', i, SChown, restoring)
  {
    var p := Temp(x.Dest(i), l.stamp);
    ModeSet(x, fs, p, q, o);
    Stages(x, l, fs, i, SChmod, ModeCall(p, o), p, Ok, restoring);
  }

  ghost function OwnerCall(p: Path, o: Owner): Op { if o.Chowns() then Chown(p, o.uid, o.gid) else Continue }

  function OwnerReply(o: Owner, owns: bool): Reply { if o.Chowns() && !owns then Err else Ok }

  lemma OwnerSet(x: Plot, fs: Files, p: Path, q: Path, o: Owner, r: Reply)
    requires q == At(x, p) && q in fs && r == OwnerReply(o, x.owns)
    ensures Permitted(fs, Via(x, OwnerCall(p, o)), r)
    ensures Effect(x.env, fs, Via(x, OwnerCall(p, o)), r) == fs[q := Paired(o, x.owns, fs[q])]
  {
    assert fs == fs[q := fs[q]];
  }

  lemma OwnerForgiven(x: Plot, l: Local, i: nat, p: Path, r: Reply, restoring: bool)
    requires i < |l.preps| && p.Temp? && (r.Ok? || !x.env.root)
    ensures AfterStage(x.env, x.job, l, i, SChown, p, r, restoring) == NowReady(x.job, l, i, restoring)
  {
  }

  lemma SetsOwner(x: Plot, l: Local, fs: Files, i: nat, restoring: bool, q: Path, o: Owner, fs': Files)
    requires OnStage(x, l, fs, i, SChown, restoring) && o == l.preps[i].owner
    requires q == At(x, Temp(x.Dest(i), l.stamp)) && q in fs && fs' == fs[q := Paired(o, x.owns, fs[q])]
    ensures Possible(x, NowReady(x.job, l, i, restoring), fs')
  {
    var p, r := Temp(x.Dest(i), l.stamp), OwnerReply(o, x.owns);
    OwnerSet(x, fs, p, q, o, r);
    Stages(x, l, fs, i, SChown, OwnerCall(p, o), p, r, restoring);
    OwnerForgiven(x, l, i, p, r, restoring);
  }

  lemma DressesTemp(x: Plot, l: Local, fs: Files, i: nat, restoring: bool, q: Path, o: Owner, fs': Files)
    requires OnStage(x, l, fs, i, SChmod, restoring) && o == l.preps[i].owner
    requires q == At(x, Temp(x.Dest(i), l.stamp)) && q in fs && fs' == fs[q := Paired(o, x.owns, Moded(o, fs[q]))]
    ensures Possible(x, NowReady(x.job, l, i, restoring), fs')
  {
    var l1, fs1 := l.(pc := Staging(restoring, i, SChown)), fs[q := Moded(o, fs[q])];
    SetsMode(x, l, fs, i, restoring, q, o, fs1);
    assert fs1[q := Paired(o, x.owns, fs1[q])] == fs';
    SetsOwner(x, l1, fs1, i, restoring, q, o, fs');
    ReadyAlike(x.job, l, Staging(restoring, i, SChown), i, restoring);
  }

  lemma ReadyAlike(job: Job, l: Local, pc: PC, i: nat, restoring: bool)
    requires i < |l.preps|
    ensures NowReady(job, l.(pc := pc), i, restoring) == NowReady(job, l, i, restoring)
  {
  }

  lemma Prepares(x: Plot, l: Local, fs: Files, i: nat, restoring: bool, q: Path, o: Owner, data: Bytes)
    requires OnStage(x, l, fs, i, SOpen, restoring) && data == DataAt(x, l, i, restoring)
    requires o == l.preps[i].owner
    requires q == At(x, Temp(x.Dest(i), x.t)) && q !in fs
    ensures Possible(x, NowReady(x.job, TempMade(l, i, x.t, restoring), i, restoring), fs[q := Product(x, o, data)])
  {
    var fs1, fs2 := fs[q := Bare(x, data)], fs[q := Product(x, o, data)];
    WritesTemp(x, l, fs, i, restoring, q, data, fs1);
    assert fs1[q := Paired(o, x.owns, Moded(o, fs1[q]))] == fs2;
    DressesTemp(x, TempMade(l, i, x.t, restoring), fs1, i, restoring, q, o, fs2);
  }

  // ----- looking -----

  // The prep of a file once it was backed up and once it was staged.
  function PrepOf(x: Plot, i: nat, saved: bool, staged: bool): Prep
    requires i < x.N()
  {
    Prep(x.OwnerOf(i), x.Existed(i),
         if saved && x.Existed(i) then Some(x.b) else None, if staged then Some(x.t) else None)
  }

  // How many files have been looked at, backed up and staged.
  ghost predicate Preps(x: Plot, preps: seq<Prep>, looked: nat, saved: nat, staged: nat) {
    && |preps| == looked <= x.N()
    && forall i :: 0 <= i < looked ==> preps[i] == PrepOf(x, i, i < saved, i < staged)
  }

  // The call stands at pc with nothing renamed and no failure.
  ghost predicate Early(x: Plot, l: Local, fs: Files, pc: PC, looked: nat, saved: nat, staged: nat) {
    && Possible(x, l, fs) && l.pc == pc && Preps(x, l.preps, looked, saved, staged)
    && l.done == 0 && !l.firstErr && !l.reloadFailed
  }

  // A call that cannot read the first file does not skip.
  lemma Begins(x: Plot) returns (l: Local)
    ensures Early(x, l, x.fs0, AtStat(0), 0, 0, 0)
  {
    assert ExecVia(x, []) == Some(State(START, x.fs0));
    Go(x, START, x.fs0, CtxErr, Ok);
    l := OnCtx(x.job, START, Ok);
    if !x.job.skipIdempotent {
      DestAt(x, 0);
      Go(x, l, x.fs0, Read(Live(x.Dest(0))), Err);
      l := OnIdem(x.env, x.job, l, 0, Err);
    }
  }

  function Look(x: Plot, i: nat): Reply
    requires i < x.N()
  {
    if x.Existed(i) then Stats(InfoOf(x.seen[Live(x.Dest(i))])) else Err
  }

  function Looked(x: Plot, i: nat): PC {
    if i < x.N() then AtStat(i) else if x.job.retention != -1 then AtBackupRead(0) else AtTemp(0, SOpen)
  }

  lemma Looks(x: Plot, l: Local, i: nat) returns (l': Local)
    requires i < x.N() && Early(x, l, x.fs0, AtStat(i), i, 0, 0)
    ensures Early(x, l', x.fs0, Looked(x, i + 1), i + 1, 0, 0)
  {
    DestAt(x, i);
    Go(x, l, x.fs0, Stat(Live(x.Dest(i))), Look(x, i));
    l' := OnStat(x.env, x.job, l, i, Look(x, i));
    assert l'.preps == l.preps + [PrepOf(x, i, false, false)];
  }

  lemma {:induction false} LooksFrom(x: Plot, l: Local, i: nat) returns (l': Local)
    requires i <= x.N() && Early(x, l, x.fs0, Looked(x, i), i, 0, 0)
    ensures Early(x, l', x.fs0, Looked(x, x.N()), x.N(), 0, 0)
    decreases x.N() - i
  {
    l' := l;
    if i < x.N() {
      l' := Looks(x, l, i);
      l' := LooksFrom(x, l', i + 1);
    }
  }

  lemma LooksAtAll(x: Plot) returns (l: Local)
    ensures Early(x, l, x.fs0, Looked(x, x.N()), x.N(), 0, 0)
  {
    l := Begins(x);
    l := LooksFrom(x, l, 0);
  }

  // ----- backing up -----

  function Saved(x: Plot, i: nat): PC { if i < x.N() then AtBackupRead(i) else AtTemp(0, SOpen) }

  // Nothing to back up at i.
  lemma PassesBackup(x: Plot, l: Local, fs: Files, i: nat) returns (l': Local)
    requires i < x.N() && Early(x, l, fs, AtBackupRead(i), x.N(), i, 0) && !x.Existed(i)
    ensures Early(x, l', fs, Saved(x, i + 1), x.N(), i + 1, 0)
  {
    Go(x, l, fs, Continue, Ok);
    l' := OnBackupRead(x.job, l, i, Ok);
  }

  lemma ReadsOld(x: Plot, l: Local, fs: Files, i: nat) returns (l': Local)
    requires i < x.N() && Early(x, l, fs, AtBackupRead(i), x.N(), i, 0) && x.Existed(i)
    requires SameAt(x.fs0, fs, Live(x.Dest(i)))
    ensures Early(x, l', fs, AtBackupWrite(i), x.N(), i, 0)
    ensures l'.data == x.seen[Live(x.Dest(i))].bytes && l'.info.Some?
  {
    var d := Live(x.Dest(i));
    DestAt(x, i);
    Go(x, l, fs, Read(d), Data(fs[d].bytes));
    var l1 := l.(data := fs[d].bytes, pc := AtBackupStat(i));
    Go(x, l1, fs, Stat(d), Stats(InfoOf(fs[d])));
    l' := l1.(info := Some(InfoOf(fs[d])), pc := AtBackupWrite(i));
  }

  // The old bytes are written where the backup's name leads.
  lemma WritesOld(x: Plot, l: Local, fs: Files, i: nat, q: Path) returns (l': Local, fs': Files)
    requires i < x.N() && Early(x, l, fs, AtBackupWrite(i), x.N(), i, 0) && l.info.Some? && x.Existed(i)
    requires q == At(x, Backup(x.Dest(i), x.b))
    ensures Early(x, l', fs', AtBackupChown(i), x.N(), i + 1, 0) && l'.info.Some? && l'.stamp == x.b
    ensures q in fs' && fs'[q].bytes == l.data && Outside(fs, fs', {q})
  {
    var p, m := Backup(x.Dest(i), x.b), Perm(l.info.value.mode);
    Go(x, l, fs, WriteBackup(p, l.data, m), Made(m));
    fs' := Put(x.env, fs, q, l.data, m);
    l' := OnBackupWrite(x.job, l, i, x.b, Made(m));
    PrepsSaved(x, l.preps, i);
  }

  lemma PrepsSaved(x: Plot, preps: seq<Prep>, i: nat)
    requires i < x.N() && Preps(x, preps, x.N(), i, 0) && x.Existed(i)
    ensures Preps(x, preps[i := preps[i].(backup := Some(x.b))], x.N(), i + 1, 0)
  {
  }

  lemma LeavesOwner(x: Plot, l: Local, fs: Files, i: nat) returns (l': Local)
    requires i < x.N() && Early(x, l, fs, AtBackupChown(i), x.N(), i + 1, 0) && l.info.Some?
    ensures Early(x, l', fs, Saved(x, i + 1), x.N(), i + 1, 0)
  {
    Go(x, l, fs, Chown(Backup(x.Dest(i), l.stamp), l.info.value.uid, l.info.value.gid), Err);
    l' := AfterBackup(x.job, l, i);
  }

  lemma BacksUp(x: Plot, l: Local, fs: Files, i: nat, q: Path) returns (l': Local, fs': Files)
    requires i < x.N() && Early(x, l, fs, AtBackupRead(i), x.N(), i, 0) && x.Existed(i)
    requires SameAt(x.fs0, fs, Live(x.Dest(i))) && q == At(x, Backup(x.Dest(i), x.b))
    ensures Early(x, l', fs', Saved(x, i + 1), x.N(), i + 1, 0)
    ensures q in fs' && fs'[q].bytes == x.seen[Live(x.Dest(i))].bytes && Outside(fs, fs', {q})
  {
    l' := ReadsOld(x, l, fs, i);
    l', fs' := WritesOld(x, l', fs, i, q);
    l' := LeavesOwner(x, l', fs', i);
  }

  // Backups hold the old bytes, nothing else has changed and nothing has gone.
  ghost predicate Safe(x: Plot, fs: Files, n: nat) {
    && (forall i :: 0 <= i < n && i < x.N() && x.Existed(i) ==>
          BytesAt(fs, Backup(x.Dest(i), x.b)) == Some(x.seen[Live(x.Dest(i))].bytes))
    && (forall p: Path :: !p.Backup? ==> SameAt(x.fs0, fs, p)) && x.fs0.Keys <= fs.Keys
  }

  // The backups' names lead to the backups.
  ghost predicate BackupApart(x: Plot, i: nat)
    requires i < x.N()
  {
    At(x, Backup(x.Dest(i), x.b)) == Backup(x.Dest(i), x.b)
  }

  ghost predicate BackupsApart(x: Plot) { forall i :: 0 <= i < x.N() && x.Existed(i) ==> BackupApart(x, i) }

  lemma SafeNext(x: Plot, fs: Files, fs': Files, i: nat)
    requires i < x.N() && Safe(x, fs, i) && Outside(fs, fs', {Backup(x.Dest(i), x.b)})
    requires x.Existed(i) ==> BytesAt(fs', Backup(x.Dest(i), x.b)) == Some(x.seen[Live(x.Dest(i))].bytes)
    requires Backup(x.Dest(i), x.b) in fs ==> Backup(x.Dest(i), x.b) in fs'
    ensures Safe(x, fs', i + 1)
  {
    forall p | p in x.fs0
      ensures p in fs'
    {
      assert p == Backup(x.Dest(i), x.b) || SameAt(fs, fs', p);
    }
    forall k | 0 <= k < i && x.Existed(k)
      ensures BytesAt(fs', Backup(x.Dest(k), x.b)) == Some(x.seen[Live(x.Dest(k))].bytes)
    {
      assert SameAt(fs, fs', Backup(x.Dest(k), x.b));
    }
    forall p: Path | !p.Backup?
      ensures SameAt(x.fs0, fs', p)
    {
      assert SameAt(fs, fs', p);
    }
  }

  lemma Saves(x: Plot, l: Local, fs: Files, i: nat) returns (l': Local, fs': Files)
    requires i < x.N() && Early(x, l, fs, AtBackupRead(i), x.N(), i, 0) && Safe(x, fs, i) && BackupsApart(x)
    ensures Early(x, l', fs', Saved(x, i + 1), x.N(), i + 1, 0) && Safe(x, fs', i + 1)
  {
    if x.Existed(i) {
      l', fs' := BacksUp(x, l, fs, i, Backup(x.Dest(i), x.b));
    } else {
      fs' := fs;
      l' := PassesBackup(x, l, fs, i);
    }
    SafeNext(x, fs, fs', i);
  }

  lemma {:induction false} SavesFrom(x: Plot, l: Local, fs: Files, i: nat) returns (l': Local, fs': Files)
    requires i <= x.N() && Early(x, l, fs, Saved(x, i), x.N(), i, 0) && Safe(x, fs, i) && BackupsApart(x)
    ensures Early(x, l', fs', AtTemp(0, SOpen), x.N(), x.N(), 0) && Safe(x, fs', x.N())
    decreases x.N() - i
  {
    l', fs' := l, fs;
    if i < x.N() {
      l', fs' := Saves(x, l, fs, i);
      l', fs' := SavesFrom(x, l', fs', i + 1);
    }
  }

  function Kept(x: Plot): nat { if x.job.retention != -1 then x.N() else 0 }

  // Everything up to the first temp.
  lemma GetsReady(x: Plot) returns (l: Local, fs: Files)
    requires BackupsApart(x)
    ensures Early(x, l, fs, AtTemp(0, SOpen), x.N(), Kept(x), 0) && Safe(x, fs, Kept(x))
  {
    l := LooksAtAll(x);
    fs := x.fs0;
    if x.job.retention != -1 { l, fs := SavesFrom(x, l, fs, 0); }
  }

  // ----- staging -----

  datatype Status = Old | Ready | New | Back

  function NewFile(x: Plot, i: nat): File
    requires i < x.N()
  {
    Product(x, x.OwnerOf(i), x.job.files[i].bytes)
  }

  // What a restore makes of a file that was backed up.
  function OldFile(x: Plot, i: nat): File
    requires i < x.N() && x.Existed(i)
  {
    Product(x, x.OwnerOf(i), x.seen[Live(x.Dest(i))].bytes)
  }

  ghost predicate Shows(x: Plot, base: Files, fs: Files, i: nat, st: Status)
    requires i < x.N()
  {
    var p, d := Temp(x.Dest(i), x.t), Live(x.Dest(i));
    match st
    case Old => p !in fs && SameAt(base, fs, d)
    case Ready => p in fs && fs[p] == NewFile(x, i) && SameAt(base, fs, d)
    case New => p !in fs && d in fs && fs[d] == NewFile(x, i)
    case Back =>
      p !in fs && if x.job.retention != -1 && x.Existed(i) then d in fs && fs[d] == OldFile(x, i) else d !in fs
  }

  function StatusAt(i: nat, undone: nat, done: nat, staged: nat): Status {
    if i < undone then Back else if i < done then New else if i < staged then Ready else Old
  }

  ghost predicate Mine(x: Plot, p: Path) { x.job.IsDest(p.of) && (p.Live? || p == Temp(p.of, x.t)) }

  // The files, compared with those before the first temp.
  ghost predicate Picture(x: Plot, base: Files, fs: Files, undone: nat, done: nat, staged: nat) {
    && (forall i :: 0 <= i < x.N() ==> Shows(x, base, fs, i, StatusAt(i, undone, done, staged)))
    && (forall p: Path :: !Mine(x, p) ==> SameAt(base, fs, p))
  }

  lemma ShownAt(x: Plot, base: Files, fs: Files, u: nat, n: nat, m: nat, i: nat, st: Status)
    requires Picture(x, base, fs, u, n, m) && i < x.N() && st == StatusAt(i, u, n, m)
    ensures Shows(x, base, fs, i, st)
  {
  }

  // One destination has moved on.
  lemma PictureMoves(x: Plot, base: Files, fs: Files, fs': Files, i: nat, u: nat, n: nat, m: nat, u': nat, n': nat,
                     m': nat)
    requires Picture(x, base, fs, u, n, m) && i < x.N()
    requires Outside(fs, fs', {Live(x.Dest(i)), Temp(x.Dest(i), x.t)})
    requires forall k: nat :: k != i ==> StatusAt(k, u, n, m) == StatusAt(k, u', n', m')
    requires Shows(x, base, fs', i, StatusAt(i, u', n', m'))
    ensures Picture(x, base, fs', u', n', m')
  {
    forall k | 0 <= k < x.N() && k != i
      ensures Shows(x, base, fs', k, StatusAt(k, u', n', m'))
    {
      assert Shows(x, base, fs, k, StatusAt(k, u, n, m));
      assert SameAt(fs, fs', Live(x.Dest(k))) && SameAt(fs, fs', Temp(x.Dest(k), x.t));
    }
    forall p: Path | !Mine(x, p)
      ensures SameAt(base, fs', p)
    {
      assert x.job.IsDest(x.Dest(i));
      assert SameAt(fs, fs', p);
    }
  }

  // The temp's name leads to the temp.
  ghost predicate TempApart(x: Plot, i: nat)
    requires i < x.N()
  {
    At(x, Temp(x.Dest(i), x.t)) == Temp(x.Dest(i), x.t)
  }

  ghost predicate TempsApart(x: Plot, n: nat) { forall i :: 0 <= i < n && i < x.N() ==> TempApart(x, i) }

  function Staged(x: Plot, i: nat): PC {
    if i < x.N() then AtTemp(i, SOpen) else if x.job.hasPre then AtPre else AtRename(0)
  }

  lemma PrepsStaged(x: Plot, preps: seq<Prep>, saved: nat, i: nat)
    requires i < x.N() && Preps(x, preps, x.N(), saved, i)
    ensures Preps(x, preps[i := preps[i].(temp := Some(x.t))], x.N(), saved, i + 1)
  {
  }

  // The new bytes are staged where the temp's name leads.
  lemma StagesOne(x: Plot, l: Local, fs: Files, saved: nat, i: nat, q: Path) returns (l': Local, fs': Files)
    requires i < x.N() && Early(x, l, fs, AtTemp(i, SOpen), x.N(), saved, i)
    requires q == At(x, Temp(x.Dest(i), x.t)) && q !in fs
    ensures Early(x, l', fs', Staged(x, i + 1), x.N(), saved, i + 1) && fs' == fs[q := NewFile(x, i)]
  {
    Prepares(x, l, fs, i, false, q, x.OwnerOf(i), x.job.files[i].bytes);
    l', fs' := TempReady(x.job, TempMade(l, i, x.t, false), i), fs[q := NewFile(x, i)];
    PrepsStaged(x, l.preps, saved, i);
  }

  // n temps are ready, and the files show it.
  ghost predicate Preparing(x: Plot, base: Files, l: Local, fs: Files, saved: nat, n: nat) {
    Early(x, l, fs, Staged(x, n), x.N(), saved, n) && Picture(x, base, fs, 0, 0, n)
  }

  lemma PictureStaged(x: Plot, base: Files, fs: Files, i: nat, fs': Files)
    requires Picture(x, base, fs, 0, 0, i) && i < x.N() && fs' == fs[Temp(x.Dest(i), x.t) := NewFile(x, i)]
    ensures Picture(x, base, fs', 0, 0, i + 1)
  {
    ShownAt(x, base, fs, 0, 0, i, i, Old);
    assert Shows(x, base, fs', i, Ready);
    PictureMoves(x, base, fs, fs', i, 0, 0, i, 0, 0, i + 1);
  }

  lemma StagesNext(x: Plot, base: Files, l: Local, fs: Files, saved: nat, i: nat) returns (l': Local, fs': Files)
    requires i < x.N() && Preparing(x, base, l, fs, saved, i) && TempApart(x, i)
    ensures Preparing(x, base, l', fs', saved, i + 1)
  {
    ShownAt(x, base, fs, 0, 0, i, i, Old);
    l', fs' := StagesOne(x, l, fs, saved, i, Temp(x.Dest(i), x.t));
    PictureStaged(x, base, fs, i, fs');
  }

  ghost predicate CanPrepare(x: Plot, base: Files, saved: nat, n: nat) {
    exists l, fs :: Preparing(x, base, l, fs, saved, n)
  }

  lemma {:induction false} StagesUpTo(x: Plot, base: Files, saved: nat, i: nat, n: nat)
    requires i <= n <= x.N() && CanPrepare(x, base, saved, i) && TempsApart(x, n)
    ensures CanPrepare(x, base, saved, n)
    decreases n - i
  {
    if i < n {
      var l, fs :| Preparing(x, base, l, fs, saved, i);
      var _, _ := StagesNext(x, base, l, fs, saved, i);
      StagesUpTo(x, base, saved, i + 1, n);
    }
  }

  // ----- validating and renaming -----

  ghost function Temps(x: Plot): map<string, Path> { map d | d in Dests(x.job) :: Temp(d, x.t) }

  lemma TempsGiven(x: Plot, l: Local, saved: nat)
    requires l.pc.AtPre? && Preps(x, l.preps, x.N(), saved, x.N())
    ensures InBounds(x.job, l) && Allows(x.job, l, Op.PreCommit(Temps(x)))
  {
    forall i | 0 <= i < x.N()
      ensures x.Dest(i) in Temps(x) && Temps(x)[x.Dest(i)] == Temp(x.Dest(i), x.t)
    {
      assert x.job.files[i] in x.job.files;
    }
  }

  lemma Validates(x: Plot, l: Local, fs: Files, saved: nat) returns (l': Local)
    requires Early(x, l, fs, Staged(x, x.N()), x.N(), saved, x.N())
    ensures Early(x, l', fs, AtRename(0), x.N(), saved, x.N())
  {
    l' := l;
    if x.job.hasPre {
      TempsGiven(x, l, saved);
      Go(x, l, fs, Op.PreCommit(Temps(x)), Ok);
      l' := OnPre(l, Ok);
    }
  }

  function Renamed(x: Plot, i: nat): PC {
    if i < x.N() then AtRename(i) else if x.job.hasPost then AtPost else Cleared(x)
  }

  function Cleared(x: Plot): PC { if x.job.Keep() > 0 then AtPruneList(0) else AtEnd(Deployed) }

  // The call stands at pc with n renames made and no failure.
  ghost predicate Renaming(x: Plot, l: Local, fs: Files, pc: PC, saved: nat, n: nat) {
    && Possible(x, l, fs) && l.pc == pc && Preps(x, l.preps, x.N(), saved, x.N())
    && l.done == n && !l.firstErr && !l.reloadFailed
  }

  lemma RenamesOne(x: Plot, l: Local, fs: Files, saved: nat, i: nat, q: Path) returns (l': Local, fs': Files)
    requires i < x.N() && Renaming(x, l, fs, AtRename(i), saved, i) && q == At(x, Temp(x.Dest(i), x.t)) && q in fs
    ensures Renaming(x, l', fs', Renamed(x, i + 1), saved, i + 1) && fs' == (fs - {q})[Live(x.Dest(i)) := fs[q]]
  {
    var p, d := Temp(x.Dest(i), x.t), Live(x.Dest(i));
    l', fs' := OnRename(x.job, l, i, Ok), (fs - {q})[d := fs[q]];
    RenameTo(x, fs, i, p, q, fs');
    Go(x, l, fs, Rename(p, d), Ok);
    OnceRenamed(x, l, i);
  }

  lemma ViaRename(x: Plot, p: Path, d: Path)
    ensures Via(x, Rename(p, d)) == Rename(At(x, p), At(x, d))
  {
  }

  lemma RenameTo(x: Plot, fs: Files, i: nat, p: Path, q: Path, fs': Files)
    requires i < x.N() && q == At(x, p) && q in fs && fs' == (fs - {q})[Live(x.Dest(i)) := fs[q]]
    ensures Permitted(fs, Via(x, Rename(p, Live(x.Dest(i)))), Ok)
    ensures Effect(x.env, fs, Via(x, Rename(p, Live(x.Dest(i)))), Ok) == fs'
  {
    DestAt(x, i);
    ViaRename(x, p, Live(x.Dest(i)));
    assert Effect(x.env, fs, Rename(q, Live(x.Dest(i))), Ok) == fs';
  }

  lemma OnceRenamed(x: Plot, l: Local, i: nat)
    requires i < x.N()
    ensures var l' := OnRename(x.job, l, i, Ok);
            l'.pc == Renamed(x, i + 1) && l' == l.(pc := l'.pc, done := i + 1)
  {
  }

  lemma PictureRenamed(x: Plot, base: Files, fs: Files, i: nat, fs': Files)
    requires Picture(x, base, fs, 0, i, x.N()) && i < x.N() && Temp(x.Dest(i), x.t) in fs
    requires fs' == (fs - {Temp(x.Dest(i), x.t)})[Live(x.Dest(i)) := fs[Temp(x.Dest(i), x.t)]]
    ensures Picture(x, base, fs', 0, i + 1, x.N())
  {
    ShownAt(x, base, fs, 0, i, x.N(), i, Ready);
    assert Shows(x, base, fs', i, New);
    PictureMoves(x, base, fs, fs', i, 0, i, x.N(), 0, i + 1, x.N());
  }

  // n renames are made, and the files show it.
  ghost predicate Swapping(x: Plot, base: Files, l: Local, fs: Files, saved: nat, n: nat) {
    Renaming(x, l, fs, Renamed(x, n), saved, n) && Picture(x, base, fs, 0, n, x.N())
  }

  lemma RenamesNext(x: Plot, base: Files, l: Local, fs: Files, saved: nat, i: nat) returns (l': Local, fs': Files)
    requires i < x.N() && Swapping(x, base, l, fs, saved, i) && TempApart(x, i)
    ensures Swapping(x, base, l', fs', saved, i + 1)
  {
    ShownAt(x, base, fs, 0, i, x.N(), i, Ready);
    l', fs' := RenamesOne(x, l, fs, saved, i, Temp(x.Dest(i), x.t));
    PictureRenamed(x, base, fs, i, fs');
  }

  ghost predicate CanSwap(x: Plot, base: Files, saved: nat, n: nat) {
    exists l, fs :: Swapping(x, base, l, fs, saved, n)
  }

  lemma {:induction false} RenamesUpTo(x: Plot, base: Files, saved: nat, i: nat, n: nat)
    requires i <= n <= x.N() && CanSwap(x, base, saved, i) && TempsApart(x, n)
    ensures CanSwap(x, base, saved, n)
    decreases n - i
  {
    if i < n {
      var l, fs :| Swapping(x, base, l, fs, saved, i);
      var _, _ := RenamesNext(x, base, l, fs, saved, i);
      RenamesUpTo(x, base, saved, i + 1, n);
    }
  }

  // The names of n temps and of the backups lead to them, and no temp is there yet.
  ghost predicate Fresh(x: Plot, n: nat) {
    TempsApart(x, n) && BackupsApart(x) && forall i :: 0 <= i < x.N() ==> Temp(x.Dest(i), x.t) !in x.fs0
  }

  lemma FirstPicture(x: Plot, fs: Files, saved: nat, n: nat)
    requires Safe(x, fs, saved) && Fresh(x, n)
    ensures Picture(x, fs, fs, 0, 0, 0)
  {
    forall i | 0 <= i < x.N()
      ensures Shows(x, fs, fs, i, Old)
    {
      assert SameAt(x.fs0, fs, Temp(x.Dest(i), x.t));
    }
  }

  // A run that has staged n files.
  lemma Prepared(x: Plot, n: nat) returns (base: Files, l: Local, fs: Files)
    requires Fresh(x, n) && n <= x.N()
    ensures Preparing(x, base, l, fs, Kept(x), n) && Safe(x, base, Kept(x))
  {
    l, base := GetsReady(x);
    FirstPicture(x, base, Kept(x), n);
    assert Preparing(x, base, l, base, Kept(x), 0);
    StagesUpTo(x, base, Kept(x), 0, n);
    l, fs :| Preparing(x, base, l, fs, Kept(x), n);
  }

  // A run that has made n renames.
  lemma Swaps(x: Plot, n: nat) returns (base: Files, l: Local, fs: Files)
    requires Fresh(x, x.N()) && n <= x.N()
    ensures Swapping(x, base, l, fs, Kept(x), n) && Safe(x, base, Kept(x))
  {
    base, l, fs := Prepared(x, x.N());
    l := Validates(x, l, fs, Kept(x));
    assert Swapping(x, base, l, fs, Kept(x), 0);
    RenamesUpTo(x, base, Kept(x), 0, n);
    l, fs :| Swapping(x, base, l, fs, Kept(x), n);
  }

  // ----- rolling back -----

  function Undone(u: nat, n: nat, failed: bool): PC {
    if u < n then AtRestore(u) else if failed then AtPost2 else AtCleanTemps(0, RenameFailed)
  }

  // The call stands at pc, rolling back n renames, with no failure so far.
  ghost predicate Restoring(x: Plot, l: Local, fs: Files, pc: PC, saved: nat, n: nat, failed: bool) {
    && Possible(x, l, fs) && l.pc == pc && Preps(x, l.preps, x.N(), saved, x.N())
    && l.done == n && !l.firstErr && l.reloadFailed == failed
  }

  lemma FailsReload(x: Plot, l: Local, fs: Files, saved: nat) returns (l': Local)
    requires x.job.hasPost && Renaming(x, l, fs, AtPost, saved, x.N())
    ensures Restoring(x, l', fs, AtRestore(0), saved, x.N(), true)
  {
    Go(x, l, fs, PostCommit, Err);
    l' := OnPost(x.job, l, Err);
  }

  lemma FailsRename(x: Plot, l: Local, fs: Files, saved: nat, n: nat) returns (l': Local)
    requires 0 < n < x.N() && Renaming(x, l, fs, AtRename(n), saved, n)
    ensures Restoring(x, l', fs, AtRestore(0), saved, n, false)
  {
    Go(x, l, fs, Rename(Temp(x.Dest(n), x.t), Live(x.Dest(n))), Err);
    l' := OnRename(x.job, l, n, Err);
  }

  // A file without a backup is removed.
  lemma RemovesNew(x: Plot, l: Local, fs: Files, saved: nat, u: nat, n: nat, failed: bool) returns (l': Local)
    requires u < n <= x.N() && Restoring(x, l, fs, AtRestore(u), saved, n, failed) && !(u < saved && x.Existed(u))
    requires Live(x.Dest(u)) in fs
    ensures Restoring(x, l', fs - {Live(x.Dest(u))}, Undone(u + 1, n, failed), saved, n, failed)
  {
    DestAt(x, u);
    Go(x, l, fs, Remove(Live(x.Dest(u))), Ok);
    l' := OnRestore(x.job, l, u, Ok);
  }

  lemma ReadsBackup(x: Plot, l: Local, fs: Files, saved: nat, u: nat, n: nat, failed: bool) returns (l': Local)
    requires u < n <= x.N() && Restoring(x, l, fs, AtRestore(u), saved, n, failed) && u < saved && x.Existed(u)
    requires BackupApart(x, u) && BytesAt(fs, Backup(x.Dest(u), x.b)) == Some(x.seen[Live(x.Dest(u))].bytes)
    ensures Restoring(x, l', fs, AtRestoreTemp(u, SOpen), saved, n, failed) && l'.data == x.seen[Live(x.Dest(u))].bytes
  {
    Go(x, l, fs, Read(Backup(x.Dest(u), x.b)), Data(x.seen[Live(x.Dest(u))].bytes));
    l' := OnRestore(x.job, l, u, Data(x.seen[Live(x.Dest(u))].bytes));
  }

  lemma StagesOld(x: Plot, l: Local, fs: Files, saved: nat, u: nat, n: nat, failed: bool)
    returns (l': Local, fs': Files)
    requires u < n <= x.N() && Restoring(x, l, fs, AtRestoreTemp(u, SOpen), saved, n, failed) && x.Existed(u)
    requires l.data == x.seen[Live(x.Dest(u))].bytes && TempApart(x, u) && Temp(x.Dest(u), x.t) !in fs
    ensures Restoring(x, l', fs', AtRestoreRename(u), saved, n, failed) && l'.stamp == x.t
    ensures fs' == fs[Temp(x.Dest(u), x.t) := OldFile(x, u)]
  {
    var p := Temp(x.Dest(u), x.t);
    Prepares(x, l, fs, u, true, p, x.OwnerOf(u), l.data);
    l', fs' := Goto(TempMade(l, u, x.t, true), AtRestoreRename(u)), fs[p := OldFile(x, u)];
  }

  lemma RenamesBack(x: Plot, l: Local, fs: Files, saved: nat, u: nat, n: nat, failed: bool)
    returns (l': Local, fs': Files)
    requires u < n <= x.N() && Restoring(x, l, fs, AtRestoreRename(u), saved, n, failed) && l.stamp == x.t
    requires TempApart(x, u) && Temp(x.Dest(u), x.t) in fs
    ensures Restoring(x, l', fs', Undone(u + 1, n, failed), saved, n, failed)
    ensures fs' == (fs - {Temp(x.Dest(u), x.t)})[Live(x.Dest(u)) := fs[Temp(x.Dest(u), x.t)]]
  {
    var p, d := Temp(x.Dest(u), x.t), Live(x.Dest(u));
    DestAt(x, u);
    Go(x, l, fs, Rename(p, d), Ok);
    l', fs' := OnRestoreRename(x.job, l, u, Ok), (fs - {p})[d := fs[p]];
  }

  // A file with a backup is put back.
  lemma PutsBack(x: Plot, l: Local, fs: Files, saved: nat, u: nat, n: nat, failed: bool) returns (l': Local, fs': Files)
    requires u < n <= x.N() && Restoring(x, l, fs, AtRestore(u), saved, n, failed) && u < saved && x.Existed(u)
    requires BackupApart(x, u) && BytesAt(fs, Backup(x.Dest(u), x.b)) == Some(x.seen[Live(x.Dest(u))].bytes)
    requires TempApart(x, u) && Temp(x.Dest(u), x.t) !in fs
    ensures Restoring(x, l', fs', Undone(u + 1, n, failed), saved, n, failed)
    ensures fs' == fs[Live(x.Dest(u)) := OldFile(x, u)]
  {
    l' := ReadsBackup(x, l, fs, saved, u, n, failed);
    l', fs' := StagesOld(x, l', fs, saved, u, n, failed);
    l', fs' := RenamesBack(x, l', fs', saved, u, n, failed);
    assert fs' == fs[Live(x.Dest(u)) := OldFile(x, u)];
  }

  // u of n renames are undone, and the files show it.
  ghost predicate Undoing(x: Plot, base: Files, l: Local, fs: Files, u: nat, n: nat, failed: bool) {
    Restoring(x, l, fs, Undone(u, n, failed), Kept(x), n, failed) && Picture(x, base, fs, u, n, x.N())
  }

  lemma PictureBack(x: Plot, base: Files, fs: Files, u: nat, n: nat, fs': Files)
    requires u < n <= x.N() && Picture(x, base, fs, u, n, x.N())
    requires fs' == if x.job.retention != -1 && x.Existed(u) then fs[Live(x.Dest(u)) := OldFile(x, u)]
                    else fs - {Live(x.Dest(u))}
    ensures Picture(x, base, fs', u + 1, n, x.N())
  {
    ShownAt(x, base, fs, u, n, x.N(), u, New);
    assert Shows(x, base, fs', u, Back);
    PictureMoves(x, base, fs, fs', u, u, n, x.N(), u + 1, n, x.N());
  }

  lemma BackupStands(x: Plot, base: Files, fs: Files, u: nat, n: nat)
    requires u < n <= x.N() && Picture(x, base, fs, u, n, x.N()) && Safe(x, base, x.N()) && x.Existed(u)
    ensures BytesAt(fs, Backup(x.Dest(u), x.b)) == Some(x.seen[Live(x.Dest(u))].bytes)
  {
    assert SameAt(base, fs, Backup(x.Dest(u), x.b));
  }

  lemma UndoesNext(x: Plot, base: Files, l: Local, fs: Files, u: nat, n: nat, failed: bool)
    returns (l': Local, fs': Files)
    requires u < n <= x.N() && Undoing(x, base, l, fs, u, n, failed) && Safe(x, base, Kept(x))
    requires TempApart(x, u) && (x.Existed(u) ==> BackupApart(x, u))
    ensures Undoing(x, base, l', fs', u + 1, n, failed)
  {
    ShownAt(x, base, fs, u, n, x.N(), u, New);
    if x.job.retention != -1 && x.Existed(u) {
      BackupStands(x, base, fs, u, n);
      l', fs' := PutsBack(x, l, fs, Kept(x), u, n, failed);
    } else {
      fs' := fs - {Live(x.Dest(u))};
      l' := RemovesNew(x, l, fs, Kept(x), u, n, failed);
    }
    PictureBack(x, base, fs, u, n, fs');
  }

  ghost predicate CanUndo(x: Plot, base: Files, u: nat, n: nat, failed: bool) {
    exists l, fs :: Undoing(x, base, l, fs, u, n, failed) && Safe(x, base, Kept(x)) && Fresh(x, x.N())
  }

  lemma UndoesOne(x: Plot, base: Files, u: nat, v: nat, n: nat, failed: bool)
    requires u < n <= x.N() && CanUndo(x, base, u, n, failed) && v == u + 1
    ensures CanUndo(x, base, v, n, failed)
  {
    var l, fs :| Undoing(x, base, l, fs, u, n, failed) && Safe(x, base, Kept(x)) && Fresh(x, x.N());
    var _, _ := UndoesNext(x, base, l, fs, u, n, failed);
  }

  lemma UndoesUpTo(x: Plot, base: Files, n: nat, failed: bool)
    requires n <= x.N() && CanUndo(x, base, 0, n, failed)
    ensures CanUndo(x, base, n, n, failed)
  {
    var can := (u: nat) => CanUndo(x, base, u, n, failed);
    forall u: nat, v: nat | u < n && v == u + 1 && can(u)
      ensures can(v)
    {
      UndoesOne(x, base, u, v, n, failed);
    }
    Climb(can, n);
  }

  lemma ReloadsOld(x: Plot, l: Local, fs: Files) returns (l': Local)
    requires Possible(x, l, fs) && l.pc == AtPost2
    ensures Possible(x, l', fs) && l'.pc == AtEnd(RolledBack)
  {
    Go(x, l, fs, PostCommit, Ok);
    l' := OnPost2(l, Ok);
  }

  // A failed reload rolls everything back: backed up files are there again, the others are gone.
  lemma RollsBack(x: Plot) returns (base: Files, l: Local, fs: Files)
    requires Fresh(x, x.N()) && x.job.hasPost
    ensures Possible(x, l, fs) && l.pc == AtEnd(RolledBack) && Picture(x, base, fs, x.N(), x.N(), x.N())
  {
    base, l, fs := Swaps(x, x.N());
    l := FailsReload(x, l, fs, Kept(x));
    assert Undoing(x, base, l, fs, 0, x.N(), true);
    UndoesUpTo(x, base, x.N(), true);
    l, fs :| Undoing(x, base, l, fs, x.N(), x.N(), true);
    l := ReloadsOld(x, l, fs);
  }

  // A rename that fails after n others rolls those back.
  lemma RollsBackRename(x: Plot, n: nat) returns (l: Local, fs: Files)
    requires Fresh(x, x.N()) && 0 < n < x.N()
    ensures Restoring(x, l, fs, AtCleanTemps(0, RenameFailed), Kept(x), n, false)
  {
    var base;
    base, l, fs := Swaps(x, n);
    l := FailsRename(x, l, fs, Kept(x), n);
    assert Undoing(x, base, l, fs, 0, n, false);
    UndoesUpTo(x, base, n, false);
    l, fs :| Undoing(x, base, l, fs, n, n, false);
  }

  // ----- cleaning up and pruning -----

  function Cleaning(x: Plot, i: nat, o: Outcome): PC { if i < x.N() then AtCleanTemps(i, o) else AtEnd(o) }

  lemma OnceCleaned(x: Plot, l: Local, i: nat, o: Outcome, r: Reply)
    requires i < x.N() == |l.preps|
    ensures OnCleanTemps(x.job, l, i, o, r).pc == Cleaning(x, i + 1, o)
    ensures OnCleanTemps(x.job, l, i, o, r).preps == l.preps && OnCleanTemps(x.job, l, i, o, r).done == l.done
  {
  }

  // A temp, if there is one, cannot be removed.
  lemma CleansNot(x: Plot, l: Local, fs: Files, i: nat, o: Outcome) returns (l': Local)
    requires i < x.N() == |l.preps| && Possible(x, l, fs) && l.pc == AtCleanTemps(i, o)
    ensures Possible(x, l', fs) && l'.pc == Cleaning(x, i + 1, o) && l'.preps == l.preps && l'.done == l.done
  {
    var t := l.preps[i].temp;
    var r := if t.Some? then Err else Ok;
    Go(x, l, fs, if t.Some? then Remove(Temp(x.Dest(i), t.value)) else Continue, r);
    l' := OnCleanTemps(x.job, l, i, o, r);
    OnceCleaned(x, l, i, o, r);
  }

  lemma {:induction false} CleansNone(x: Plot, l: Local, fs: Files, i: nat, o: Outcome) returns (l': Local)
    requires i < x.N() == |l.preps| && Possible(x, l, fs) && l.pc == AtCleanTemps(i, o)
    ensures Possible(x, l', fs) && l'.pc == AtEnd(o) && l'.done == l.done
    decreases x.N() - i
  {
    l' := CleansNot(x, l, fs, i, o);
    if i + 1 < x.N() { l' := CleansNone(x, l', fs, i + 1, o); }
  }

  function Pruning(x: Plot, i: nat): PC { if i < x.N() then AtPruneList(i) else AtEnd(Deployed) }

  ghost predicate Tidying(x: Plot, l: Local, fs: Files, i: nat) {
    Possible(x, l, fs) && l.pc == Pruning(x, i) && |l.preps| == x.N()
  }

  // A reload that works, if there is one.
  lemma Reloads(x: Plot, l: Local, fs: Files, saved: nat) returns (l': Local)
    requires Renaming(x, l, fs, Renamed(x, x.N()), saved, x.N()) && x.job.Keep() > 0
    ensures Tidying(x, l', fs, 0)
  {
    l' := l;
    if x.job.hasPost {
      Go(x, l, fs, PostCommit, Ok);
      l' := OnPost(x.job, l, Ok);
    }
  }

  // A listing fails and its destination is passed over.
  lemma PassesOver(x: Plot, l: Local, fs: Files, i: nat) returns (l': Local)
    requires i < x.N() && Tidying(x, l, fs, i)
    ensures Tidying(x, l', fs, i + 1)
  {
    Go(x, l, fs, List(x.Dest(i)), Err);
    l' := OnPruneList(x.job, l, i, Err);
  }

  lemma {:induction false} PassesUpTo(x: Plot, l: Local, fs: Files, i: nat, n: nat) returns (l': Local)
    requires i <= n <= x.N() && Tidying(x, l, fs, i)
    ensures Tidying(x, l', fs, n)
    decreases n - i
  {
    l' := l;
    if i < n {
      l' := PassesOver(x, l, fs, i);
      l' := PassesUpTo(x, l', fs, i + 1, n);
    }
  }

  // Everything the janitor set out to remove at destination i goes.
  lemma {:induction false} SweepsAll(x: Plot, l: Local, fs: Files, i: nat, todo: set<Path>) returns (l': Local)
    requires Possible(x, l, fs) && l.pc == AtPruneRemove(i, todo) && i < x.N() == |l.preps| && !x.byName
    requires todo != {} && forall p :: p in todo ==> p in fs
    ensures Tidying(x, l', fs - todo, i + 1)
    decreases todo
  {
    var p :| p in todo;
    Go(x, l, fs, Remove(p), Ok);
    l' := OnPruneRemove(x.job, l, i, todo, p, Ok);
    if todo - {p} != {} {
      l' := SweepsAll(x, l', fs - {p}, i, todo - {p});
      assert fs - {p} - (todo - {p}) == fs - todo;
    } else {
      assert todo == {p};
    }
  }

  lemma SweepsAt(x: Plot, l: Local, fs: Files, i: nat, todo: set<Path>) returns (l': Local)
    requires i < x.N() && Tidying(x, l, fs, i) && !x.byName
    requires todo == Doomed(x.job.Keep(), Found(fs, x.Dest(i))) && todo != {}
    ensures Tidying(x, l', fs - todo, i + 1)
  {
    Go(x, l, fs, List(x.Dest(i)), Names(Found(fs, x.Dest(i))));
    l' := SweepsAll(x, l.(pc := AtPruneRemove(i, todo)), fs, i, todo);
  }

  // A deployment that succeeds and has pruned destination i.
  lemma Deploys(x: Plot, i: nat) returns (base: Files, mid: Files, l: Local, fs: Files)
    requires Fresh(x, x.N()) && x.job.Keep() > 0 && i < x.N() && !x.byName
    ensures Possible(x, l, fs) && l.pc == AtEnd(Deployed)
    ensures Picture(x, base, mid, 0, x.N(), x.N()) && Safe(x, base, Kept(x))
    ensures fs == mid - Doomed(x.job.Keep(), Found(mid, x.Dest(i)))
  {
    base, l, mid := Swaps(x, x.N());
    l := Reloads(x, l, mid, Kept(x));
    l := PassesUpTo(x, l, mid, 0, i);
    var todo := Doomed(x.job.Keep(), Found(mid, x.Dest(i)));
    fs := mid - todo;
    if todo == {} {
      assert fs == mid;
      l := PassesOver(x, l, mid, i);
    } else {
      l := SweepsAt(x, l, mid, i, todo);
    }
    l := PassesUpTo(x, l, fs, i + 1, x.N());
  }

  // Nothing has gone but temps.
  lemma PictureKeeps(x: Plot, base: Files, fs: Files, p: Path)
    requires Picture(x, base, fs, 0, x.N(), x.N()) && Safe(x, base, Kept(x)) && p in x.fs0 && p != Temp(p.of, x.t)
    ensures p in fs
  {
    if Mine(x, p) {
      var i :| 0 <= i < x.N() && x.job.files[i].abs == p.of;
      ShownAt(x, base, fs, 0, x.N(), x.N(), i, New);
    } else {
      assert SameAt(base, fs, p);
    }
  }
}
