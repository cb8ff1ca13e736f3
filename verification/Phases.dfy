/** Apply, phase by phase, in the order of the source. */
module Phases {
  import opened Common
  import opened FileSystem
  import opened Ownership
  import opened Retention
  import opened Protocol
  import opened Host

  // The running call stands at pc with these preps and has renamed nothing.
  ghost predicate At(h: Host, plan: Job, pc: PC, preps: seq<Prep>)
    reads h
  {
    && h.Valid() && h.job == plan && h.l.pc == pc && h.l.preps == preps
    && h.l.done == 0 && !h.l.reloadFailed && !h.l.firstErr
  }

  ghost predicate Ended(h: Host, plan: Job, o: Outcome)
    reads h
  {
    h.Valid() && h.job == plan && h.l.pc == AtEnd(o)
  }

  // Step 2: does every destination already hold its bytes?
  method AllMatch(h: Host, plan: Job) returns (all: bool)
    requires At(h, plan, AtIdem(0), []) && plan.N() > 0 && !plan.solo
    modifies h
    ensures if all then Ended(h, plan, Skipped) else At(h, plan, AtStat(0), [])
  {
    for i := 0 to plan.N()
      invariant At(h, plan, if i < plan.N() then AtIdem(i) else AtEnd(Skipped), [])
    {
      var r := h.Call(Read(Live(plan.files[i].abs)));
      if !r.Data? || !Sha256Eq(h.env, r.bytes, plan.files[i].bytes) { return false; }
    }
    return true;
  }

  predicate Blank(preps: seq<Prep>) { forall j :: 0 <= j < |preps| ==> preps[j].backup.None? && preps[j].temp.None? }

  // Step 3: look at every destination and resolve its ownership.
  method Prepare(h: Host, plan: Job) returns (preps: Option<seq<Prep>>)
    requires At(h, plan, AtStat(0), []) && plan.N() > 0 && !plan.solo
    modifies h
    ensures preps.None? ==> Ended(h, plan, Aborted)
    ensures preps.Some? ==> |preps.value| == plan.N() && Blank(preps.value)
    ensures preps.Some? ==> At(h, plan, if plan.retention != -1 then AtBackupRead(0) else AtTemp(0, SOpen), preps.value)
  {
    var ps: seq<Prep> := [];
    for i := 0 to plan.N()
      invariant |ps| == i && Blank(ps)
      invariant At(h, plan, if i < plan.N() then AtStat(i)
                            else if plan.retention != -1 then AtBackupRead(0) else AtTemp(0, SOpen), ps)
    {
      var r := h.Call(Stat(Live(plan.files[i].abs)));
      var info := if r.Stats? then Some(r.info) else None;
      match ResolveOwnership(h.env, plan.files[i], plan.defaults, info) {
        case None => return None;
        case Some(o) => ps := ps + [Prep(o, info.Some?, None, None)];
      }
    }
    return Some(ps);
  }

  // backupFile
  method BackupFile(h: Host, plan: Job, i: nat, preps: seq<Prep>) returns (stamp: Option<nat>)
    requires At(h, plan, AtBackupRead(i), preps) && i < plan.N() == |preps| && preps[i].hadOrig
    modifies h
    ensures stamp.Some? ==> At(h, plan, AfterBackup(plan, h.l, i).pc, preps[i := preps[i].(backup := stamp)])
    ensures stamp.None? ==> At(h, plan, BackupFailed(plan, h.l).pc, preps)
  {
    var d := plan.files[i].abs;
    var data := h.Call(Read(Live(d)));
    if !data.Data? { return None; }
    var info := h.Call(Stat(Live(d)));
    if !info.Stats? { return None; }
    var b := Backup(d, h.clock(h.steps));
    var r := h.Call(WriteBackup(b, data.bytes, Perm(info.info.mode)));
    if !r.Made? { return None; }
    r := h.Call(Chown(b, info.info.uid, info.info.gid));
    return Some(b.stamp);
  }

  // Result.BackupPaths so far: an entry for each of the first n files, None
  // where there was nothing to back up.
  predicate Lists(plan: Job, preps: seq<Prep>, paths: map<string, Option<Path>>, n: nat) {
    forall j :: 0 <= j < n && j < plan.N() && j < |preps| ==>
      && plan.files[j].abs in paths
      && paths[plan.files[j].abs]
         == if preps[j].backup.Some? then Some(Backup(plan.files[j].abs, preps[j].backup.value)) else None
  }

  // Back up destination i if it exists; b is None if it does not.
  method BackupIfThere(h: Host, plan: Job, i: nat, preps: seq<Prep>) returns (ok: bool, b: Option<nat>)
    requires At(h, plan, AtBackupRead(i), preps) && i < plan.N() == |preps| && preps[i].backup.None? && !plan.solo
    modifies h
    ensures ok ==> At(h, plan, AfterBackup(plan, h.l, i).pc, preps[i := preps[i].(backup := b)])
    ensures !ok ==> At(h, plan, AtBackupCleanup(0), preps)
  {
    if preps[i].hadOrig {
      b := BackupFile(h, plan, i, preps);
      ok := b.Some?;
    } else {
      var _ := h.Call(Continue);
      assert preps[i := preps[i].(backup := None)] == preps;
      ok, b := true, None;
    }
  }

  // Step 4: back up every existing destination; on failure drop the backups taken.
  method TakeBackups(h: Host, plan: Job, preps: seq<Prep>)
    returns (ok: bool, ps: seq<Prep>, paths: map<string, Option<Path>>)
    requires At(h, plan, AtBackupRead(0), preps) && plan.N() == |preps|
    requires Blank(preps) && plan.WellFormed() && !plan.solo
    modifies h
    ensures |ps| == plan.N() && forall j :: 0 <= j < |ps| ==> ps[j] == preps[j].(backup := ps[j].backup)
    ensures ok ==> At(h, plan, AtTemp(0, SOpen), ps) && Lists(plan, ps, paths, plan.N())
    ensures ok ==> paths.Keys == Dests(plan)
    ensures !ok ==> Ended(h, plan, Aborted)
  {
    ps, paths := preps, map[];
    for i := 0 to plan.N()
      invariant At(h, plan, if i < plan.N() then AtBackupRead(i) else AtTemp(0, SOpen), ps)
      invariant |ps| == plan.N() && Lists(plan, ps, paths, i)
      invariant forall d :: d in paths <==> exists j :: 0 <= j < i && plan.files[j].abs == d
      invariant forall j :: 0 <= j < |ps| ==>
                  ps[j] == preps[j].(backup := ps[j].backup) && (j >= i ==> ps[j] == preps[j])
    {
      var b;
      ok, b := BackupIfThere(h, plan, i, ps);
      if !ok {
        CleanupBackups(h, plan, ps);
        return false, ps, paths;
      }
      ps := ps[i := ps[i].(backup := b)];
      paths := paths[plan.files[i].abs := if b.Some? then Some(Backup(plan.files[i].abs, b.value)) else None];
    }
    ok := true;
  }

  method CleanupBackups(h: Host, plan: Job, preps: seq<Prep>)
    requires At(h, plan, AtBackupCleanup(0), preps) && 0 < plan.N() == |preps|
    modifies h
    ensures Ended(h, plan, Aborted)
  {
    ghost var ps := preps;
    for i := 0 to plan.N()
      invariant At(h, plan, if i < plan.N() then AtBackupCleanup(i) else AtEnd(Aborted), ps)
      invariant |ps| == plan.N() && forall j :: i <= j < plan.N() ==> ps[j] == preps[j]
    {
      var b := preps[i].backup;
      var _ := h.Call(if b.Some? then Remove(Backup(plan.files[i].abs, b.value)) else Continue);
      ps := ps[i := ps[i].(backup := None)];
    }
  }

  // cleanupTemps
  method CleanupTemps(h: Host, plan: Job, preps: seq<Prep>, ghost o: Outcome)
    requires h.Valid() && h.job == plan && h.l.pc == AtCleanTemps(0, o) && h.l.preps == preps && 0 < plan.N() == |preps|
    modifies h
    ensures Ended(h, plan, o) && h.l.preps == preps
  {
    for i := 0 to plan.N()
      invariant h.Valid() && h.job == plan && h.l.preps == preps
      invariant h.l.pc == if i < plan.N() then AtCleanTemps(i, o) else AtEnd(o)
    {
      var t := preps[i].temp;
      var _ := h.Call(if t.Some? then Remove(Temp(plan.files[i].abs, t.value)) else Continue);
    }
  }

  predicate Staged(preps: seq<Prep>, n: nat) { forall j :: 0 <= j < n && j < |preps| ==> preps[j].temp.Some? }

  method StageOne(h: Host, plan: Job, preps: seq<Prep>, i: nat) returns (ok: bool, ps: seq<Prep>)
    requires At(h, plan, AtTemp(i, SOpen), preps) && i < plan.N() == |preps| && !plan.solo
    modifies h
    ensures |ps| == |preps| && ps == preps[i := preps[i].(temp := ps[i].temp)]
    ensures ok ==> ps[i].temp.Some?
    ensures At(h, plan, if !ok then AtCleanTemps(0, Aborted) else if i + 1 < plan.N() then AtTemp(i + 1, SOpen)
                        else if plan.hasPre then AtPre else AtRename(0), ps)
  {
    ps := preps;
    var temp := WriteTempFile(h, i, plan.files[i].abs, plan.files[i].bytes, false);
    if temp.None? { return false, ps; }
    ps := ps[i := ps[i].(temp := temp)];
    ok := ApplyOwnership(h, i, Temp(plan.files[i].abs, temp.value), ps[i].owner, plan.files[i].bytes, false);
  }

  // Step 5: write every temp and apply its ownership.
  method StageAll(h: Host, plan: Job, preps: seq<Prep>) returns (ok: bool, ps: seq<Prep>)
    requires At(h, plan, AtTemp(0, SOpen), preps) && 0 < plan.N() == |preps| && !plan.solo
    modifies h
    ensures |ps| == plan.N() && forall j :: 0 <= j < |ps| ==> ps[j] == preps[j].(temp := ps[j].temp)
    ensures ok ==> At(h, plan, if plan.hasPre then AtPre else AtRename(0), ps) && Staged(ps, plan.N())
    ensures !ok ==> Ended(h, plan, Aborted)
  {
    ps := preps;
    for i := 0 to plan.N()
      invariant At(h, plan, if i < plan.N() then AtTemp(i, SOpen) else if plan.hasPre then AtPre else AtRename(0), ps)
      invariant |ps| == plan.N() && Staged(ps, i)
      invariant forall j :: 0 <= j < |ps| ==> ps[j] == preps[j].(temp := ps[j].temp)
    {
      ok, ps := StageOne(h, plan, ps, i);
      if !ok {
        CleanupTemps(h, plan, ps, Aborted);
        return false, ps;
      }
    }
    ok := true;
  }

  // Step 6.
  method Validate(h: Host, plan: Job, preps: seq<Prep>) returns (ok: bool)
    requires At(h, plan, AtPre, preps) && plan.WellFormed() && plan.N() == |preps| && Staged(preps, plan.N())
    modifies h
    ensures if ok then At(h, plan, AtRename(0), preps) else Ended(h, plan, Rejected)
  {
    var temps: map<string, Path> := map[];
    for i := 0 to plan.N()
      invariant forall d :: d in temps <==> exists j :: 0 <= j < i && plan.files[j].abs == d
      invariant forall j :: 0 <= j < i ==>
                  && plan.files[j].abs in temps
                  && temps[plan.files[j].abs] == Temp(plan.files[j].abs, preps[j].temp.value)
    {
      temps := temps[plan.files[i].abs := Temp(plan.files[i].abs, preps[i].temp.value)];
    }
    var r := h.Call(Op.PreCommit(temps));
    ok := r.Ok?;
    if !ok { CleanupTemps(h, plan, preps, Rejected); }
  }

  // The call stands at pc with n renames done.
  ghost predicate Past(h: Host, plan: Job, pc: PC, preps: seq<Prep>, n: nat, reloadFailed: bool, firstErr: bool)
    reads h
  {
    && h.Valid() && h.job == plan && h.l.pc == pc && h.l.preps == preps
    && h.l.done == n && h.l.reloadFailed == reloadFailed && h.l.firstErr == firstErr
  }

  // Where a finished rename loop leads.
  function Committed(plan: Job): PC {
    if plan.hasPost then AtPost else if plan.Keep() > 0 then AtPruneList(0)
    else if plan.solo then AtCleanTemps(0, Deployed) else AtEnd(Deployed)
  }

  // Step 7: rename until one fails; n of them succeeded.
  method RenameAll(h: Host, plan: Job, preps: seq<Prep>) returns (n: nat)
    requires At(h, plan, AtRename(0), preps) && 0 < plan.N() == |preps| && Staged(preps, plan.N())
    modifies h
    ensures n <= plan.N()
    ensures n == plan.N() ==> Past(h, plan, Committed(plan), preps, n, false, false)
    ensures n < plan.N() ==> Past(h, plan, OnRename(plan, h.l, n, Err).pc, preps, n, false, false)
  {
    for i := 0 to plan.N()
      invariant Past(h, plan, if i < plan.N() then AtRename(i) else Committed(plan), preps, i, false, false)
    {
      var r := h.Call(Rename(Temp(plan.files[i].abs, preps[i].temp.value), Live(plan.files[i].abs)));
      if !r.Ok? { return i; }
    }
    return plan.N();
  }

  // Where restore leads once it has gone through all n files.
  function Rolled(reloadFailed: bool, failed: bool): PC {
    if !reloadFailed then AtCleanTemps(0, if failed then Stranded else RenameFailed)
    else if failed then AtEnd(Stranded) else AtPost2
  }

  // One file of the restore done.
  ghost predicate PastFile(h: Host, plan: Job, i: nat, preps: seq<Prep>, n: nat, rf: bool, fe: bool)
    reads h
  {
    Past(h, plan, if i + 1 < n then AtRestore(i + 1) else Rolled(rf, fe), preps, n, rf, fe)
  }

  lemma RestoredLands(plan: Job, l: Local, i: nat, failed: bool, n: nat, rf: bool, fe: bool)
    requires l.done == n && l.reloadFailed == rf && l.firstErr == fe && i < n
    ensures var l' := Restored(plan, l, i, failed);
            && l'.pc == (if i + 1 < n then AtRestore(i + 1) else Rolled(rf, fe || failed))
            && l'.preps == l.preps && l'.done == n && l'.reloadFailed == rf && l'.firstErr == (fe || failed)
  {
  }

  // Write the old bytes beside the destination and rename them over it.
  method Rewrite(h: Host, plan: Job, i: nat, preps: seq<Prep>, data: Bytes, ghost n: nat, ghost rf: bool,
                 ghost fe: bool) returns (failed: bool)
    requires Past(h, plan, AtRestoreTemp(i, SOpen), preps, n, rf, fe)
    requires i < n <= plan.N() == |preps| && h.l.data == data
    modifies h
    ensures PastFile(h, plan, i, preps, n, rf, fe || failed)
  {
    var d := plan.files[i].abs;
    ghost var l0 := h.l;
    var temp := WriteTempFile(h, i, d, data, true);
    if temp.None? {
      RestoredLands(plan, l0.(stamp := h.l.stamp, stuck := h.l.stuck), i, true, n, rf, fe);
      return true;
    }
    var p := Temp(d, temp.value);
    var owned := ApplyOwnership(h, i, p, preps[i].owner, data, true);
    failed := true;
    if owned { failed := Replace(h, plan, i, p, preps, n, rf, fe); }
    if failed {
      ghost var l1 := h.l;
      DropTemp(h, i, p, data, true);
      RestoredLands(plan, l1.(stuck := h.l.stuck), i, true, n, rf, fe);
    }
  }

  method Replace(h: Host, plan: Job, i: nat, p: Path, preps: seq<Prep>, ghost n: nat, ghost rf: bool, ghost fe: bool)
    returns (failed: bool)
    requires Past(h, plan, AtRestoreRename(i), preps, n, rf, fe) && i < n <= plan.N() == |preps|
    requires p == Temp(plan.files[i].abs, h.l.stamp)
    modifies h
    ensures if failed then h.Valid() && h.l == Goto(old(h.l), AtRestoreTemp(i, SDrop))
            else PastFile(h, plan, i, preps, n, rf, fe)
  {
    RestoredLands(plan, h.l, i, false, n, rf, fe);
    var r := h.Call(Rename(p, Live(plan.files[i].abs)));
    return !r.Ok?;
  }

  method RestoreOne(h: Host, plan: Job, i: nat, preps: seq<Prep>, ghost n: nat, ghost rf: bool, ghost fe: bool)
    returns (failed: bool)
    requires Past(h, plan, AtRestore(i), preps, n, rf, fe) && i < n <= plan.N() == |preps|
    modifies h
    ensures PastFile(h, plan, i, preps, n, rf, fe || failed)
  {
    var d, b := plan.files[i].abs, preps[i].backup;
    RestoredLands(plan, h.l, i, true, n, rf, fe);
    RestoredLands(plan, h.l, i, false, n, rf, fe);
    var r := h.Call(if b.Some? then Read(Backup(d, b.value)) else Remove(Live(d)));
    if b.None? { return r.Err?; }
    if !r.Data? { return true; }
    failed := Rewrite(h, plan, i, preps, r.bytes, n, rf, fe);
  }

  method RestoreFromBackups(h: Host, plan: Job, preps: seq<Prep>, n: nat, ghost rf: bool) returns (failed: bool)
    requires n <= plan.N() == |preps|
    requires Past(h, plan, if n > 0 then AtRestore(0) else Rolled(rf, false), preps, n, rf, false)
    modifies h
    ensures Past(h, plan, Rolled(rf, failed), preps, n, rf, failed)
  {
    failed := false;
    for i := 0 to n
      invariant Past(h, plan, if i < n then AtRestore(i) else Rolled(rf, failed), preps, n, rf, failed)
    {
      var bad := RestoreOne(h, plan, i, preps, n, rf, failed);
      failed := failed || bad;
    }
  }

  function Swept(plan: Job, i: nat): PC {
    if i < plan.N() then AtPruneList(i) else if plan.solo then AtCleanTemps(0, Deployed) else AtEnd(Deployed)
  }

  method PruneOne(h: Host, plan: Job, i: nat, preps: seq<Prep>, todo: set<Path>) returns (left: set<Path>)
    requires h.Valid() && h.job == plan && h.l.pc == AtPruneRemove(i, todo)
    requires h.l.preps == preps && i < plan.N() == |preps|
    requires todo != {}
    modifies h
    ensures h.Valid() && h.l.preps == preps && left < todo
    ensures h.l.pc == if left == {} then Swept(plan, i + 1) else AtPruneRemove(i, left)
  {
    var p :| p in todo;
    var _ := h.Call(Remove(p));
    left := todo - {p};
  }

  // pruneBackups; the order of removal does not matter.
  method PruneBackups(h: Host, plan: Job, i: nat, preps: seq<Prep>)
    requires h.Valid() && h.job == plan && h.l.pc == AtPruneList(i) && h.l.preps == preps && i < plan.N() == |preps|
    modifies h
    ensures h.Valid() && h.l.pc == Swept(plan, i + 1) && h.l.preps == preps
  {
    var r := h.Call(List(plan.files[i].abs));
    if !r.Names? { return; }
    var todo := Doomed(plan.Keep(), r.found);
    while todo != {}
      invariant h.Valid() && h.l.preps == preps
      invariant h.l.pc == if todo == {} then Swept(plan, i + 1) else AtPruneRemove(i, todo)
      decreases todo
    {
      todo := PruneOne(h, plan, i, preps, todo);
    }
  }

  // Step 9.
  method Janitor(h: Host, plan: Job, preps: seq<Prep>)
    requires h.Valid() && h.job == plan && h.l.pc == AtPruneList(0) && h.l.preps == preps && 0 < plan.N() == |preps|
    modifies h
    ensures h.Valid() && h.l.pc == Swept(plan, plan.N()) && h.l.preps == preps
  {
    for i := 0 to plan.N()
      invariant h.Valid() && h.l.pc == Swept(plan, i) && h.l.preps == preps
    {
      PruneBackups(h, plan, i, preps);
    }
  }
}
