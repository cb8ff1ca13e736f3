/**
 What a run's own events say about what the call remembers: which destinations
 its first stats found, and how it made each backup it names.
 */
module Records {
  import opened Common
  import opened FileSystem
  import opened Protocol
  import opened Progress
  import opened Invariant
  import opened Safety
  import opened Runs
  import opened Events

  // ----- the first stat -----

  // The run's first stat of d found it, or did not.
  ghost predicate FirstSeen(run: seq<Event>, d: string, found: bool) {
    exists k :: && 0 <= k < |run| && FirstStat(run, k) && run[k].op == Stat(Live(d))
                && (run[k].reply.Stats? <==> found)
  }

  ghost predicate Sightings(job: Job, l: Local, run: seq<Event>) {
    && (forall j :: 0 <= j < |l.preps| && j < job.N() ==> FirstSeen(run, job.files[j].abs, l.preps[j].hadOrig))
    && (l.pc.AtIdem? && job.solo && job.N() > 0 ==> l.info.Some? && FirstSeen(run, job.files[0].abs, true))
  }

  lemma FirstSeenExtends(past: seq<Event>, e: Event, d: string, found: bool)
    requires FirstSeen(past, d, found)
    ensures FirstSeen(past + [e], d, found)
  {
    var run := past + [e];
    var k :| && 0 <= k < |past| && FirstStat(past, k) && past[k].op == Stat(Live(d))
             && (past[k].reply.Stats? <==> found);
    assert forall m :: 0 <= m <= k ==> run[m] == past[m];
    assert FirstStat(run, k);
  }

  lemma SeenNow(job: Job, l: Local, past: seq<Event>, e: Event, i: nat)
    requires job.WellFormed() && InBounds(job, l) && Allows(job, l, e.op) && Looked(job, l, past) && l.pc == AtStat(i)
    ensures FirstSeen(past + [e], job.files[i].abs, e.reply.Stats?)
  {
    FirstLook(job, l, past, e);
    assert (past + [e])[|past|] == e;
  }

  // Only the solo call compares after its stat, and only a found file.
  lemma ToIdem(env: Env, job: Job, l: Local, op: Op, r: Reply)
    requires job.WellFormed() && Sane(job, l) && Allows(job, l, op) && job.solo && Recv(env, job, l, op, r).pc.AtIdem?
    ensures l.pc == AtStat(0) && r.Stats? && Recv(env, job, l, op, r).info.Some?
  {
    StepOnward(env, job, l, op, r);
    if !Looking(l.pc) { NeverBack(job, l, Recv(env, job, l, op, r)); }
  }

  // What the step adds to the preps, if anything, is what was just seen.
  lemma SightingAdded(env: Env, job: Job, fs: Files, l: Local, past: seq<Event>, e: Event, l': Local)
    requires job.WellFormed() && Sane(job, l) && Allows(job, l, e.op) && Permitted(fs, e.op, e.reply)
    requires Looked(job, l, past) && Sightings(job, l, past) && l' == Recv(env, job, l, e.op, e.reply)
    requires |l.preps| < |l'.preps| && |l.preps| < job.N()
    ensures FirstSeen(past + [e], job.files[|l.preps|].abs, l'.preps[|l.preps|].hadOrig)
  {
    StepBooks(env, job, l, fs, e.op, e.reply);
    match l.pc
    case AtStat(i) => SeenNow(job, l, past, e, i);
    case AtIdem(i) =>
      assert |OnIdem(env, job, l, i, e.reply).preps| > |l.preps| ==> job.solo;
      FirstSeenExtends(past, e, job.files[0].abs, true);
  }

  lemma SightingsStep(env: Env, job: Job, fs: Files, l: Local, past: seq<Event>, e: Event, l': Local)
    requires job.WellFormed() && Sane(job, l) && Allows(job, l, e.op) && Permitted(fs, e.op, e.reply)
    requires Looked(job, l, past) && Sightings(job, l, past) && l' == Recv(env, job, l, e.op, e.reply)
    ensures Sightings(job, l', past + [e])
  {
    StepBooks(env, job, l, fs, e.op, e.reply);
    forall j | 0 <= j < |l'.preps| && j < job.N()
      ensures FirstSeen(past + [e], job.files[j].abs, l'.preps[j].hadOrig)
    {
      if j < |l.preps| {
        FirstSeenExtends(past, e, job.files[j].abs, l.preps[j].hadOrig);
      } else {
        SightingAdded(env, job, fs, l, past, e, l');
      }
    }
    if l'.pc.AtIdem? && job.solo {
      ToIdem(env, job, l, e.op, e.reply);
      SeenNow(job, l, past, e, 0);
    }
  }

  // ----- the copies -----

  // The k-th event copies the file f, bytes and permission bits, to d's backup b.
  predicate CopiesAt(run: seq<Event>, k: nat, d: string, b: nat, f: File) {
    k < |run| && run[k].op == WriteBackup(Backup(d, b), f.bytes, Perm(f.mode)) && run[k].reply.Made?
  }

  ghost predicate Copied(run: seq<Event>, d: string, b: nat, f: File) { exists k: nat :: CopiesAt(run, k, d, b, f) }

  // ... and a later event asks for f's owner and group on the copy.
  ghost predicate HandedOver(run: seq<Event>, d: string, b: nat, f: File) {
    exists k: nat, m :: CopiesAt(run, k, d, b, f) && k < m < |run| && run[m].op == Chown(Backup(d, b), f.uid, f.gid)
  }

  // The backup of destination j is a copy of the file there was.
  ghost predicate FiledAt(job: Job, fs0: Files, pc: PC, preps: seq<Prep>, run: seq<Event>, j: nat)
    requires j < job.N() && j < |preps| && preps[j].backup.Some?
  {
    var d, b := job.files[j].abs, preps[j].backup.value;
    && Live(d) in fs0
    && if pc == AtBackupChown(j) then Copied(run, d, b, fs0[Live(d)]) else HandedOver(run, d, b, fs0[Live(d)])
  }

  // While destination i is backed up, the call knows its mode and owner.
  predicate KnowsOld(job: Job, fs0: Files, l: Local) {
    l.pc.AtBackupWrite? || l.pc.AtBackupChown? ==>
      && l.pc.i < job.N() && Live(job.files[l.pc.i].abs) in fs0
      && l.info == Some(InfoOf(fs0[Live(job.files[l.pc.i].abs)]))
      && (l.pc.AtBackupChown? ==> l.pc.i < |l.preps| && l.preps[l.pc.i].backup == Some(l.stamp))
  }

  ghost predicate Filed(job: Job, fs0: Files, l: Local, run: seq<Event>) {
    && KnowsOld(job, fs0, l)
    && forall j :: 0 <= j < |l.preps| && j < job.N() && l.preps[j].backup.Some? ==>
         FiledAt(job, fs0, l.pc, l.preps, run, j)
  }

  lemma HandedExtends(past: seq<Event>, e: Event, d: string, b: nat, f: File)
    requires HandedOver(past, d, b, f)
    ensures HandedOver(past + [e], d, b, f)
  {
    var run := past + [e];
    var k: nat, m :| CopiesAt(past, k, d, b, f) && k < m < |past| && past[m].op == Chown(Backup(d, b), f.uid, f.gid);
    assert run[k] == past[k] && run[m] == past[m];
    assert CopiesAt(run, k, d, b, f);
  }

  lemma HandsOver(past: seq<Event>, e: Event, d: string, b: nat, f: File)
    requires Copied(past, d, b, f) && e.op == Chown(Backup(d, b), f.uid, f.gid)
    ensures HandedOver(past + [e], d, b, f)
  {
    var run := past + [e];
    var k: nat :| CopiesAt(past, k, d, b, f);
    assert run[k] == past[k] && run[|past|] == e;
    assert CopiesAt(run, k, d, b, f);
  }

  // The backup of destination i is written.
  lemma CopiesNow(env: Env, job: Job, fs0: Files, l: Local, fs: Files, past: seq<Event>, e: Event, i: nat)
    requires Step(env, job, fs0, l, fs, e.op, e.reply) && l.pc == AtBackupWrite(i) && Filed(job, fs0, l, past)
    requires e.reply.Made?
    ensures Copied(past + [e], job.files[i].abs, e.op.path.stamp, fs0[Live(job.files[i].abs)])
  {
    assert HasOld(job, fs0, l, i);
    assert (past + [e])[|past|] == e;
    assert CopiesAt(past + [e], |past|, job.files[i].abs, e.op.path.stamp, fs0[Live(job.files[i].abs)]);
  }

  predicate Copying(pc: PC) { pc.AtBackupWrite? || pc.AtBackupChown? }

  lemma TempNotCopying(env: Env, job: Job, l: Local, i: nat, stage: Stage, p: Path, r: Reply)
    requires i < |l.preps| && p.Temp?
    ensures !Copying(OnTemp(env, job, l, i, stage, p, r).pc) && !Copying(OnRestoreTemp(env, job, l, i, stage, p, r).pc)
  {
  }

  lemma LookNotCopying(env: Env, job: Job, l: Local, op: Op, r: Reply)
    requires InBounds(job, l) && Allows(job, l, op) && Looking(l.pc)
    ensures !Copying(Recv(env, job, l, op, r).pc)
  {
    match l.pc
    case AtCtx =>
    case AtIdem(i) => assert !Copying(Resolved(env, job, l, i, l.info).pc);
    case AtStat(i) =>
      var info := if r.Stats? then Some(r.info) else None;
      assert !Copying(Resolved(env, job, l.(info := info), i, info).pc);
  }

  lemma MidNotCopying(env: Env, job: Job, l: Local, op: Op, r: Reply)
    requires InBounds(job, l) && Allows(job, l, op)
    requires l.pc.AtPre? || l.pc.AtRename? || l.pc.AtPost? || l.pc.AtPost2?
    ensures !Copying(Recv(env, job, l, op, r).pc)
  {
  }

  lemma RestoredNotCopying(job: Job, l: Local, i: nat, failed: bool)
    ensures !Copying(Restored(job, l, i, failed).pc)
  {
  }

  lemma RestoreNotCopying(job: Job, l: Local, i: nat, r: Reply)
    requires i < |l.preps|
    ensures !Copying(OnRestore(job, l, i, r).pc) && !Copying(OnRestoreRename(job, l, i, r).pc)
  {
    RestoredNotCopying(job, l, i, true);
    RestoredNotCopying(job, l, i, r.Err?);
    RestoredNotCopying(job, l, i, false);
  }

  lemma LateNotCopying(env: Env, job: Job, l: Local, op: Op, r: Reply)
    requires InBounds(job, l) && Allows(job, l, op) && (l.pc.AtPruneList? || l.pc.AtPruneRemove? || l.pc.AtCleanTemps?)
    ensures !Copying(Recv(env, job, l, op, r).pc)
  {
  }

  // A copy is written after a stat and handed over after it was written.
  lemma ToCopying(env: Env, job: Job, l: Local, op: Op, r: Reply)
    requires InBounds(job, l) && Allows(job, l, op) && !BackingUp(l.pc)
    ensures !Copying(Recv(env, job, l, op, r).pc)
  {
    match l.pc
    case AtTemp(i, stage) => TempNotCopying(env, job, l, i, stage, StagePath(job, l, i, stage, op), r);
    case AtRestoreTemp(i, stage) => TempNotCopying(env, job, l, i, stage, StagePath(job, l, i, stage, op), r);
    case AtRestore(i) => RestoreNotCopying(job, l, i, r);
    case AtRestoreRename(i) => RestoreNotCopying(job, l, i, r);
    case AtCtx => LookNotCopying(env, job, l, op, r);
    case AtIdem(_) => LookNotCopying(env, job, l, op, r);
    case AtStat(_) => LookNotCopying(env, job, l, op, r);
    case AtPruneList(_) => LateNotCopying(env, job, l, op, r);
    case AtPruneRemove(_, _) => LateNotCopying(env, job, l, op, r);
    case AtCleanTemps(_, _) => LateNotCopying(env, job, l, op, r);
    case _ => MidNotCopying(env, job, l, op, r);
  }

  lemma KnowsSaved(env: Env, job: Job, fs0: Files, l: Local, fs: Files, op: Op, r: Reply)
    requires Step(env, job, fs0, l, fs, op, r) && BackingUp(l.pc) && KnowsOld(job, fs0, l)
    ensures KnowsOld(job, fs0, Recv(env, job, l, op, r))
  {
    match l.pc
    case AtBackupStat(i) => KnowsLooked(env, job, fs0, l, fs, op, r, i);
    case AtBackupRead(i) => assert !Copying(OnBackupRead(job, l, i, r).pc);
    case AtBackupChown(i) => assert !Copying(AfterBackup(job, l, i).pc);
    case AtBackupCleanup(i) => assert !Copying(OnBackupCleanup(job, l, i).pc);
    case AtBackupWrite(i) =>
  }

  lemma KnowsLooked(env: Env, job: Job, fs0: Files, l: Local, fs: Files, op: Op, r: Reply, i: nat)
    requires Step(env, job, fs0, l, fs, op, r) && l.pc == AtBackupStat(i)
    ensures KnowsOld(job, fs0, OnBackupStat(job, l, i, r))
  {
    assert HasOld(job, fs0, l, i);
    assert LiveAt(env, job, fs0, l, fs, i);
  }

  lemma KnowsStep(env: Env, job: Job, fs0: Files, l: Local, fs: Files, op: Op, r: Reply)
    requires Step(env, job, fs0, l, fs, op, r) && KnowsOld(job, fs0, l)
    ensures KnowsOld(job, fs0, Recv(env, job, l, op, r))
  {
    if BackingUp(l.pc) { KnowsSaved(env, job, fs0, l, fs, op, r); } else { ToCopying(env, job, l, op, r); }
  }

  // A backup remembered before the step is still that copy.
  lemma FiledStays(job: Job, fs0: Files, l: Local, past: seq<Event>, e: Event, l': Local, j: nat)
    requires InBounds(job, l) && Allows(job, l, e.op) && Filed(job, fs0, l, past) && l'.pc != AtBackupChown(j)
    requires j < job.N() && j < |l.preps| && j < |l'.preps| && l.preps[j].backup.Some?
    requires l'.preps[j].backup == l.preps[j].backup
    ensures FiledAt(job, fs0, l'.pc, l'.preps, past + [e], j)
  {
    var d, b := job.files[j].abs, l.preps[j].backup.value;
    assert FiledAt(job, fs0, l.pc, l.preps, past, j);
    if l.pc == AtBackupChown(j) {
      HandsOver(past, e, d, b, fs0[Live(d)]);
    } else {
      HandedExtends(past, e, d, b, fs0[Live(d)]);
    }
  }

  lemma FiledWrite(env: Env, job: Job, fs0: Files, l: Local, fs: Files, past: seq<Event>, e: Event, l': Local, i: nat,
                   j: nat)
    requires Step(env, job, fs0, l, fs, e.op, e.reply) && l.pc == AtBackupWrite(i) && Filed(job, fs0, l, past)
    requires l' == Recv(env, job, l, e.op, e.reply) && j < job.N() && j < |l'.preps| && l'.preps[j].backup.Some?
    ensures FiledAt(job, fs0, l'.pc, l'.preps, past + [e], j)
  {
    if e.reply.Made? && j == i {
      CopiesNow(env, job, fs0, l, fs, past, e, i);
    } else {
      FiledStays(job, fs0, l, past, e, l', j);
    }
  }

  lemma FiledStep(env: Env, job: Job, fs0: Files, l: Local, fs: Files, past: seq<Event>, e: Event, l': Local)
    requires Step(env, job, fs0, l, fs, e.op, e.reply) && Filed(job, fs0, l, past)
    requires l' == Recv(env, job, l, e.op, e.reply)
    ensures Filed(job, fs0, l', past + [e])
  {
    KnowsStep(env, job, fs0, l, fs, e.op, e.reply);
    if !l.pc.AtBackupWrite? {
      StepTakesNone(env, job, l, e.op, e.reply);
      if !BackingUp(l.pc) { ToCopying(env, job, l, e.op, e.reply); }
    }
    forall j | 0 <= j < |l'.preps| && j < job.N() && l'.preps[j].backup.Some?
      ensures FiledAt(job, fs0, l'.pc, l'.preps, past + [e], j)
    {
      if l.pc.AtBackupWrite? {
        FiledWrite(env, job, fs0, l, fs, past, e, l', l.pc.i, j);
      } else {
        FiledStays(job, fs0, l, past, e, l', j);
      }
    }
  }

  // ----- whole runs -----

  lemma {:induction false} RunSightings(env: Env, job: Job, fs0: Files, run: seq<Event>, l: Local, fs: Files)
    requires job.WellFormed() && Reaches(env, job, fs0, run, l, fs)
    ensures Sightings(job, l, run)
  {
    if run != [] {
      var past, e := run[..|run| - 1], run[|run| - 1];
      assert run == past + [e];
      var m := LastStep(env, job, fs0, run, l, fs);
      RunSightings(env, job, fs0, past, m.l, m.fs);
      RunSane(env, job, fs0, past, m.l, m.fs);
      RunLooked(env, job, fs0, past, m.l, m.fs);
      SightingsStep(env, job, m.fs, m.l, past, e, l);
    }
  }

  lemma {:induction false} RunFiled(env: Env, job: Job, fs0: Files, run: seq<Event>, l: Local, fs: Files)
    requires job.WellFormed() && Reaches(env, job, fs0, run, l, fs)
    ensures Filed(job, fs0, l, run)
  {
    if run != [] {
      var past, e := run[..|run| - 1], run[|run| - 1];
      assert run == past + [e];
      var m := LastStep(env, job, fs0, run, l, fs);
      RunFiled(env, job, fs0, past, m.l, m.fs);
      RunKeepsInvariant(env, job, fs0, past, m.l, m.fs);
      FiledStep(env, job, fs0, m.l, m.fs, past, e, l);
    }
  }

  // In every state of every run: what the call remembers of a destination is what
  // its first stat said, and every backup it names is one it wrote with the bytes
  // and permission bits of the file there was and then asked to be given its owner.
  lemma RunRecords(env: Env, job: Job, fs0: Files, run: seq<Event>, l: Local, fs: Files, j: nat)
    requires job.WellFormed() && Reaches(env, job, fs0, run, l, fs) && j < job.N() && j < |l.preps|
    ensures FirstSeen(run, job.files[j].abs, l.preps[j].hadOrig)
    ensures l.preps[j].backup.Some? ==> FiledAt(job, fs0, l.pc, l.preps, run, j)
  {
    RunSightings(env, job, fs0, run, l, fs);
    RunFiled(env, job, fs0, run, l, fs);
  }

  // ----- backups of a call that gives up before its first temp -----

  predicate NoOpen(run: seq<Event>) { forall k :: 0 <= k < |run| ==> !run[k].op.Open? }

  // Backups are written whole or not at all, and can be removed.
  predicate BackupsClean(run: seq<Event>) {
    forall k :: 0 <= k < |run| ==>
      && (run[k].op.WriteBackup? ==> !run[k].reply.Torn?)
      && (run[k].op.Remove? && run[k].op.path.Backup? ==> !run[k].reply.Err?)
  }

  predicate StillEarly(pc: PC) {
    Looking(pc) || BackingUp(pc) || pc == AtTemp(0, SOpen) || pc == AtEnd(Aborted) || pc == AtEnd(Skipped)
  }

  // p is a backup the call names.
  ghost predicate NamedBackup(job: Job, preps: seq<Prep>, p: Path) {
    exists j :: && 0 <= j < |preps| && j < job.N() && preps[j].backup.Some?
                && p == Backup(job.files[j].abs, preps[j].backup.value)
  }

  ghost predicate NewNamed(job: Job, fs0: Files, preps: seq<Prep>, fs: Files) {
    forall p :: p in fs && p.Backup? && p !in fs0 ==> NamedBackup(job, preps, p)
  }

  ghost predicate Tidied(job: Job, fs0: Files, l: Local, fs: Files) {
    && StillEarly(l.pc) && NewNamed(job, fs0, l.preps, fs)
    && (l.pc.AtBackupCleanup? ==> forall j :: 0 <= j < l.pc.i && j < |l.preps| ==> l.preps[j].backup.None?)
    && (l.pc == AtEnd(Aborted) ==> NoBackups(l, 0))
  }

  // A step that makes and removes no backup and forgets none.
  lemma NamedStays(job: Job, fs0: Files, preps: seq<Prep>, fs: Files, preps': seq<Prep>, fs': Files)
    requires NewNamed(job, fs0, preps, fs) && |preps| <= |preps'| && fs'.Keys <= fs.Keys
    requires forall j :: 0 <= j < |preps| ==> preps'[j].backup == preps[j].backup
    ensures NewNamed(job, fs0, preps', fs')
  {
    forall p | p in fs' && p.Backup? && p !in fs0
      ensures NamedBackup(job, preps', p)
    {
      var j :| && 0 <= j < |preps| && j < job.N() && preps[j].backup.Some?
               && p == Backup(job.files[j].abs, preps[j].backup.value);
      assert preps'[j].backup == preps[j].backup;
    }
  }

  lemma ResolvedTidies(env: Env, job: Job, l: Local, i: nat, info: Option<Info>)
    requires i < job.N() && !job.solo && NoBackups(l, 0)
    ensures var l' := Resolved(env, job, l, i, info);
            && StillEarly(l'.pc) && !l'.pc.AtBackupCleanup? && NoBackups(l', 0) && |l.preps| <= |l'.preps|
            && forall j :: 0 <= j < |l.preps| ==> l'.preps[j].backup == l.preps[j].backup
  {
  }

  lemma LookTidies(env: Env, job: Job, fs0: Files, l: Local, fs: Files, op: Op, r: Reply)
    requires Step(env, job, fs0, l, fs, op, r) && !job.solo && Looking(l.pc) && Tidied(job, fs0, l, fs)
    ensures Tidied(job, fs0, Recv(env, job, l, op, r), Effect(env, fs, op, r))
  {
    var l' := Recv(env, job, l, op, r);
    match l.pc {
      case AtStat(i) =>
        var info := if r.Stats? then Some(r.info) else None;
        ResolvedTidies(env, job, l.(info := info), i, info);
      case _ =>
    }
    NamedStays(job, fs0, l.preps, fs, l'.preps, Effect(env, fs, op, r));
  }

  lemma SaveTidies(env: Env, job: Job, fs0: Files, l: Local, fs: Files, op: Op, r: Reply)
    requires Step(env, job, fs0, l, fs, op, r) && !job.solo && Tidied(job, fs0, l, fs)
    requires l.pc.AtBackupRead? || l.pc.AtBackupStat? || l.pc.AtBackupChown?
    ensures Tidied(job, fs0, Recv(env, job, l, op, r), Effect(env, fs, op, r))
  {
    NamedStays(job, fs0, l.preps, fs, Recv(env, job, l, op, r).preps, Effect(env, fs, op, r));
  }

  lemma WriteTidies(env: Env, job: Job, fs0: Files, l: Local, fs: Files, op: Op, r: Reply, i: nat)
    requires Step(env, job, fs0, l, fs, op, r) && !job.solo && Tidied(job, fs0, l, fs) && l.pc == AtBackupWrite(i)
    requires !r.Torn?
    ensures Tidied(job, fs0, Recv(env, job, l, op, r), Effect(env, fs, op, r))
  {
    var preps', fs' := Recv(env, job, l, op, r).preps, Effect(env, fs, op, r);
    forall p | p in fs' && p.Backup? && p !in fs0
      ensures NamedBackup(job, preps', p)
    {
      if r.Made? && p == op.path {
        assert preps'[i].backup == Some(op.path.stamp);
      } else {
        var j :| && 0 <= j < |l.preps| && j < job.N() && l.preps[j].backup.Some?
                 && p == Backup(job.files[j].abs, l.preps[j].backup.value);
        assert preps'[j] == l.preps[j];
      }
    }
  }

  lemma CleanupTidies(env: Env, job: Job, fs0: Files, l: Local, fs: Files, op: Op, r: Reply, i: nat)
    requires Step(env, job, fs0, l, fs, op, r) && !job.solo && Tidied(job, fs0, l, fs) && l.pc == AtBackupCleanup(i)
    requires op.Remove? ==> !r.Err?
    ensures Tidied(job, fs0, Recv(env, job, l, op, r), Effect(env, fs, op, r))
  {
    var preps', fs' := Recv(env, job, l, op, r).preps, Effect(env, fs, op, r);
    forall p | p in fs' && p.Backup? && p !in fs0
      ensures NamedBackup(job, preps', p)
    {
      var j :| && 0 <= j < |l.preps| && j < job.N() && l.preps[j].backup.Some?
               && p == Backup(job.files[j].abs, l.preps[j].backup.value);
      assert j != i && preps'[j] == l.preps[j];
    }
  }

  lemma StepTidies(env: Env, job: Job, fs0: Files, l: Local, fs: Files, op: Op, r: Reply)
    requires Step(env, job, fs0, l, fs, op, r) && !job.solo && Tidied(job, fs0, l, fs) && !op.Open?
    requires op.WriteBackup? ==> !r.Torn?
    requires op.Remove? && op.path.Backup? ==> !r.Err?
    ensures Tidied(job, fs0, Recv(env, job, l, op, r), Effect(env, fs, op, r))
  {
    if Looking(l.pc) {
      LookTidies(env, job, fs0, l, fs, op, r);
    } else if l.pc.AtBackupWrite? {
      WriteTidies(env, job, fs0, l, fs, op, r, l.pc.i);
    } else if l.pc.AtBackupCleanup? {
      CleanupTidies(env, job, fs0, l, fs, op, r, l.pc.i);
    } else {
      SaveTidies(env, job, fs0, l, fs, op, r);
    }
  }

  lemma {:induction false} RunTidies(env: Env, job: Job, fs0: Files, run: seq<Event>, l: Local, fs: Files)
    requires job.WellFormed() && Reaches(env, job, fs0, run, l, fs) && !job.solo && NoOpen(run) && BackupsClean(run)
    ensures Tidied(job, fs0, l, fs)
  {
    if run != [] {
      var past, e := run[..|run| - 1], run[|run| - 1];
      assert forall k :: 0 <= k < |past| ==> past[k] == run[k];
      var m := LastStep(env, job, fs0, run, l, fs);
      RunTidies(env, job, fs0, past, m.l, m.fs);
      RunKeepsInvariant(env, job, fs0, past, m.l, m.fs);
      StepTidies(env, job, fs0, m.l, m.fs, e.op, e.reply);
    }
  }

  // If a backup fails, Apply gives up and leaves no backup of its own: with
  // backups written whole or not at all, and removable, a call that aborts before
  // its first temp leaves no file there was not before, and no destination changed.
  lemma FailedBackupLeavesNothing(env: Env, job: Job, fs0: Files, run: seq<Event>, l: Local, fs: Files, p: Path)
    requires job.WellFormed() && Reaches(env, job, fs0, run, l, fs) && !job.solo && NoOpen(run) && BackupsClean(run)
    requires l.pc == AtEnd(Aborted) && p in fs && !p.Temp?
    ensures p in fs0 && (p.Live? ==> fs[p] == fs0[p])
  {
    RunTidies(env, job, fs0, run, l, fs);
    RunKeepsInvariant(env, job, fs0, run, l, fs);
    if p.Live? {
      if job.IsDest(p.of) {
        var j :| 0 <= j < job.N() && job.files[j].abs == p.of;
        assert LiveAt(env, job, fs0, l, fs, j);
      } else {
        assert FrameAt(job, fs0, l, fs, p);
      }
    }
  }
}
