/** How each part of the invariant is carried over a step. */
module Carry {
  import opened Common
  import opened FileSystem
  import opened Protocol
  import opened Invariant

  // ----- each part of the invariant, carried from (l, fs) to (l', fs') -----

  lemma FrameKeep(job: Job, fs0: Files, l: Local, fs: Files, l': Local, fs': Files, t: set<Path>)
    requires FrameInv(job, fs0, l, fs) && Outside(fs, fs', t) && (Janitored(l.pc) ==> Janitored(l'.pc))
    requires forall p :: p in t ==> job.IsDest(p.of)
    ensures FrameInv(job, fs0, l', fs')
  {
    forall p: Path | !job.IsDest(p.of)
      ensures FrameAt(job, fs0, l', fs', p)
    {
      assert FrameAt(job, fs0, l, fs, p);
      assert SameAt(fs, fs', p);
    }
  }

  predicate SameOwners(l: Local, l': Local) {
    && |l.preps| == |l'.preps|
    && forall j :: 0 <= j < |l.preps| ==> l'.preps[j] == l.preps[j].(temp := l'.preps[j].temp)
  }

  lemma LiveKeep(env: Env, job: Job, fs0: Files, l: Local, fs: Files, l': Local, fs': Files, t: set<Path>)
    requires LiveInv(env, job, fs0, l, fs) && Outside(fs, fs', t)
    requires l'.done == l.done && l'.undone == l.undone && l'.firstErr == l.firstErr
    requires l.done > 0 ==> SameOwners(l, l')
    requires forall p :: p in t ==> !p.Live? || !job.IsDest(p.of)
    ensures LiveInv(env, job, fs0, l', fs')
  {
    forall j | 0 <= j < job.N()
      ensures LiveAt(env, job, fs0, l', fs', j)
    {
      assert LiveAt(env, job, fs0, l, fs, j);
      assert job.IsDest(job.files[j].abs) && SameAt(fs, fs', Live(job.files[j].abs));
    }
  }

  lemma HoldKeep(job: Job, fs0: Files, l: Local, fs: Files, l': Local, fs': Files, t: set<Path>)
    requires HoldInv(job, fs0, l, fs) && Outside(fs, fs', t)
    requires Tidy(l'.pc) ==> Tidy(l.pc)
    requires l'.swept == l.swept && (SweptTo(job, l.pc) == SweptTo(job, l'.pc) || job.Keep() <= 0)
    requires !l.pc.AtPruneRemove? && !l'.pc.AtPruneRemove?
    requires forall j: nat :: Own(l, j) == Own(l', j)
    requires forall p :: p in t ==> !p.Backup?
    ensures HoldInv(job, fs0, l', fs')
  {
    if Tidy(l'.pc) {
      forall j | 0 <= j < job.N()
        ensures Holding(job, fs0, l', fs', j, Must(job, fs0, l', j), Exact(job, fs0, l', j))
      {
        assert Holding(job, fs0, l, fs, j, Must(job, fs0, l, j), Exact(job, fs0, l, j));
        assert Own(l, j) == Own(l', j);
        forall b: nat
          ensures SameAt(fs, fs', Backup(job.files[j].abs, b))
        {
        }
      }
    }
  }

  lemma ReadyKeep(env: Env, job: Job, l: Local, fs: Files, l': Local, fs': Files, t: set<Path>)
    requires ReadyInv(env, job, l, fs) && Outside(fs, fs', t)
    requires ReadyTo(job, l'.pc) <= ReadyTo(job, l.pc) && l.done <= l'.done
    requires ReadyTo(job, l'.pc) > 0 ==> |l.preps| == |l'.preps|
    requires forall j :: l'.done <= j < ReadyTo(job, l'.pc) && j < |l.preps| && j < |l'.preps| ==>
               && l'.preps[j].temp == l.preps[j].temp && l'.preps[j].owner == l.preps[j].owner
               && (l.preps[j].temp.Some? && j < job.N() ==> Temp(job.files[j].abs, l.preps[j].temp.value) !in t)
    ensures ReadyInv(env, job, l', fs')
  {
    forall j | l'.done <= j < ReadyTo(job, l'.pc)
      ensures IsReady(env, job, l', fs', j)
    {
      assert IsReady(env, job, l, fs, j);
      assert SameAt(fs, fs', Temp(job.files[j].abs, l.preps[j].temp.value));
    }
  }

  lemma LeftKeep(job: Job, fs0: Files, l: Local, fs: Files, l': Local, fs': Files, t: set<Path>)
    requires LeftInv(job, fs0, l, fs) && Outside(fs, fs', t)
    requires l.stuck <= l'.stuck
    requires forall j: nat, s: nat :: j < job.N() && MayRemain(job, l, j, s) ==>
               MayRemain(job, l', j, s) || Temp(job.files[j].abs, s) !in fs' || Temp(job.files[j].abs, s) in l'.stuck
    requires forall j: nat, s: nat :: j < job.N() && Temp(job.files[j].abs, s) in t ==>
               || MayRemain(job, l', j, s) || Temp(job.files[j].abs, s) !in fs' || Temp(job.files[j].abs, s) in l'.stuck
    ensures LeftInv(job, fs0, l', fs')
  {
    forall j, s: nat | 0 <= j < job.N()
      ensures Accounted(job, fs0, l', fs', j, s)
    {
      assert Accounted(job, fs0, l, fs, j, s);
      var p := Temp(job.files[j].abs, s);
      if p !in t { assert SameAt(fs, fs', p); }
    }
  }

  predicate BackupsDone(job: Job, l: Local, from: nat, to: nat) {
    forall j :: from <= j < to && j < |l.preps| ==>
      (l.preps[j].backup.Some? <==> l.preps[j].hadOrig && job.retention != -1)
  }

  lemma PrepKeep(env: Env, job: Job, fs0: Files, l: Local, l': Local)
    requires PrepInv(env, job, fs0, l)
    requires SameOwners(l, l') && BackupsDone(job, l, BackedUp(job, l), BackedUp(job, l'))
    ensures PrepInv(env, job, fs0, l')
  {
    forall j | 0 <= j < |l'.preps|
      ensures PrepAt(env, job, fs0, l', j)
    {
      assert PrepAt(env, job, fs0, l, j);
    }
  }

  // ----- steps that change no file and no prep -----

  ghost predicate Quiet(job: Job, l: Local, l': Local) {
    && l'.preps == l.preps && l'.done == l.done && l'.undone == l.undone
    && l'.firstErr == l.firstErr && l'.stuck == l.stuck && l'.swept == l.swept
    && (Tidy(l'.pc) ==> Tidy(l.pc)) && (SweptTo(job, l.pc) == SweptTo(job, l'.pc) || job.Keep() <= 0)
    && (Janitored(l.pc) ==> Janitored(l'.pc))
    && !l.pc.AtPruneRemove? && !l'.pc.AtPruneRemove?
    && ReadyTo(job, l'.pc) <= ReadyTo(job, l.pc) && BackupsDone(job, l, BackedUp(job, l), BackedUp(job, l'))
    && (forall j: nat, s: nat :: j < job.N() && MayRemain(job, l, j, s) ==> MayRemain(job, l', j, s))
  }

  lemma QuietStep(env: Env, job: Job, fs0: Files, l: Local, fs: Files, l': Local)
    requires Rest(env, job, fs0, l, fs) && Quiet(job, l, l')
    ensures Rest(env, job, fs0, l', fs)
  {
    PrepKeep(env, job, fs0, l, l');
    LiveKeep(env, job, fs0, l, fs, l', fs, {});
    HoldKeep(job, fs0, l, fs, l', fs, {});
    ReadyKeep(env, job, l, fs, l', fs, {});
    LeftKeep(job, fs0, l, fs, l', fs, {});
    FrameKeep(job, fs0, l, fs, l', fs, {});
  }

  lemma BackupRest(env: Env, job: Job, fs0: Files, l: Local, fs: Files, l': Local, fs': Files, p: Path)
    requires Rest(env, job, fs0, l, fs) && Outside(fs, fs', {p}) && p.Backup? && job.IsDest(p.of)
    requires Early(l) && Early(l') && l'.stuck == l.stuck && !Janitored(l.pc)
    requires ReadyTo(job, l'.pc) <= ReadyTo(job, l.pc) && |l.preps| == |l'.preps|
    requires forall j :: 0 <= j < |l.preps| ==> l'.preps[j] == l.preps[j].(backup := l'.preps[j].backup)
    requires (CleanedTo(job, l'.pc) == 0 || NoTemps(l, 0)) && (forall j: nat :: !InFlight(l.pc, j))
    ensures LiveInv(env, job, fs0, l', fs') && ReadyInv(env, job, l', fs')
    ensures LeftInv(job, fs0, l', fs') && FrameInv(job, fs0, l', fs')
  {
    LiveKeep(env, job, fs0, l, fs, l', fs', {p});
    ReadyKeep(env, job, l, fs, l', fs', {p});
    LeftKeep(job, fs0, l, fs, l', fs', {p});
    FrameKeep(job, fs0, l, fs, l', fs', {p});
  }

  lemma HoldTaken(job: Job, fs0: Files, l: Local, fs: Files, l': Local, fs': Files, i: nat, b: nat)
    requires job.WellFormed() && i < job.N() && HoldInv(job, fs0, l, fs) && Tidy(l.pc)
    requires SweptTo(job, l.pc) == SweptTo(job, l'.pc) == 0 && !l.pc.AtPruneRemove? && !l'.pc.AtPruneRemove?
    requires Outside(fs, fs', {Backup(job.files[i].abs, b)}) && l'.swept == l.swept
    requires Own(l', i) == Some(b) && (Own(l, i).None? || Own(l, i) == Some(b))
    requires forall j: nat :: j != i ==> Own(l', j) == Own(l, j)
    requires Backup(job.files[i].abs, b) in fs' && KeptFile(job, fs0, l', i, b, fs'[Backup(job.files[i].abs, b)])
    ensures HoldInv(job, fs0, l', fs')
  {
    forall j | 0 <= j < job.N()
      ensures Holding(job, fs0, l', fs', j, Must(job, fs0, l', j), Exact(job, fs0, l', j))
    {
      assert Holding(job, fs0, l, fs, j, Must(job, fs0, l, j), Exact(job, fs0, l, j));
      var d := job.files[j].abs;
      forall c: nat
        ensures Backup(d, c) != Backup(job.files[i].abs, b) ==> SameAt(fs, fs', Backup(d, c))
      {
      }
      assert j != i ==> d != job.files[i].abs && Own(l', j) == Own(l, j);
    }
  }

  // A step that touches one temp of destination i and no other file.
  lemma TempRest(env: Env, job: Job, fs0: Files, l: Local, fs: Files, l': Local, fs': Files, i: nat, s: nat)
    requires job.WellFormed() && i < job.N() && Rest(env, job, fs0, l, fs)
    requires Outside(fs, fs', {Temp(job.files[i].abs, s)})
    requires SameOwners(l, l') && l'.done == l.done && l'.undone == l.undone && l'.firstErr == l.firstErr
    requires l'.swept == l.swept && (Tidy(l'.pc) ==> Tidy(l.pc)) && SweptTo(job, l.pc) == SweptTo(job, l'.pc)
    requires Janitored(l.pc) ==> Janitored(l'.pc)
    requires !l.pc.AtPruneRemove? && !l'.pc.AtPruneRemove? && BackedUp(job, l') <= BackedUp(job, l)
    requires ReadyTo(job, l'.pc) <= ReadyTo(job, l.pc) && (ReadyTo(job, l'.pc) <= i || l'.done > i)
    requires forall j :: 0 <= j < |l.preps| && j != i ==> l'.preps[j] == l.preps[j]
    requires l.stuck <= l'.stuck
    requires forall j: nat, t: nat :: j < job.N() && MayRemain(job, l, j, t) ==>
               || MayRemain(job, l', j, t) || (j == i && t == s)
    requires MayRemain(job, l', i, s) || Temp(job.files[i].abs, s) !in fs' || Temp(job.files[i].abs, s) in l'.stuck
    ensures Rest(env, job, fs0, l', fs')
  {
    var t := {Temp(job.files[i].abs, s)};
    PrepKeep(env, job, fs0, l, l');
    LiveKeep(env, job, fs0, l, fs, l', fs', t);
    HoldKeep(job, fs0, l, fs, l', fs', t);
    ReadyKeep(env, job, l, fs, l', fs', t);
    LeftKeep(job, fs0, l, fs, l', fs', t);
    FrameKeep(job, fs0, l, fs, l', fs', t);
  }

  // Destination i has been settled, no other destination has changed.
  lemma SettleLive(env: Env, job: Job, fs0: Files, l: Local, fs: Files, l': Local, fs': Files, i: nat)
    requires job.WellFormed() && i < job.N() && LiveInv(env, job, fs0, l, fs)
    requires forall j :: 0 <= j < job.N() && j != i ==> SameAt(fs, fs', Live(job.files[j].abs))
    requires l'.preps == l.preps && |l.preps| == job.N() && i < l'.done <= job.N()
    requires l'.done == l.done || (l.done == i && l'.done == i + 1)
    requires l'.undone == l.undone || (l.undone == i && l'.undone == i + 1)
    requires l'.undone <= l'.done && (l.firstErr ==> l'.firstErr) && LiveAt(env, job, fs0, l', fs', i)
    ensures LiveInv(env, job, fs0, l', fs')
  {
    forall j | 0 <= j < job.N()
      ensures LiveAt(env, job, fs0, l', fs', j)
    {
      assert LiveAt(env, job, fs0, l, fs, j);
    }
  }

  // A step that settles destination i: it may also consume temps of i.
  lemma SettleRest(env: Env, job: Job, fs0: Files, l: Local, fs: Files, l': Local, fs': Files, i: nat, t: set<Path>)
    requires job.WellFormed() && i < job.N() && Rest(env, job, fs0, l, fs) && Outside(fs, fs', t)
    requires forall p :: p in t ==> p == Live(job.files[i].abs) || (p.Temp? && p.of == job.files[i].abs && p !in fs')
    requires l'.preps == l.preps && |l.preps| == job.N()
    requires l'.swept == l.swept && l'.stuck == l.stuck && !Janitored(l.pc)
    requires (Tidy(l'.pc) ==> Tidy(l.pc)) && (SweptTo(job, l.pc) == SweptTo(job, l'.pc) || job.Keep() <= 0)
    requires !l.pc.AtPruneRemove? && !l'.pc.AtPruneRemove? && BackedUp(job, l') <= BackedUp(job, l)
    requires ReadyTo(job, l'.pc) <= ReadyTo(job, l.pc) && i < l'.done <= job.N()
    requires l'.done == l.done || (l.done == i && l'.done == i + 1)
    requires l'.undone == l.undone || (l.undone == i && l'.undone == i + 1)
    requires l'.undone <= l'.done && (l.firstErr ==> l'.firstErr) && LiveAt(env, job, fs0, l', fs', i)
    requires forall j: nat, s: nat :: j < job.N() && MayRemain(job, l, j, s) ==>
               MayRemain(job, l', j, s) || Temp(job.files[j].abs, s) !in fs' || Temp(job.files[j].abs, s) in l'.stuck
    ensures Rest(env, job, fs0, l', fs')
  {
    PrepKeep(env, job, fs0, l, l');
    SettleLive(env, job, fs0, l, fs, l', fs', i);
    HoldKeep(job, fs0, l, fs, l', fs', t);
    ReadyKeep(env, job, l, fs, l', fs', t);
    LeftKeep(job, fs0, l, fs, l', fs', t);
    assert forall p :: p in t ==> p.of == job.files[i].abs && job.IsDest(p.of);
    FrameKeep(job, fs0, l, fs, l', fs', t);
  }

  // Where a call can be once destination i has been dealt with.
  lemma RestoredFacts(job: Job, l: Local, i: nat, failed: bool)
    requires RestoreInv(job, l, i) && l.done <= job.N()
    requires l.pc.AtRestore? || l.pc.AtRestoreTemp? || l.pc.AtRestoreRename?
    ensures var l' := Restored(job, l, i, failed);
            && l' == l.(pc := l'.pc, undone := i + 1, firstErr := l.firstErr || failed)
            && Tidy(l'.pc) && Tidy(l.pc) && SweptTo(job, l.pc) == SweptTo(job, l'.pc) == 0
            && !l'.pc.AtPruneRemove? && BackedUp(job, l') == BackedUp(job, l) == job.N()
            && ReadyTo(job, l'.pc) == ReadyTo(job, l.pc) == 0 && i + 1 <= l.done
            && (CleanedTo(job, l'.pc) == 0 || l.done == job.N())
            && forall j: nat :: !InFlight(l'.pc, j)
  {
  }

  lemma RestoredRest(env: Env, job: Job, fs0: Files, l: Local, fs: Files, fs': Files, i: nat, failed: bool,
                     t: set<Path>)
    requires job.WellFormed() && Rest(env, job, fs0, l, fs) && RestoreInv(job, l, i) && |l.preps| == job.N()
    requires l.pc.AtRestore? || l.pc.AtRestoreTemp? || l.pc.AtRestoreRename?
    requires Outside(fs, fs', t)
    requires forall p :: p in t ==> p == Live(job.files[i].abs) || (p.Temp? && p.of == job.files[i].abs && p !in fs')
    requires IsBack(env, job, fs0, l, fs', i) || (failed && t == {})
    requires forall j: nat :: j < job.N() && InFlight(l.pc, j) ==>
               Temp(job.files[j].abs, l.stamp) !in fs' || Temp(job.files[j].abs, l.stamp) in l.stuck
    ensures Rest(env, job, fs0, Restored(job, l, i, failed), fs')
  {
    RestoredFacts(job, l, i, failed);
    assert LiveAt(env, job, fs0, l, fs, i);
    assert t == {} ==> SameAt(fs, fs', Live(job.files[i].abs));
    SettleRest(env, job, fs0, l, fs, Restored(job, l, i, failed), fs', i, t);
  }
}
