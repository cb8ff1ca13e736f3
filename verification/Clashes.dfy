/**
 Two concurrent calls, one on d and one on d.certctl-bak. The janitor of the
 first takes the temp of the second for a backup of d, though it does not hold
 that lock, and no order of the two calls explains what the second sees.
 */
module Clashes {
  import opened Common
  import opened FileSystem
  import opened Ownership
  import opened Retention
  import opened Protocol
  import opened Names
  import opened Order
  import opened Runs
  import opened Safety
  import opened Events
  import opened Guarantees
  import opened Scenes
  import opened Limits
  import opened Commuting
  import opened Locks
  import opened Interleaving

  // ----- plays -----

  ghost predicate Plays(env: Env, s0: Sys, s: Sys) { exists acts :: Play(env, s0, acts) == Some(s) }

  lemma Acts(env: Env, s0: Sys, s: Sys, a: Act)
    requires Plays(env, s0, s) && Enabled(s, a)
    ensures Plays(env, s0, Do(env, s, a))
  {
    var acts :| Play(env, s0, acts) == Some(s);
    assert (acts + [a])[..|acts|] == acts;
    assert Play(env, s0, acts + [a]) == Some(Do(env, s, a));
  }

  // The call at p has made this run.
  ghost function Having(s: Sys, p: nat, run: seq<Event>, l: Local, fs: Files): Sys
    requires p < |s.procs|
  {
    var ph := if l.pc.AtEnd? then Releasing(|s.procs[p].order|, l) else Running(l);
    s.(procs := s.procs[p := s.procs[p].(trace := run, phase := ph)], fs := fs)
  }

  lemma HavingNothing(s: Sys, p: nat)
    requires p < |s.procs| && s.procs[p].phase == Running(START) && s.procs[p].trace == []
    ensures Having(s, p, [], START, s.fs) == s
  {
  }

  lemma WorksOn(env: Env, s0: Sys, s: Sys, p: nat, past: seq<Event>, m: State, e: Event, l: Local, fs: Files)
    requires p < |s.procs| && Plays(env, s0, Having(s, p, past, m.l, m.fs))
    requires StepOf(env, s.procs[p].job, m, e, State(l, fs))
    ensures Plays(env, s0, Having(s, p, past + [e], l, fs))
  {
    var s1, a := Having(s, p, past, m.l, m.fs), Work(p, e.op, e.reply);
    Acts(env, s0, s1, a);
    assert Do(env, s1, a).procs == Having(s, p, past + [e], l, fs).procs;
  }

  // A call can make any run of its own while the others stand still.
  lemma {:induction false} RunsAlone(env: Env, s0: Sys, s: Sys, p: nat, run: seq<Event>, l: Local, fs: Files)
    requires Plays(env, s0, s) && p < |s.procs| && s.procs[p].phase == Running(START) && s.procs[p].trace == []
    requires Reaches(env, s.procs[p].job, s.fs, run, l, fs)
    ensures Plays(env, s0, Having(s, p, run, l, fs))
  {
    if run == [] {
      HavingNothing(s, p);
    } else {
      var past, e := run[..|run| - 1], run[|run| - 1];
      var m := LastStep(env, s.procs[p].job, s.fs, run, l, fs);
      RunsAlone(env, s0, s, p, past, m.l, m.fs);
      assert past + [e] == run;
      WorksOn(env, s0, s, p, past, m, e, l, fs);
    }
  }

  // ----- what a run says about a file -----

  // A file that was there and is gone was removed by the run, or renamed.
  lemma {:induction false} GoneWasTaken(env: Env, job: Job, fs0: Files, run: seq<Event>, l: Local, fs: Files, p: Path)
      returns (k: nat)
    requires Reaches(env, job, fs0, run, l, fs) && p in fs0 && p !in fs
    ensures k < |run| && (run[k].op.Remove? || run[k].op.Rename?) && run[k].op.path == p && run[k].reply.Ok?
  {
    var past, e := run[..|run| - 1], run[|run| - 1];
    var m := Exec(env, job, fs0, past).value;
    if p in m.fs {
      k := |past|;
    } else {
      k := GoneWasTaken(env, job, fs0, past, m.l, m.fs, p);
    }
  }

  lemma {:induction false} PrefixReaches(env: Env, job: Job, fs0: Files, run: seq<Event>, l: Local, fs: Files, k: nat)
      returns (m: State)
    requires Reaches(env, job, fs0, run, l, fs) && k < |run|
    ensures Reaches(env, job, fs0, run[..k], m.l, m.fs) && InBounds(job, m.l) && Allows(job, m.l, run[k].op)
    ensures Permitted(m.fs, run[k].op, run[k].reply)
  {
    var past := run[..|run| - 1];
    m := LastStep(env, job, fs0, run, l, fs);
    if k < |past| {
      m := PrefixReaches(env, job, fs0, past, m.l, m.fs, k);
      assert past[..k] == run[..k];
    }
  }

  // A run that takes a file no destination of its own is responsible for needs it to be there.
  lemma TakenWasThere(env: Env, job: Job, fs0: Files, run: seq<Event>, l: Local, fs: Files, p: Path, k: nat)
    requires job.WellFormed() && Reaches(env, job, fs0, run, l, fs) && !job.IsDest(p.of) && k < |run|
    requires (run[k].op.Remove? || run[k].op.Rename?) && run[k].op.path == p && run[k].reply.Ok?
    ensures p in fs0
  {
    var m := PrefixReaches(env, job, fs0, run, l, fs, k);
    RunMakesKin(env, job, fs0, run[..k], m.l, m.fs);
  }

  // ----- the two calls -----

  function Second(d: string): string { d + BACKUP_SUFFIX[..12] }

  // A plan of Apply for one file.
  predicate OneFile(env: Env, job: Job, d: string) {
    job.N() == 1 && job.WellFormed() && !job.solo && Resolves(env, job) && job.files[0].abs == d
  }

  // What lies in the directory: enough names after that of the second call's temp.
  function Yard(d: string, n: nat, keep: nat, f: File): Files { map q | q in Extended(Temp(Second(d), n), keep) :: f }

  lemma TempDoomed(d: string, n: nat, keep: nat, f: File, fs: Files)
    requires keep > 0 && Temp(Second(d), n) in fs && Yard(d, n, keep, f).Keys <= fs.Keys
    ensures Temp(Second(d), n) in Doomed(keep, Found(fs, d))
  {
    var p := Temp(Second(d), n);
    NearListed(d, Second(d), TEMP_SUFFIX, n);
    forall q | q in Extended(p, keep)
      ensures q in Retention.After(Found(fs, d), p)
    {
      assert q in Yard(d, n, keep, f).Keys;
      ExtensionListed(d, p, q);
      LessExtension(Render(p), q.of);
    }
    SizeGrows(Extended(p, keep), Retention.After(Found(fs, d), p));
  }

  // The second call has created its temp.
  lemma SecondOpens(env: Env, b: Job, e: string, fs0: Files, n: nat) returns (run: seq<Event>, l: Local, fs: Files)
    requires OneFile(env, b, e) && n <= MAX_NANOS && forall q :: q in fs0 ==> q.Live?
    ensures Reaches(env, b, fs0, run, l, fs) && l.pc == AtTemp(0, SWrite) && l.stamp == n && |l.preps| == 1
    ensures Temp(e, n) in fs && fs0.Keys <= fs.Keys && forall q :: q in fs && q.Temp? ==> q == Temp(e, n)
  {
    var x: Plot := Scenario(env, b, fs0, fs0, false, n, 0, true);
    var base;
    l, base := GetsReady(x);
    OnlyLives(x, base, Kept(x));
    fs := base[Temp(e, n) := Bare(x, [])];
    OpensTemp(x, l, base, 0, false, Temp(e, n), fs);
    l := l.(stamp := n, pc := AtTemp(0, SWrite));
    run :| ExecVia(x, run) == Some(State(l, fs)) && HonestStats(x.seen, run);
  }

  // Taking backups makes no temps.
  lemma OnlyLives(x: Plot, base: Files, saved: nat)
    requires Safe(x, base, saved) && forall q :: q in x.fs0 ==> q.Live?
    ensures forall q :: q in base ==> !q.Temp?
  {
    assert forall q: Path :: q.Temp? ==> SameAt(x.fs0, base, q);
  }

  // The first call deploys, and its janitor removes that temp.
  lemma FirstSweeps(env: Env, a: Job, d: string, n: nat, f: File, fs: Files)
    returns (run: seq<Event>, l: Local, fs': Files)
    requires OneFile(env, a, d) && a.Keep() > 0 && Temp(Second(d), n) in fs && Yard(d, n, a.Keep(), f).Keys <= fs.Keys
    requires forall q :: q in fs && q.Temp? ==> q == Temp(Second(d), n)
    ensures Reaches(env, a, fs, run, l, fs') && l.pc == AtEnd(Deployed) && Temp(Second(d), n) !in fs'
  {
    OneFileIsProper(a);
    TempDoomed(d, n, a.Keep(), f, fs);
    assert |Second(d)| == |d| + 12;
    assert Runnable(env, a, fs, 0);
    run, l, fs' := ForeignFileLost(env, a, fs, 0, 0, Temp(Second(d), n));
  }

  // Both hold their locks.
  ghost function Started(a: Job, b: Job, d: string, e: string, fs: Files): Sys {
    Sys([Proc(a, [d], Running(START), []), Proc(b, [e], Running(START), [])], map[d := 0, e := 1], fs, [0, 1])
  }

  ghost function Starting(a: Job, b: Job, d: string, e: string, fs: Files): Sys {
    Sys([Proc(a, [d], Acquiring(0), []), Proc(b, [e], Acquiring(0), [])], map[], fs, [])
  }

  ghost function Halfway(a: Job, b: Job, d: string, e: string, fs: Files): Sys {
    Sys([Proc(a, [d], Running(START), []), Proc(b, [e], Acquiring(0), [])], map[d := 0], fs, [0])
  }

  lemma LockSteps(env: Env, a: Job, b: Job, d: string, e: string, fs: Files)
    requires d != e
    ensures Enabled(Starting(a, b, d, e, fs), Lock(0)) && Enabled(Halfway(a, b, d, e, fs), Lock(1))
    ensures Do(env, Starting(a, b, d, e, fs), Lock(0)) == Halfway(a, b, d, e, fs)
    ensures Do(env, Halfway(a, b, d, e, fs), Lock(1)) == Started(a, b, d, e, fs)
  {
  }

  lemma OneFileOrder(job: Job, d: string)
    requires job.N() == 1 && job.files[0].abs == d
    ensures Sort(Paths(job)) == [d]
  {
    assert Paths(job) == [d];
    assert Sort([d]) == Insert(d, Sort([]));
  }

  lemma BothStart(env: Env, a: Job, b: Job, d: string, e: string, fs: Files)
    requires OneFile(env, a, d) && OneFile(env, b, e) && d != e
    ensures Initial(Starting(a, b, d, e, fs)) && Plays(env, Starting(a, b, d, e, fs), Started(a, b, d, e, fs))
  {
    OneFileOrder(a, d);
    OneFileOrder(b, e);
    var s0, s1 := Starting(a, b, d, e, fs), Halfway(a, b, d, e, fs);
    assert Play(env, s0, []) == Some(s0);
    LockSteps(env, a, b, d, e, fs);
    Acts(env, s0, s0, Lock(0));
    Acts(env, s0, s1, Lock(1));
  }

  lemma FailingSteps(env: Env, b: Job, l: Local, fs: Files, p: Path, l1: Local)
    requires b.N() == 1 && l.pc == AtTemp(0, SWrite) && |l.preps| == 1 && p == Temp(b.files[0].abs, l.stamp) && p !in fs
    requires l1 == l.(pc := AtTemp(0, SDrop))
    ensures StepOf(env, b, State(l, fs), Event(Write(p, b.files[0].bytes), Err), State(l1, fs))
    ensures StepOf(env, b, State(l1, fs), Event(Remove(p), NotExist), State(CleanUp(l1, Aborted), fs))
  {
  }

  // What the second call does next: its write fails, and its temp is gone.
  lemma SecondFails(env: Env, s0: Sys, s: Sys, b: Job, run: seq<Event>, l: Local, p: Path)
    returns (l': Local, bytes: Bytes)
    requires Plays(env, s0, s) && |s.procs| == 2 && s.procs[1].job == b && b.N() == 1
    requires s.procs[1].phase == Running(l) && s.procs[1].trace == run && l.pc == AtTemp(0, SWrite) && |l.preps| == 1
    requires p == Temp(b.files[0].abs, l.stamp) && p !in s.fs
    ensures Plays(env, s0, Having(s, 1, run + [Event(Write(p, bytes), Err)] + [Event(Remove(p), NotExist)], l', s.fs))
  {
    bytes := b.files[0].bytes;
    assert Having(s, 1, run, l, s.fs) == s;
    var l1 := l.(pc := AtTemp(0, SDrop));
    FailingSteps(env, b, l, s.fs, p, l1);
    WorksOn(env, s0, s, 1, run, State(l, s.fs), Event(Write(p, bytes), Err), l1, s.fs);
    l' := CleanUp(l1, Aborted);
    WorksOn(env, s0, s, 1, run + [Event(Write(p, bytes), Err)], State(l1, s.fs), Event(Remove(p), NotExist), l', s.fs);
  }

  // Alone, the second call would find its temp.
  lemma NotAlone(env: Env, b: Job, fs0: Files, run: seq<Event>, l: Local, fs: Files, p: Path, bytes: Bytes,
                 l': Local, fs': Files)
    requires Reaches(env, b, fs0, run, l, fs) && p in fs
    ensures !Reaches(env, b, fs0, run + [Event(Write(p, bytes), Err)] + [Event(Remove(p), NotExist)], l', fs')
  {
    var once := run + [Event(Write(p, bytes), Err)];
    var twice := once + [Event(Remove(p), NotExist)];
    assert twice[..|twice| - 1] == once && once[..|once| - 1] == run;
    if Reaches(env, b, fs0, twice, l', fs') {
      var m := LastStep(env, b, fs0, twice, l', fs');
      var k := LastStep(env, b, fs0, once, m.l, m.fs);
    }
  }

  // The first call's run needs a file that only the second makes.
  lemma NotFirst(env: Env, a: Job, fs0: Files, run: seq<Event>, l: Local, fs: Files, p: Path, fs1: Files, l': Local,
                 fs': Files)
    requires a.WellFormed() && Reaches(env, a, fs1, run, l, fs) && p in fs1 && p !in fs && p !in fs0 && !a.IsDest(p.of)
    ensures !Reaches(env, a, fs0, run, l', fs')
  {
    var k := GoneWasTaken(env, a, fs1, run, l, fs, p);
    if Reaches(env, a, fs0, run, l', fs') { TakenWasThere(env, a, fs0, run, l', fs', p, k); }
  }

  // No order of the two calls gives the same files and the same replies.
  ghost predicate NoOrder(env: Env, fs0: Files, s: Sys) {
    forall order, cuts :: order == [0, 1] || order == [1, 0] ==> !Serial(env, fs0, s.(queue := order), cuts)
  }

  lemma FirstRuns(env: Env, fs0: Files, s: Sys, cuts: seq<Files>, p: nat)
    requires Serial(env, fs0, s, cuts) && s.queue != [] && s.queue[0] == p
    ensures p < |s.procs| && Reaches(env, s.procs[p].job, fs0, s.procs[p].trace, LocalOf(s.procs[p].phase), cuts[1])
  {
  }

  // The call at p could not have come first.
  ghost predicate NeverFirst(env: Env, fs0: Files, pr: Proc) {
    forall l, fs :: !Reaches(env, pr.job, fs0, pr.trace, l, fs)
  }

  lemma FirstNeverFirst(env: Env, fs0: Files, pr: Proc, l: Local, fs: Files, p: Path, fs1: Files)
    requires pr.job.WellFormed() && Reaches(env, pr.job, fs1, pr.trace, l, fs)
    requires p in fs1 && p !in fs && p !in fs0 && !pr.job.IsDest(p.of)
    ensures NeverFirst(env, fs0, pr)
  {
    forall l', fs'
      ensures !Reaches(env, pr.job, fs0, pr.trace, l', fs')
    {
      NotFirst(env, pr.job, fs0, pr.trace, l, fs, p, fs1, l', fs');
    }
  }

  lemma SecondNeverFirst(env: Env, fs0: Files, pr: Proc, run: seq<Event>, l: Local, fs: Files, p: Path, bytes: Bytes)
    requires Reaches(env, pr.job, fs0, run, l, fs) && p in fs
    requires pr.trace == run + [Event(Write(p, bytes), Err)] + [Event(Remove(p), NotExist)]
    ensures NeverFirst(env, fs0, pr)
  {
    forall l', fs'
      ensures !Reaches(env, pr.job, fs0, pr.trace, l', fs')
    {
      NotAlone(env, pr.job, fs0, run, l, fs, p, bytes, l', fs');
    }
  }

  lemma NeitherFirst(env: Env, fs0: Files, s: Sys)
    requires |s.procs| == 2 && NeverFirst(env, fs0, s.procs[0]) && NeverFirst(env, fs0, s.procs[1])
    ensures NoOrder(env, fs0, s)
  {
    forall order, cuts | order == [0, 1] || order == [1, 0]
      ensures !Serial(env, fs0, s.(queue := order), cuts)
    {
      if Serial(env, fs0, s.(queue := order), cuts) { FirstRuns(env, fs0, s.(queue := order), cuts, order[0]); }
    }
  }

  // The play: the second call opens its temp, the first runs to its end, the second goes on.
  ghost function Clashed(start: Sys, runA: seq<Event>, lA: Local, fs: Files, runB: seq<Event>, lB: Local): Sys
    requires |start.procs| == 2
  {
    Having(Having(start, 0, runA, lA, fs), 1, runB, lB, fs)
  }

  lemma HavingBoth(s: Sys, runB: seq<Event>, lB: Local, fsB: Files, runA: seq<Event>, lA: Local, fs: Files)
    requires |s.procs| == 2
    ensures Having(Having(s, 1, runB, lB, fsB), 0, runA, lA, fs) == Clashed(s, runA, lA, fs, runB, lB)
  {
  }

  lemma BothRun(env: Env, a: Job, b: Job, d: string, e: string, fs0: Files, runA: seq<Event>, lA: Local, fs: Files,
                runB: seq<Event>, lB: Local, fsB: Files)
    requires OneFile(env, a, d) && OneFile(env, b, e) && d != e
    requires Reaches(env, b, fs0, runB, lB, fsB) && Reaches(env, a, fsB, runA, lA, fs)
    ensures Initial(Starting(a, b, d, e, fs0))
    ensures Plays(env, Starting(a, b, d, e, fs0), Clashed(Started(a, b, d, e, fs0), runA, lA, fs, runB, lB))
  {
    var s0, s := Starting(a, b, d, e, fs0), Started(a, b, d, e, fs0);
    BothStart(env, a, b, d, e, fs0);
    RunsAlone(env, s0, s, 1, runB, lB, fsB);
    RunsAlone(env, s0, Having(s, 1, runB, lB, fsB), 0, runA, lA, fs);
    HavingBoth(s, runB, lB, fsB, runA, lA, fs);
  }

  // ... and then the second call fails, which no order explains.
  lemma ClashPlay(env: Env, a: Job, b: Job, d: string, e: string, fs0: Files, runA: seq<Event>, lA: Local, fs: Files,
                  runB: seq<Event>, lB: Local, fsB: Files, p: Path) returns (s: Sys)
    requires OneFile(env, a, d) && OneFile(env, b, e) && d != e
    requires Reaches(env, b, fs0, runB, lB, fsB) && Reaches(env, a, fsB, runA, lA, fs)
    requires lB.pc == AtTemp(0, SWrite) && |lB.preps| == 1 && p == Temp(e, lB.stamp)
    requires p !in fs0 && p in fsB && p !in fs
    ensures Initial(Starting(a, b, d, e, fs0)) && Plays(env, Starting(a, b, d, e, fs0), s)
    ensures NoOrder(env, fs0, s)
  {
    var s0 := Starting(a, b, d, e, fs0);
    BothRun(env, a, b, d, e, fs0, runA, lA, fs, runB, lB, fsB);
    s := Clashed(Started(a, b, d, e, fs0), runA, lA, fs, runB, lB);
    var l, bytes := SecondFails(env, s0, s, b, runB, lB, p);
    s := Having(s, 1, runB + [Event(Write(p, bytes), Err)] + [Event(Remove(p), NotExist)], l, fs);
    FirstNeverFirst(env, fs0, s.procs[0], lA, fs, p, fsB);
    SecondNeverFirst(env, fs0, s.procs[1], runB, lB, fsB, p, bytes);
    NeitherFirst(env, fs0, s);
  }

  // Two calls, on d and on d.certctl-bak, and a play of them that is no serial
  // run of the two in either order.
  lemma NearNamesClash(env: Env, a: Job, b: Job, d: string, n: nat, f: File) returns (s0: Sys, s: Sys)
    requires OneFile(env, a, d) && OneFile(env, b, Second(d)) && a.Keep() > 0 && n <= MAX_NANOS
    ensures Initial(s0) && |s0.procs| == 2 && s0.procs[0].job == a && s0.procs[1].job == b && Plays(env, s0, s)
    ensures NoOrder(env, s0.fs, s)
  {
    var e, fs0 := Second(d), Yard(d, n, a.Keep(), f);
    assert |e| == |d| + 12;
    var runB, lB, fsB := SecondOpens(env, b, e, fs0, n);
    var runA, lA, fsA := FirstSweeps(env, a, d, n, f, fsB);
    s0 := Starting(a, b, d, e, fs0);
    s := ClashPlay(env, a, b, d, e, fs0, runA, lA, fsA, runB, lB, fsB, Temp(e, n));
  }
}
