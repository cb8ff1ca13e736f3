/** Concurrent calls working on names: the same as on paths when no names clash. */
module NamedPlays {
  import opened Common
  import opened FileSystem
  import opened Protocol
  import opened Progress
  import opened Runs
  import opened Naming
  import opened Commuting
  import opened Locks
  import opened Interleaving

  ghost predicate EnabledByName(ds: set<string>, s: Sys, a: Act) {
    match a
    case Work(p, op, r) =>
      && p < |s.procs| && s.procs[p].phase.Running?
      && InBounds(s.procs[p].job, s.procs[p].phase.l) && Allows(s.procs[p].job, s.procs[p].phase.l, op)
      && Permitted(s.fs, ByName(ds, op), r)
    case _ => Enabled(s, a)
  }

  ghost function DoByName(env: Env, ds: set<string>, s: Sys, a: Act): Sys
    requires EnabledByName(ds, s, a)
  {
    match a
    case Work(p, op, r) =>
      s.(procs := s.procs[p := Worked(env, s.procs[p], op, r)], fs := Effect(env, s.fs, ByName(ds, op), r))
    case _ => Do(env, s, a)
  }

  ghost function PlayByName(env: Env, ds: set<string>, s0: Sys, acts: seq<Act>): Option<Sys> {
    if acts == [] then Some(s0)
    else
      match PlayByName(env, ds, s0, acts[..|acts| - 1])
      case None => None
      case Some(s) =>
        if EnabledByName(ds, s, acts[|acts| - 1]) then Some(DoByName(env, ds, s, acts[|acts| - 1])) else None
  }

  // ds holds the destinations of every call, and none is called like a sibling made by one.
  ghost predicate NamesFit(ds: set<string>, procs: seq<Proc>) {
    forall p :: 0 <= p < |procs| ==> Dests(procs[p].job) <= ds && Proper(ds, procs[p].job)
  }

  ghost predicate ProcNamed(ds: set<string>, pr: Proc) {
    && pr.job.WellFormed() && Dests(pr.job) <= ds && Proper(ds, pr.job)
    && (pr.phase.Running? ==> Sane(pr.job, pr.phase.l) && Stamped(pr.job, pr.phase.l) && TodoNamed(ds, pr.phase.l))
  }

  ghost predicate SysNamed(ds: set<string>, s: Sys) {
    AllNamed(ds, s.fs) && forall p :: 0 <= p < |s.procs| ==> ProcNamed(ds, s.procs[p])
  }

  lemma ActByName(env: Env, ds: set<string>, s: Sys, a: Act)
    requires SysNamed(ds, s)
    ensures EnabledByName(ds, s, a) <==> Enabled(s, a)
    ensures Enabled(s, a) ==> DoByName(env, ds, s, a) == Do(env, s, a) && SysNamed(ds, Do(env, s, a))
  {
    if a.p < |s.procs| {
      var pr := s.procs[a.p];
      assert ProcNamed(ds, pr);
      if a.Work? && pr.phase.Running? && Allows(pr.job, pr.phase.l, a.op) {
        StepInStep(env, ds, pr.job, pr.phase.l, s.fs, a.op, a.reply);
      }
    }
  }

  // However the calls interleave, if no destination of any of them is called
  // like a temp or backup of another, working on names is working on paths.
  lemma {:induction false} PlaysByName(env: Env, ds: set<string>, s0: Sys, acts: seq<Act>)
    requires Initial(s0) && NamesFit(ds, s0.procs) && AllNamed(ds, s0.fs)
    ensures PlayByName(env, ds, s0, acts) == Play(env, s0, acts)
    ensures Play(env, s0, acts).Some? ==> SysNamed(ds, Play(env, s0, acts).value)
  {
    if acts != [] {
      var past := acts[..|acts| - 1];
      PlaysByName(env, ds, s0, past);
      if Play(env, s0, past).Some? { ActByName(env, ds, Play(env, s0, past).value, acts[|acts| - 1]); }
    }
  }

  ghost function AllDests(procs: seq<Proc>): set<string> {
    if procs == [] then {} else AllDests(procs[..|procs| - 1]) + Dests(procs[|procs| - 1].job)
  }

  lemma {:induction false} AllDestsFit(procs: seq<Proc>, job: Job)
    requires forall p :: 0 <= p < |procs| ==> Proper(Dests(procs[p].job), job)
    ensures Proper(AllDests(procs), job)
  {
    if procs != [] { AllDestsFit(procs[..|procs| - 1], job); }
  }

  lemma {:induction false} AllDestsHold(procs: seq<Proc>, p: nat)
    requires p < |procs|
    ensures Dests(procs[p].job) <= AllDests(procs)
  {
    if p < |procs| - 1 { AllDestsHold(procs[..|procs| - 1], p); }
  }

  // Calls whose names are spread out work on their own files by name too.
  lemma SpreadFits(procs: seq<Proc>)
    requires Spread(procs)
    ensures NamesFit(AllDests(procs), procs)
  {
    forall p | 0 <= p < |procs|
      ensures Dests(procs[p].job) <= AllDests(procs) && Proper(AllDests(procs), procs[p].job)
    {
      AllDestsHold(procs, p);
      forall q | 0 <= q < |procs|
        ensures Proper(Dests(procs[q].job), procs[p].job)
      {
        assert NamesApart(procs[q].job, procs[p].job);
      }
      AllDestsFit(procs, procs[p].job);
    }
  }
}
