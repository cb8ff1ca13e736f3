/** Steps that touch different files do not notice each other. */
module Commuting {
  import opened Common
  import opened FileSystem
  import opened Ownership
  import opened Protocol
  import opened Names
  import opened Progress
  import opened Runs

  // The files that op looks at or changes are the same.
  ghost predicate Agree(a: Files, b: Files, op: Op) { forall p: Path :: Touches(op, p) ==> SameAt(a, b, p) }

  lemma FoundAlike(a: Files, b: Files, d: string)
    requires Agree(a, b, List(d))
    ensures Found(a, d) == Found(b, d)
  {
    forall p
      ensures p in Found(a, d) <==> p in Found(b, d)
    {
      if Listed(d, p) { assert Touches(List(d), p) && SameAt(a, b, p); }
    }
  }

  // What a call may answer and does depends only on the files it touches.
  lemma OnlyTouched(env: Env, a: Files, b: Files, op: Op, r: Reply)
    requires Agree(a, b, op)
    ensures Permitted(a, op, r) <==> Permitted(b, op, r)
    ensures Permitted(a, op, r) ==> Agree(Effect(env, a, op, r), Effect(env, b, op, r), op)
  {
    match op
    case List(d) => FoundAlike(a, b, d);
    case Rename(p, q) => assert Touches(op, p) && Touches(op, q) && SameAt(a, b, p) && SameAt(a, b, q);
    case Continue =>
    case CtxErr =>
    case PreCommit(_) =>
    case PostCommit =>
    case _ => assert Touches(op, op.path) && SameAt(a, b, op.path);
  }

  predicate Strangers(a: Op, b: Op, p: Path) { !(Touches(a, p) && Touches(b, p)) }

  lemma Elsewhere(env: Env, fs: Files, a: Op, r: Reply, b: Op)
    requires Permitted(fs, a, r) && forall p: Path :: Strangers(a, b, p)
    ensures Agree(fs, Effect(env, fs, a, r), b)
  {
    forall p: Path | Touches(b, p)
      ensures SameAt(fs, Effect(env, fs, a, r), p)
    {
      assert Strangers(a, b, p);
      EffectFrame(env, fs, a, r, p);
    }
  }

  lemma StrangersBack(a: Op, b: Op)
    requires forall p: Path :: Strangers(a, b, p)
    ensures forall p: Path :: Strangers(b, a, p)
  {
    forall p: Path
      ensures Strangers(b, a, p)
    {
      assert Strangers(a, b, p);
    }
  }

  // Two steps that touch different files can be made in either order.
  lemma Commute(env: Env, fs: Files, a: Op, ra: Reply, b: Op, rb: Reply)
    requires (forall p: Path :: Strangers(a, b, p)) && Permitted(fs, a, ra) && Permitted(fs, b, rb)
    ensures Permitted(Effect(env, fs, a, ra), b, rb) && Permitted(Effect(env, fs, b, rb), a, ra)
    ensures Effect(env, Effect(env, fs, a, ra), b, rb) == Effect(env, Effect(env, fs, b, rb), a, ra)
  {
    var fa, fb := Effect(env, fs, a, ra), Effect(env, fs, b, rb);
    StrangersBack(a, b);
    Elsewhere(env, fs, a, ra, b);
    Elsewhere(env, fs, b, rb, a);
    OnlyTouched(env, fs, fa, b, rb);
    OnlyTouched(env, fs, fb, a, ra);
    var ab, ba := Effect(env, fa, b, rb), Effect(env, fb, a, ra);
    forall p: Path
      ensures SameAt(ab, ba, p)
    {
      CommuteAt(env, fs, a, ra, b, rb, fa, fb, ab, ba, p);
    }
    SameEverywhere(ab, ba);
  }

  lemma CommuteAt(env: Env, fs: Files, a: Op, ra: Reply, b: Op, rb: Reply, fa: Files, fb: Files, ab: Files,
                  ba: Files, p: Path)
    requires Permitted(fs, a, ra) && Permitted(fs, b, rb)
    requires fa == Effect(env, fs, a, ra) && fb == Effect(env, fs, b, rb)
    requires Permitted(fa, b, rb) && Permitted(fb, a, ra)
    requires ab == Effect(env, fa, b, rb) && ba == Effect(env, fb, a, ra)
    requires Agree(fa, ba, a) && Agree(fb, ab, b) && Strangers(a, b, p)
    ensures SameAt(ab, ba, p)
  {
    if Touches(a, p) {
      EffectFrame(env, fa, b, rb, p);
    } else {
      EffectFrame(env, fs, a, ra, p);
      EffectFrame(env, fb, a, ra, p);
      if !Touches(b, p) {
        EffectFrame(env, fs, b, rb, p);
        EffectFrame(env, fa, b, rb, p);
      }
    }
  }

  lemma SameEverywhere(a: Files, b: Files)
    requires forall p: Path :: SameAt(a, b, p)
    ensures a == b
  {
    assert a.Keys == b.Keys by {
      forall p: Path
        ensures p in a.Keys <==> p in b.Keys
      {
        assert SameAt(a, b, p);
      }
    }
    forall p | p in a
      ensures a[p] == b[p]
    {
      assert SameAt(a, b, p);
    }
  }

  // ----- the files a call can touch -----

  predicate InZone(d: string, p: Path) { p.of == d || Listed(d, p) }

  ghost predicate Zone(job: Job, p: Path) { exists j :: 0 <= j < job.N() && InZone(job.files[j].abs, p) }

  // What the janitor is about to remove is in the zone of its destination.
  predicate TodoListed(job: Job, l: Local) {
    l.pc.AtPruneRemove? ==> l.pc.i < job.N() && forall p :: p in l.pc.todo ==> Listed(job.files[l.pc.i].abs, p)
  }

  lemma PruneListTodo(job: Job, l: Local, fs: Files, i: nat, r: Reply)
    requires i < job.N() && Permitted(fs, List(job.files[i].abs), r)
    ensures TodoListed(job, OnPruneList(job, l, i, r))
  {
  }

  lemma PruneRemoveTodo(job: Job, l: Local, i: nat, todo: set<Path>, p: Path, r: Reply)
    requires i < job.N() && l.pc == AtPruneRemove(i, todo) && TodoListed(job, l)
    ensures TodoListed(job, OnPruneRemove(job, l, i, todo, p, r))
  {
  }

  lemma JanitorTodo(env: Env, job: Job, l: Local, fs: Files, op: Op, r: Reply)
    requires InBounds(job, l) && Allows(job, l, op) && Permitted(fs, op, r) && TodoListed(job, l)
    requires l.pc.AtPruneList? || l.pc.AtPruneRemove?
    ensures TodoListed(job, Recv(env, job, l, op, r))
  {
    match l.pc
    case AtPruneList(i) => PruneListTodo(job, l, fs, i, r);
    case AtPruneRemove(i, todo) => PruneRemoveTodo(job, l, i, todo, op.path, r);
  }

  lemma StepTodo(env: Env, job: Job, l: Local, fs: Files, op: Op, r: Reply)
    requires job.WellFormed() && Sane(job, l) && Allows(job, l, op) && Permitted(fs, op, r) && TodoListed(job, l)
    ensures TodoListed(job, Recv(env, job, l, op, r))
  {
    if l.pc.AtPruneList? || l.pc.AtPruneRemove? {
      JanitorTodo(env, job, l, fs, op, r);
    } else {
      StepOnward(env, job, l, op, r);
    }
  }

  lemma StageZone(stage: Stage, op: Op, dest: string, stamp: nat, data: Bytes, o: Owner, p: Path)
    requires AllowsStage(stage, op, dest, stamp, data, o) && Touches(op, p)
    ensures p.of == dest
  {
  }

  // A call touches only the family of the destination it is at, and what
  // pruning takes for its backups.
  lemma AllowsAt(job: Job, l: Local, op: Op, p: Path)
    requires InBounds(job, l) && Allows(job, l, op) && TodoListed(job, l) && Touches(op, p)
    ensures Zone(job, p)
  {
    match l.pc
    case AtTemp(i, stage) => StageZone(stage, op, job.files[i].abs, l.stamp, job.files[i].bytes, l.preps[i].owner, p);
    case AtRestoreTemp(i, stage) => StageZone(stage, op, job.files[i].abs, l.stamp, l.data, l.preps[i].owner, p);
    case AtPruneList(i) => assert InZone(job.files[i].abs, p);
    case AtPruneRemove(i, _) => assert InZone(job.files[i].abs, p);
    case _ =>
  }

  // ----- zones -----

  // Destinations of the two plans are the same or not near each other, and none
  // is called like a temp or backup of the other plan.
  ghost predicate NamesApart(a: Job, b: Job) {
    && Proper(Dests(a), b) && Proper(Dests(b), a)
    && forall i, j :: 0 <= i < a.N() && 0 <= j < b.N() && a.files[i].abs != b.files[j].abs ==>
         !Near(a.files[i].abs, b.files[j].abs) && !Near(b.files[j].abs, a.files[i].abs)
  }

  lemma InZonesApart(d: string, e: string, p: Path)
    requires d != e && !Near(d, e) && !Near(e, d) && InZone(d, p)
    ensures !InZone(e, p)
  {
    if p.of == d {
      if Listed(e, p) { ListedIsNear(e, p); }
    } else {
      ListedIsNear(d, p);
      if Listed(e, p) { ListingsApart(d, e, p); }
    }
  }

  // Plans without a common destination work on different files.
  lemma ZonesApart(a: Job, b: Job, p: Path)
    requires Dests(a) !! Dests(b) && NamesApart(a, b) && Zone(a, p)
    ensures !Zone(b, p)
  {
    var i :| 0 <= i < a.N() && InZone(a.files[i].abs, p);
    forall j | 0 <= j < b.N()
      ensures !InZone(b.files[j].abs, p)
    {
      assert a.files[i] in a.files && b.files[j] in b.files;
      assert a.files[i].abs in Dests(a) && b.files[j].abs in Dests(b);
      InZonesApart(a.files[i].abs, b.files[j].abs, p);
    }
  }

  lemma {:induction false} RunTodo(env: Env, job: Job, f: Files, run: seq<Event>, l: Local, g: Files)
    requires job.WellFormed() && Reaches(env, job, f, run, l, g)
    ensures Sane(job, l) && TodoListed(job, l)
  {
    RunSane(env, job, f, run, l, g);
    if run != [] {
      var past, e := run[..|run| - 1], run[|run| - 1];
      var s := Exec(env, job, f, past).value;
      RunTodo(env, job, f, past, s.l, s.fs);
      StepTodo(env, job, s.l, s.fs, e.op, e.reply);
    }
  }

  ghost predicate Outsider(job: Job, op: Op) { forall p: Path :: Touches(op, p) ==> !Zone(job, p) }

  lemma OutsiderStrange(job: Job, l: Local, mine: Op, op: Op)
    requires InBounds(job, l) && Allows(job, l, mine) && TodoListed(job, l) && Outsider(job, op)
    ensures forall p: Path :: Strangers(mine, op, p)
  {
    forall p: Path
      ensures Strangers(mine, op, p)
    {
      if Touches(mine, p) { AllowsAt(job, l, mine, p); }
    }
  }

  // A step of someone else, made after a run, might as well be made before it.
  lemma {:induction false} ShiftRun(env: Env, job: Job, f: Files, run: seq<Event>, l: Local, g: Files, op: Op, r: Reply)
    requires job.WellFormed() && Reaches(env, job, f, run, l, g) && Outsider(job, op) && Permitted(g, op, r)
    ensures Permitted(f, op, r) && Reaches(env, job, Effect(env, f, op, r), run, l, Effect(env, g, op, r))
  {
    if run != [] {
      var past, e := run[..|run| - 1], run[|run| - 1];
      var s := Exec(env, job, f, past).value;
      RunTodo(env, job, f, past, s.l, s.fs);
      OutsiderStrange(job, s.l, e.op, op);
      Elsewhere(env, s.fs, e.op, e.reply, op);
      OnlyTouched(env, s.fs, g, op, r);
      ShiftRun(env, job, f, past, s.l, s.fs, op, r);
      Commute(env, s.fs, e.op, e.reply, op, r);
    }
  }
}
