/**
 Apply and AtomicWriteFile as programs: they change a file system one system
 call at a time, and an arbitrary oracle decides how each call goes. Every
 call must be one the protocol allows at that point, so a program that returns
 has made a run of the protocol.
 */
module Host {
  import opened Common
  import opened FileSystem
  import opened Ownership
  import opened Protocol
  import opened Runs

  class Host {
    const env: Env
    const oracle: nat -> Reply
    const clock: nat -> Nanos
    var files: Files
    var steps: nat

    // What the running call is, where it started and what it has done.
    ghost const job: Job
    ghost const fs0: Files
    ghost var run: seq<Event>
    ghost var states: seq<State>
    ghost var l: Local

    ghost predicate Valid()
      reads this
    {
      Chain(env, job, fs0, run, states) && states[|run|] == State(l, files) && |run| == steps
    }

    constructor (env: Env, oracle: nat -> Reply, clock: nat -> Nanos, files: Files, ghost job: Job)
      ensures Valid() && l == START && run == [] && this.files == fs0 == files && this.job == job && this.env == env
    {
      this.env, this.oracle, this.clock, this.files, this.steps := env, oracle, clock, files, 0;
      this.job, this.fs0, this.run, this.states, this.l := job, files, [], [State(START, files)], START;
    }

    // The oracle's answer if it is a possible one, and failure otherwise.
    function Answer(op: Op): (r: Reply)
      reads this
      ensures Permitted(files, op, r)
    {
      if Permitted(files, op, oracle(steps)) then oracle(steps) else if op.Continue? then Ok else Err
    }

    method Call(op: Op) returns (r: Reply)
      requires Valid() && InBounds(job, l) && Allows(job, l, op)
      modifies this
      ensures Valid() && l == Recv(env, job, old(l), op, r) && Permitted(old(files), op, r)
      ensures run == old(run) + [Event(op, r)]
    {
      r := Answer(op);
      ghost var next := State(Recv(env, job, l, op, r), Effect(env, files, op, r));
      assert StepOf(env, job, states[|run|], Event(op, r), next);
      files, steps := Effect(env, files, op, r), steps + 1;
      run, states, l := run + [Event(op, r)], states + [next], next.l;
    }
  }

  // ----- writeTempFile and applyOwnership, in Apply and in restore -----

  function Staging(restoring: bool, i: nat, stage: Stage): PC {
    if restoring then AtRestoreTemp(i, stage) else AtTemp(i, stage)
  }

  // One stage, with the same meaning in both places.
  ghost function AfterStage(env: Env, job: Job, l: Local, i: nat, stage: Stage, p: Path, r: Reply,
                            restoring: bool): Local
    requires i < |l.preps| && p.Temp?
  {
    if restoring then OnRestoreTemp(env, job, l, i, stage, p, r) else OnTemp(env, job, l, i, stage, p, r)
  }

  method DoStage(h: Host, i: nat, ghost stage: Stage, op: Op, ghost p: Path, ghost data: Bytes, ghost restoring: bool)
    returns (r: Reply)
    requires h.Valid() && h.l.pc == Staging(restoring, i, stage) && i < h.job.N() == |h.l.preps|
    requires data == if restoring then h.l.data else h.job.files[i].bytes
    requires AllowsStage(stage, op, h.job.files[i].abs, h.l.stamp, data, h.l.preps[i].owner)
    requires p == if stage.SOpen? then op.path else Temp(h.job.files[i].abs, h.l.stamp)
    modifies h
    ensures h.Valid() && h.l == AfterStage(h.env, h.job, old(h.l), i, stage, p, r, restoring)
    ensures op.Continue? ==> r.Ok?
  {
    r := h.Call(op);
  }

  ghost function TempLost(job: Job, l: Local, i: nat, restoring: bool): Local {
    if restoring then Restored(job, l, i, true) else CleanUp(l, Aborted)
  }

  ghost function TempMade(l: Local, i: nat, t: nat, restoring: bool): Local
    requires i < |l.preps|
  {
    l.(stamp := t, pc := Staging(restoring, i, SChmod),
       preps := if restoring then l.preps else l.preps[i := l.preps[i].(temp := Some(t))])
  }

  method DropTemp(h: Host, i: nat, p: Path, ghost data: Bytes, ghost restoring: bool)
    requires h.Valid() && h.l.pc == Staging(restoring, i, SDrop) && i < h.job.N() == |h.l.preps|
    requires data == if restoring then h.l.data else h.job.files[i].bytes
    requires p == Temp(h.job.files[i].abs, h.l.stamp)
    modifies h
    ensures h.Valid() && h.l == TempLost(h.job, old(h.l).(stuck := h.l.stuck), i, restoring)
  {
    var r := DoStage(h, i, SDrop, Remove(p), p, data, restoring);
  }

  method WriteSyncClose(h: Host, i: nat, p: Path, data: Bytes, ghost restoring: bool) returns (ok: bool)
    requires h.Valid() && h.l.pc == Staging(restoring, i, SWrite) && i < h.job.N() == |h.l.preps|
    requires data == if restoring then h.l.data else h.job.files[i].bytes
    requires p == Temp(h.job.files[i].abs, h.l.stamp)
    modifies h
    ensures h.Valid()
    ensures h.l == if ok then TempMade(old(h.l), i, p.stamp, restoring)
            else Goto(old(h.l), Staging(restoring, i, SDrop))
  {
    var r := DoStage(h, i, SWrite, Write(p, data), p, data, restoring);
    if !r.Ok? { return false; }
    r := DoStage(h, i, SSync, Sync(p), p, data, restoring);
    if !r.Ok? { return false; }
    r := DoStage(h, i, SClose, Close(p), p, data, restoring);
    return r.Ok?;
  }

  lemma LostAlike(job: Job, l: Local, pc: PC, i: nat, restoring: bool)
    ensures TempLost(job, l.(pc := pc), i, restoring) == TempLost(job, l, i, restoring)
  {
  }

  method WriteTempFile(h: Host, i: nat, dest: string, data: Bytes, ghost restoring: bool) returns (temp: Option<nat>)
    requires h.Valid() && h.l.pc == Staging(restoring, i, SOpen) && i < h.job.N() == |h.l.preps|
    requires dest == h.job.files[i].abs && data == if restoring then h.l.data else h.job.files[i].bytes
    modifies h
    ensures h.Valid()
    ensures temp.Some? ==> h.l == TempMade(old(h.l), i, temp.value, restoring)
    ensures temp.None? ==> h.l == TempLost(h.job, old(h.l).(stamp := h.l.stamp, stuck := h.l.stuck), i, restoring)
  {
    var p := Temp(dest, h.clock(h.steps));
    var r := DoStage(h, i, SOpen, Open(p), p, data, restoring);
    if !r.Made? { return None; }
    var ok := WriteSyncClose(h, i, p, data, restoring);
    if ok { return Some(p.stamp); }
    DropTemp(h, i, p, data, restoring);
    LostAlike(h.job, old(h.l).(stamp := p.stamp, stuck := h.l.stuck), Staging(restoring, i, SDrop), i, restoring);
    return None;
  }

  // False when the temp has to go.
  method ApplyOwnership(h: Host, i: nat, p: Path, o: Owner, ghost data: Bytes, ghost restoring: bool) returns (ok: bool)
    requires h.Valid() && h.l.pc == Staging(restoring, i, SChmod) && i < h.job.N() == |h.l.preps|
    requires data == if restoring then h.l.data else h.job.files[i].bytes
    requires p == Temp(h.job.files[i].abs, h.l.stamp) && o == h.l.preps[i].owner
    modifies h
    ensures h.Valid()
    ensures ok ==> h.l == if restoring then Goto(old(h.l), AtRestoreRename(i)) else TempReady(h.job, old(h.l), i)
    ensures !ok ==> h.l == if restoring then Goto(old(h.l), AtRestoreTemp(i, SDrop)) else CleanUp(old(h.l), Aborted)
  {
    var r := DoStage(h, i, SChmod, if o.modeSet then Chmod(p, o.mode) else Continue, p, data, restoring);
    if !r.Ok? { return false; }
    r := DoStage(h, i, SChown, if o.Chowns() then Chown(p, o.uid, o.gid) else Continue, p, data, restoring);
    return r.Ok? || !h.env.root;
  }
}
