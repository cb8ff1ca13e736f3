/** Which mode, owner and group a destination ends up with. */
module Ownership {
  import opened Common
  import opened FileSystem

  // The source's File: "" and 0 mean unset.
  datatype FileSpec = FileSpec(abs: string, bytes: Bytes, mode: nat, owner: string, group: string)

  datatype Defaults = Defaults(mode: nat, owner: string, group: string)

  // uid and gid below zero mean "do not chown".
  datatype Owner = Owner(mode: nat, modeSet: bool, uid: int, gid: int) {
    predicate Chowns() { uid >= 0 && gid >= 0 }
  }

  function ResolveMode(file: FileSpec, defaults: Defaults, stat: Option<Info>): (int, bool) {
    if file.mode != 0 then (file.mode, true)
    else if stat.Some? then (Perm(stat.value.mode), true)
    else if defaults.mode != 0 then (defaults.mode, true)
    else (0, false)
  }

  function Lookup(env: Env, mode: (int, bool), owner: string, group: string): Option<Owner>
    requires mode.0 >= 0
  {
    match (env.users(owner), env.groups(group))
    case (Some(uid), Some(gid)) => Some(Owner(mode.0, mode.1, uid, gid))
    case _ => None
  }

  // None is the lookup error.
  function ResolveOwnership(env: Env, file: FileSpec, defaults: Defaults, stat: Option<Info>): Option<Owner> {
    var mode := ResolveMode(file, defaults, stat);
    if file.owner != "" && file.group != "" then Lookup(env, mode, file.owner, file.group)
    else if stat.Some? then Some(Owner(mode.0, mode.1, stat.value.uid, stat.value.gid))
    else if defaults.owner != "" && defaults.group != "" then Lookup(env, mode, defaults.owner, defaults.group)
    else Some(Owner(mode.0, mode.1, -1, -1))
  }

  // What applyOwnership leaves on a file this process has just created: the
  // mode if one was resolved, and the owner pair unless a non-root chown failed.
  predicate Owned(env: Env, o: Owner, f: File) {
    && (o.modeSet ==> f.mode == o.mode)
    && ((f.uid == env.uid && f.gid == env.gid) || (f.uid == o.uid && f.gid == o.gid))
    && (o.Chowns() && env.root ==> f.uid == o.uid && f.gid == o.gid)
    && (!o.Chowns() ==> f.uid == env.uid && f.gid == env.gid)
  }

  // An override needs both names: a lone owner or group never displaces an
  // existing file's pair, and the mode of an existing file survives unless set.
  predicate Overrides(file: FileSpec) {
    file.mode != 0 || (file.owner != "" && file.group != "")
  }
}
