/**
 The file system as the deploy package sees it: a map from paths to files, the
 system calls the package issues, and what each call may answer and change.
 Every answer except success on a missing file is allowed, so a proof over all
 permitted replies covers every pattern of failures.
 */
module FileSystem {
  import opened Common

  // A path is a destination (or any ordinary file) or a sibling made by this
  // package for the destination `of`.
  datatype Path =
    | Live(of: string)
    | Temp(of: string, stamp: nat)
    | Backup(of: string, stamp: nat)

  // ----- names -----

  const TEMP_SUFFIX: string := ".certctl-tmp."
  const BACKUP_SUFFIX: string := ".certctl-bak."

  // 64-bit nanoseconds since the epoch.
  const MAX_NANOS: nat := 0x7fff_ffff_ffff_ffff

  type Nanos = n: nat | n <= MAX_NANOS

  predicate IsDigit(c: char) { '0' <= c <= '9' }

  function Digit(n: nat): (c: char)
    requires n < 10
    ensures IsDigit(c)
  {
    ['0', '1', '2', '3', '4', '5', '6', '7', '8', '9'][n]
  }

  // Decimal without padding.
  function Decimal(n: nat): (s: string)
    ensures s != [] && forall i :: 0 <= i < |s| ==> IsDigit(s[i])
  {
    if n < 10 then [Digit(n)] else Decimal(n / 10) + [Digit(n % 10)]
  }

  function Zeros(k: nat): string { seq(k, _ => '0') }

  // The source's "%019d".
  function NanosStr(n: nat): (s: string)
    ensures s != [] && forall i :: 0 <= i < |s| ==> IsDigit(s[i])
  {
    if |Decimal(n)| < 19 then Zeros(19 - |Decimal(n)|) + Decimal(n) else Decimal(n)
  }

  function Render(p: Path): string {
    match p
    case Live(d) => d
    case Temp(d, n) => d + TEMP_SUFFIX + NanosStr(n)
    case Backup(d, n) => d + BACKUP_SUFFIX + NanosStr(n)
  }

  predicate HasPrefix(s: string, t: string) { |t| <= |s| && s[..|t|] == t }

  // Pruning d takes p for one of d's backups.
  predicate Listed(d: string, p: Path) { HasPrefix(Render(p), d + BACKUP_SUFFIX) }

  // q is d with the backup suffix and possibly more, so d's prefix finds files of q.
  predicate Near(d: string, q: string) { q == d + BACKUP_SUFFIX[..12] || HasPrefix(q, d + BACKUP_SUFFIX) }

  // ----- files -----

  datatype File = File(bytes: Bytes, mode: nat, uid: nat, gid: nat)

  type Files = map<Path, File>

  datatype Info = Info(mode: nat, uid: nat, gid: nat)

  // What stays fixed during a call: SHA-256, the user and group tables, and the
  // identity the process creates files with.
  datatype Env = Env(
    hash: Bytes -> Bytes,
    users: string -> Option<int>,
    groups: string -> Option<int>,
    root: bool,
    uid: nat,
    gid: nat
  )

  datatype Op =
    | Continue                                        // a loop turn with no system call
    | CtxErr
    | Read(path: Path)
    | Stat(path: Path)
    | List(dest: string)                              // directory listing, cut down to names with dest's backup prefix
    | WriteBackup(path: Path, bytes: Bytes, perm: nat)
    | Open(path: Path)                                // O_WRONLY|O_CREATE|O_EXCL, 0600
    | Write(path: Path, bytes: Bytes)
    | Sync(path: Path)
    | Close(path: Path)
    | Chmod(path: Path, mode: nat)
    | Chown(path: Path, uid: nat, gid: nat)
    | Remove(path: Path)
    | Rename(path: Path, to: Path)
    | PreCommit(temps: map<string, Path>)
    | PostCommit

  datatype Reply =
    | Ok
    | Err
    | NotExist
    | Data(bytes: Bytes)
    | Stats(info: Info)
    | Names(found: set<Path>)
    | Made(mode: nat)                                 // created; mode after the umask
    | Torn(bytes: Bytes, mode: nat)                   // failed half way, leaving these bytes

  function Perm(mode: nat): nat { mode % 512 }

  function InfoOf(f: File): Info { Info(f.mode, f.uid, f.gid) }

  function BackupStamps(fs: Files, dest: string): (s: set<nat>)
    ensures forall b: nat :: b in s <==> Backup(dest, b) in fs
  {
    var s := set p | p in fs && p.Backup? && p.of == dest :: p.stamp;
    assert forall b: nat :: Backup(dest, b) in fs ==> Backup(dest, b).stamp in s;
    s
  }

  function Found(fs: Files, d: string): set<Path> { set p | p in fs && Listed(d, p) }

  predicate Permitted(fs: Files, op: Op, r: Reply) {
    match op
    case Continue => r.Ok?
    case CtxErr => r.Ok? || r.Err?
    case Read(p) => r.Err? || (r.Data? && p in fs && r.bytes == fs[p].bytes)
    case Stat(p) => r.Err? || (r.Stats? && p in fs && r.info == InfoOf(fs[p]))
    case List(d) => r.Err? || (r.Names? && r.found == Found(fs, d))
    case WriteBackup(_, _, _) => r.Err? || r.Made? || r.Torn?
    case Open(p) => r.Err? || (r.Made? && p !in fs)
    case Write(p, _) => r.Err? || (p in fs && (r.Ok? || r.Torn?))
    case Sync(_) => r.Ok? || r.Err?
    case Close(_) => r.Ok? || r.Err?
    case Chmod(p, _) => r.Err? || (r.Ok? && p in fs)
    case Chown(p, _, _) => r.Err? || (r.Ok? && p in fs)
    case Remove(p) => r.Err? || (r.Ok? && p in fs) || (r.NotExist? && p !in fs)
    case Rename(p, _) => r.Err? || (r.Ok? && p in fs)
    case PreCommit(_) => r.Ok? || r.Err?
    case PostCommit => r.Ok? || r.Err?
  }

  function Put(env: Env, fs: Files, p: Path, bytes: Bytes, mode: nat): Files {
    if p in fs then fs[p := fs[p].(bytes := bytes)]
    else fs[p := File(bytes, mode, env.uid, env.gid)]
  }

  function Effect(env: Env, fs: Files, op: Op, r: Reply): Files
    requires Permitted(fs, op, r)
  {
    match op
    case WriteBackup(p, b, _) =>
      if r.Made? then Put(env, fs, p, b, r.mode)
      else if r.Torn? then Put(env, fs, p, r.bytes, r.mode) else fs
    case Open(p) => if r.Made? then fs[p := File([], r.mode, env.uid, env.gid)] else fs
    case Write(p, b) =>
      if r.Ok? then fs[p := fs[p].(bytes := b)]
      else if r.Torn? then fs[p := fs[p].(bytes := r.bytes)] else fs
    case Chmod(p, m) => if r.Ok? then fs[p := fs[p].(mode := m)] else fs
    case Chown(p, u, g) => if r.Ok? then fs[p := fs[p].(uid := u, gid := g)] else fs
    case Remove(p) => if r.Ok? then fs - {p} else fs
    case Rename(p, q) => if r.Ok? then (fs - {p})[q := fs[p]] else fs
    case _ => fs
  }

  // The paths a call looks at or changes.
  predicate Touches(op: Op, p: Path) {
    match op
    case Continue => false
    case CtxErr => false
    case PreCommit(_) => false
    case PostCommit => false
    case List(d) => Listed(d, p)
    case Rename(a, b) => p == a || p == b
    case _ => p == op.path
  }

  predicate SameAt(a: Files, b: Files, p: Path) {
    (p in a <==> p in b) && (p in a ==> a[p] == b[p])
  }

  lemma EffectFrame(env: Env, fs: Files, op: Op, r: Reply, p: Path)
    requires Permitted(fs, op, r)
    requires !Touches(op, p)
    ensures SameAt(fs, Effect(env, fs, op, r), p)
  {
  }

  // Only the paths in t may differ.
  ghost predicate Outside(fs: Files, fs': Files, t: set<Path>) {
    forall p: Path :: p !in t ==> SameAt(fs, fs', p)
  }

  // A failed remove changes nothing, any other leaves no file.
  lemma RemoveEffect(env: Env, fs: Files, p: Path, r: Reply)
    requires Permitted(fs, Remove(p), r)
    ensures var fs' := Effect(env, fs, Remove(p), r);
            Outside(fs, fs', {p}) && (p in fs' ==> fs' == fs && r.Err?)
  {
  }
}
