// The remote side: a file tree, the compose text that is running, and what each command does
// to them. A schedule decides, step by step, which commands fail and how.
module Shell {
  import opened Wrappers
  import opened Text
  import opened Paths
  import opened Validators
  import opened Listing
  import opened Commands

  datatype Fs = Fs(files: map<Location, Bytes>, dirs: set<Location>)

  /** One simple command that ran, its exit code, and the state it left. */
  datatype Event = Event(prim: Prim, code: nat, fs: Fs, running: Option<Bytes>)

  /** `running` is the compose text of the last successful `up`; the trail records every step. */
  datatype World = World(fs: Fs, running: Option<Bytes>, clock: int, trail: seq<Event>)

  /** The environment's choice for one simple command: exit code 0 asks for success. A failing
      command may still have left work behind: `torn` holds the partial contents of a file being
      decoded (or says that directories were made or removed), `tornCopy` those of one being copied. */
  datatype Outcome = Outcome(exit: nat, torn: Option<Bytes>, tornCopy: Option<Bytes>, stdout: Bytes,
                             listing: seq<Listed>, key: Option<Bytes>)

  /** Choices by position in the trail: outcomes, lost connections, and how long things take. */
  datatype Schedule = Schedule(outcome: nat -> Outcome, lost: nat -> bool, delay: nat -> nat, oversleep: nat -> nat)

  datatype Output = Output(stdout: Bytes, code: nat)

  /** The world after a run, and what the run returned. */
  datatype Run<+T> = Run(w: World, r: Result<T>)

  function At(fs: Fs, l: Location): Option<Bytes> {
    if l in fs.files then Some(fs.files[l]) else None
  }

  // ---------------------------------------------------------------------------
  // One simple command
  // ---------------------------------------------------------------------------

  datatype Effect = Effect(code: nat, stdout: Bytes, fs: Fs, running: Option<Bytes>, cwd: Location)

  function Put(fs: Fs, l: Location, content: Bytes): Fs {
    fs.(files := fs.files[l := content])
  }

  function PutSome(fs: Fs, l: Location, content: Option<Bytes>): Fs {
    if content.Some? then Put(fs, l, content.value) else fs
  }

  function Prune(fs: Fs, root: Location): Fs {
    Fs(map l | l in fs.files && !(root <= l) :: fs.files[l], set d | d in fs.dirs && !(root <= d))
  }

  function Ancestors(l: Location): set<Location> {
    set k | 0 <= k <= |l| :: l[..k]
  }

  function KeyLocation(cwd: Location): Location {
    cwd + ["data", "id_ed25519.pub"]
  }

  /** A listing is right when it names exactly the backup directories that exist. */
  predicate ListsBackups(fs: Fs, dir: Location, es: seq<Listed>) {
    && (forall e :: e in es ==> IsListed(e) && dir + [e.name] in fs.dirs)
    && (forall i, j :: 0 <= i < j < |es| ==> es[i].name != es[j].name)
    && (forall d :: d in fs.dirs && |d| == |dir| + 1 && dir <= d && "pre-update-" <= d[|dir|] ==>
          exists e :: e in es && e.name == d[|dir|])
  }

  /** Commands that only report: exit code and output are the schedule's choice. */
  predicate IsReport(prim: Prim) {
    || prim.DockerPresent? || prim.ComposeV2? || prim.ComposeV1? || prim.Chmod? || prim.Pull? || prim.Config?
    || prim.Ps? || prim.Logs? || prim.Probe?
  }

  /** Commands that read the file tree. */
  predicate IsLook(prim: Prim) {
    prim.TestDir? || prim.TestFile? || prim.Cat? || prim.ChangeDir? || prim.Find?
  }

  /** The exit code and output of a command that changes nothing. */
  function Look(prim: Prim, fs: Fs, o: Outcome): (nat, Bytes)
    requires IsReport(prim) || IsLook(prim)
  {
    if o.exit != 0 then (o.exit, "")
    else if prim.TestDir? then (if Locate(prim.path) in fs.dirs then 0 else 1, "")
    else if prim.TestFile? then (if Locate(prim.path) in fs.files then 0 else 1, "")
    else if prim.Cat? then
      (if Locate(prim.path) in fs.files then (0, fs.files[Locate(prim.path)]) else (1, ""))
    else if prim.Find? then
      (if ListsBackups(fs, Locate(prim.path), o.listing) && IsBytes(PrintListing(prim.path, o.listing))
       then (0, PrintListing(prim.path, o.listing)) else (1, ""))
    else if prim.ChangeDir? then (0, "")
    else (0, o.stdout)
  }

  /** A change asked for: the state if it succeeds, and the state a failure may leave. */
  datatype Change = Change(possible: bool, done: Fs, torn: Fs)

  function Changes(prim: Prim, cwd: Location, fs: Fs, o: Outcome): Change
    requires !IsReport(prim) && !IsLook(prim)
  {
    match prim
    case Mkdir(p) =>
      var made := fs.(dirs := fs.dirs + Ancestors(Locate(p)));
      Change(true, made, if o.torn.Some? then made else fs)
    case Copy(s, d) =>
      if Locate(s) in fs.files then
        Change(true, Put(fs, Locate(d), fs.files[Locate(s)]), PutSome(fs, Locate(d), o.tornCopy))
      else Change(false, fs, fs)
    case Decode(payload, p) =>
      var content := Base64.Decode(payload);
      if content.Some? then Change(true, Put(fs, Locate(p), content.value), PutSome(fs, Locate(p), o.torn))
      else Change(false, fs, PutSome(fs, Locate(p), o.torn))
    case Move(s, d) =>
      if Locate(s) in fs.files && Locate(s) != Locate(d) then
        Change(true, Put(fs.(files := fs.files - {Locate(s)}), Locate(d), fs.files[Locate(s)]), fs)
      else Change(false, fs, fs)
    case Up =>
      var keyed := PutSome(fs, KeyLocation(cwd), o.key);
      Change(cwd + [COMPOSE_FILE] in fs.files, keyed, keyed)
    case Remove(p) =>
      var pruned := Prune(fs, Locate(p));
      Change(true, pruned, if o.torn.Some? then pruned else fs)
  }

  /** What one simple command does in directory `cwd`, given the schedule's choice. */
  function Apply(prim: Prim, cwd: Location, fs: Fs, running: Option<Bytes>, o: Outcome): Effect {
    if IsReport(prim) || IsLook(prim) then
      var (code, out) := Look(prim, fs, o);
      Effect(code, out, fs, running, if prim.ChangeDir? && code == 0 then Locate(prim.path) else cwd)
    else
      var c := Changes(prim, cwd, fs, o);
      if c.possible && o.exit == 0 then
        Effect(0, "", c.done, if prim.Up? then At(fs, cwd + [COMPOSE_FILE]) else running, cwd)
      else Effect(if o.exit == 0 then 1 else o.exit, "", c.torn, running, cwd)
  }

  // ---------------------------------------------------------------------------
  // Scripts and command lines
  // ---------------------------------------------------------------------------

  datatype Finished = Finished(w: World, code: nat, stdout: Bytes)

  function After(w: World, prim: Prim, e: Effect): World {
    w.(fs := e.fs, running := e.running, trail := w.trail + [Event(prim, e.code, e.fs, e.running)])
  }

  /** A chain of commands joined by "&&" stops at the first failure. */
  function RunScript(s: Schedule, w: World, cwd: Location, prims: seq<Prim>): (f: Finished)
    requires prims != []
    ensures f.w.clock == w.clock && |w.trail| < |f.w.trail|
    decreases |prims|
  {
    var e := Apply(prims[0], cwd, w.fs, w.running, s.outcome(|w.trail|));
    var next := After(w, prims[0], e);
    if e.code != 0 || |prims| == 1 then Finished(next, e.code, e.stdout)
    else RunScript(s, next, e.cwd, prims[1..])
  }

  /** The reply to a finished script: every command takes some time, and the connection may be
      lost whatever the script did. */
  function Reply(s: Schedule, before: World, f: Finished): Run<Output> {
    Run(f.w.(clock := f.w.clock + 1 + s.delay(|before.trail|)),
        if s.lost(|before.trail|) then Err(SshConnection) else Ok(Output(f.stdout, f.code)))
  }

  /** Running a command line: what the recogniser does not know, the shell does not find. */
  function Exec(s: Schedule, w: World, command: string): Run<Output> {
    match Parse(command)
    case None => Reply(s, w, Finished(w, 127, ""))
    case Some(prims) => Reply(s, w, RunScript(s, w, [], prims))
  }

  // ---------------------------------------------------------------------------
  // Commands as the orchestrator sends them
  // ---------------------------------------------------------------------------

  function PathError(c: Cmd): Error {
    if c.CopyFile? then InvalidRelayPath(if IsRemotePath(c.src) then c.dst else c.src)
    else if Accepts(c) then InvalidRelayPath("")
    else InvalidRelayPath(c.path)
  }

  /** Build the command line and run it: a rejected argument never reaches the host. */
  function Do(s: Schedule, w: World, c: Cmd): (t: Run<Output>)
    ensures Accepts(c) ==> t.w.clock > w.clock
    ensures t.w.clock >= w.clock && |t.w.trail| >= |w.trail|
  {
    if Accepts(c) then Reply(s, w, RunScript(s, w, [], Script(c))) else Run(w, Err(PathError(c)))
  }

  /** The command line a builder prints, run by the shell, is the command it stands for. */
  lemma DoRunsTheCommandLine(s: Schedule, w: World, c: Cmd)
    ensures Do(s, w, c) ==
            match Build(c)
            case Err(e) => Run(w, Err(e))
            case Ok(line) => Exec(s, w, line)
  {
    BuildAccepts(c);
    if Accepts(c) {
      ParseBuild(c);
    }
  }

  /** `exec_ok`: a nonzero exit code is an error. */
  function ExecOk(s: Schedule, w: World, c: Cmd): (t: Run<Bytes>)
    ensures |t.w.trail| >= |w.trail|
  {
    var t := Do(s, w, c);
    match t.r
    case Err(e) => Run(t.w, Err(e))
    case Ok(out) => Run(t.w, if out.code == 0 then Ok(out.stdout) else Err(RemoteCommandFailed(out.code)))
  }

  /** Several commands in order, up to the first that is not `exec_ok`. */
  function RunAll(s: Schedule, w: World, cs: seq<Cmd>): (t: Run<()>)
    ensures |t.w.trail| >= |w.trail|
    decreases |cs|
  {
    if cs == [] then Run(w, Ok(()))
    else
      hide ExecOk;
      var t := ExecOk(s, w, cs[0]);
      match t.r
      case Err(e) => Run(t.w, Err(e))
      case Ok(_) => RunAll(s, t.w, cs[1..])
  }
}
