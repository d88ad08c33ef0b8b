// What commands do to the file tree, stated once for every schedule: what each can touch,
// what success means, and that nothing else moves at any step.
module ShellFacts {
  import opened Wrappers
  import opened Text
  import opened Paths
  import opened Listing
  import opened Commands
  import opened Shell

  // ---------------------------------------------------------------------------
  // Frames over every step of a run
  // ---------------------------------------------------------------------------

  /** The contents of `l` are the same at every step from `w` to `v`. */
  predicate Quiet(w: World, v: World, l: Location) {
    && w.trail <= v.trail
    && At(v.fs, l) == At(w.fs, l)
    && forall i :: |w.trail| <= i < |v.trail| ==> At(v.trail[i].fs, l) == At(w.fs, l)
  }

  predicate Passive(e: Event) {
    IsReport(e.prim) || IsLook(e.prim)
  }

  /** Nothing at all changes: every step is a read, and leaves the tree and the stack as they were. */
  predicate Idle(w: World, v: World) {
    && w.trail <= v.trail && v.fs == w.fs && v.running == w.running
    && forall i :: |w.trail| <= i < |v.trail| ==>
         Passive(v.trail[i]) && v.trail[i].fs == w.fs && v.trail[i].running == w.running
  }

  /** A `test -d` that failed on a directory that is there, and a `test -f` on a file that is there. */
  predicate HidesDir(e: Event) {
    e.prim.TestDir? && e.code != 0 && Locate(e.prim.path) in e.fs.dirs
  }

  predicate HidesFile(e: Event) {
    e.prim.TestFile? && e.code != 0 && Locate(e.prim.path) in e.fs.files
  }

  /** No test from `w` to `v` reported as absent what is there. */
  predicate SeesDirs(w: World, v: World) {
    w.trail <= v.trail && forall i :: |w.trail| <= i < |v.trail| ==> !HidesDir(v.trail[i])
  }

  predicate SeesFiles(w: World, v: World) {
    w.trail <= v.trail && forall i :: |w.trail| <= i < |v.trail| ==> !HidesFile(v.trail[i])
  }

  predicate KeepsDir(w: World, v: World, d: Location) {
    && w.trail <= v.trail && d in v.fs.dirs
    && forall i :: |w.trail| <= i < |v.trail| ==> d in v.trail[i].fs.dirs
  }

  lemma QuietTransitive(u: World, v: World, w: World, l: Location)
    requires Quiet(u, v, l) && Quiet(v, w, l)
    ensures Quiet(u, w, l)
  {
    forall i | |u.trail| <= i < |w.trail|
      ensures At(w.trail[i].fs, l) == At(u.fs, l)
    {
      if i < |v.trail| {
        assert w.trail[i] == v.trail[i];
      }
    }
  }

  lemma IdleTransitive(u: World, v: World, w: World)
    requires Idle(u, v) && Idle(v, w)
    ensures Idle(u, w)
  {
    forall i | |u.trail| <= i < |w.trail|
      ensures Passive(w.trail[i]) && w.trail[i].fs == u.fs && w.trail[i].running == u.running
    {
      if i < |v.trail| {
        assert w.trail[i] == v.trail[i];
      }
    }
  }

  lemma IdleIsQuiet(u: World, v: World, l: Location)
    requires Idle(u, v)
    ensures Quiet(u, v, l)
  {
  }

  // ---------------------------------------------------------------------------
  // What a simple command can touch
  // ---------------------------------------------------------------------------

  predicate Touches(prim: Prim, cwd: Location, l: Location) {
    match prim
    case Copy(_, d) => l == Locate(d)
    case Decode(_, p) => l == Locate(p)
    case Move(s, d) => l == Locate(s) || l == Locate(d)
    case Up => l == KeyLocation(cwd)
    case Remove(p) => Locate(p) <= l
    case _ => false
  }

  lemma ApplyFrame(prim: Prim, cwd: Location, fs: Fs, running: Option<Bytes>, o: Outcome, l: Location)
    requires !Touches(prim, cwd, l)
    ensures At(Apply(prim, cwd, fs, running, o).fs, l) == At(fs, l)
  {
  }

  lemma ApplyPassive(prim: Prim, cwd: Location, fs: Fs, running: Option<Bytes>, o: Outcome)
    requires IsReport(prim) || IsLook(prim)
    ensures Apply(prim, cwd, fs, running, o).fs == fs && Apply(prim, cwd, fs, running, o).running == running
  {
  }

  lemma ApplyKeepsDir(prim: Prim, cwd: Location, fs: Fs, running: Option<Bytes>, o: Outcome, d: Location)
    requires d in fs.dirs && !(prim.Remove? && Locate(prim.path) <= d)
    ensures d in Apply(prim, cwd, fs, running, o).fs.dirs
  {
  }

  // ---------------------------------------------------------------------------
  // Scripts
  // ---------------------------------------------------------------------------

  function Enter(prim: Prim, cwd: Location): Location {
    if prim.ChangeDir? then Locate(prim.path) else cwd
  }

  predicate ScriptTouches(prims: seq<Prim>, cwd: Location, l: Location) {
    prims != [] && (Touches(prims[0], cwd, l) || ScriptTouches(prims[1..], Enter(prims[0], cwd), l))
  }

  lemma StepQuiet(s: Schedule, w: World, cwd: Location, prim: Prim, l: Location)
    requires !Touches(prim, cwd, l)
    ensures Quiet(w, After(w, prim, Apply(prim, cwd, w.fs, w.running, s.outcome(|w.trail|))), l)
    ensures Apply(prim, cwd, w.fs, w.running, s.outcome(|w.trail|)).code == 0 ==>
              Apply(prim, cwd, w.fs, w.running, s.outcome(|w.trail|)).cwd == Enter(prim, cwd)
  {
    ApplyFrame(prim, cwd, w.fs, w.running, s.outcome(|w.trail|), l);
  }

  lemma {:induction false} ScriptQuiet(s: Schedule, w: World, cwd: Location, prims: seq<Prim>, l: Location)
    requires prims != [] && !ScriptTouches(prims, cwd, l)
    ensures Quiet(w, RunScript(s, w, cwd, prims).w, l)
    decreases |prims|
  {
    hide Apply;
    StepQuiet(s, w, cwd, prims[0], l);
    var e := Apply(prims[0], cwd, w.fs, w.running, s.outcome(|w.trail|));
    if e.code == 0 && |prims| > 1 {
      var next := After(w, prims[0], e);
      ScriptQuiet(s, next, e.cwd, prims[1..], l);
      QuietTransitive(w, next, RunScript(s, next, e.cwd, prims[1..]).w, l);
    }
  }

  lemma {:induction false} ScriptIdle(s: Schedule, w: World, cwd: Location, prims: seq<Prim>)
    requires prims != [] && forall p :: p in prims ==> IsReport(p) || IsLook(p)
    ensures Idle(w, RunScript(s, w, cwd, prims).w)
    decreases |prims|
  {
    hide Apply;
    var e := Apply(prims[0], cwd, w.fs, w.running, s.outcome(|w.trail|));
    assert IsReport(prims[0]) || IsLook(prims[0]);
    ApplyPassive(prims[0], cwd, w.fs, w.running, s.outcome(|w.trail|));
    var next := After(w, prims[0], e);
    if e.code == 0 && |prims| > 1 {
      ScriptIdle(s, next, e.cwd, prims[1..]);
      IdleTransitive(w, next, RunScript(s, next, e.cwd, prims[1..]).w);
    }
  }

  predicate RemovesDir(prim: Prim, d: Location) {
    prim.Remove? && Locate(prim.path) <= d
  }

  lemma {:induction false} ScriptKeepsDir(s: Schedule, w: World, cwd: Location, prims: seq<Prim>, d: Location)
    requires prims != [] && d in w.fs.dirs && forall p :: p in prims ==> !RemovesDir(p, d)
    ensures KeepsDir(w, RunScript(s, w, cwd, prims).w, d)
    decreases |prims|
  {
    hide Apply;
    var e := Apply(prims[0], cwd, w.fs, w.running, s.outcome(|w.trail|));
    assert !RemovesDir(prims[0], d);
    ApplyKeepsDir(prims[0], cwd, w.fs, w.running, s.outcome(|w.trail|), d);
    var next := After(w, prims[0], e);
    if e.code == 0 && |prims| > 1 {
      ScriptKeepsDir(s, next, e.cwd, prims[1..], d);
    }
  }

  // ---------------------------------------------------------------------------
  // Commands
  // ---------------------------------------------------------------------------

  /** The files a command may change: everything else stays as it is, whatever happens. */
  predicate MayChange(c: Cmd, l: Location) {
    match c
    case CopyFile(_, d) => l == Locate(d)
    case WriteFile(p, _) => l == Locate(p) || l == Locate(p + TMP_SUFFIX)
    case ComposeUp(p) => l == KeyLocation(Locate(p))
    case RemoveTree(p) => Locate(p) <= l
    case _ => false
  }

  predicate IsReading(c: Cmd) {
    !(c.MkdirP? || c.CopyFile? || c.WriteFile? || c.ComposeUp? || c.RemoveTree?)
  }

  lemma ScriptTouchesOnly(c: Cmd, l: Location)
    requires !MayChange(c, l)
    ensures !ScriptTouches(Script(c), [], l)
  {
    hide Locate;
    var p := Script(c);
    if |p| == 1 {
      assert !ScriptTouches(p[1..], Enter(p[0], []), l);
    } else if |p| == 2 {
      var cwd := Enter(p[0], []);
      assert p[1..] == [p[1]] && [p[1]][1..] == [];
      assert !ScriptTouches([], Enter(p[1], cwd), l);
      assert !ScriptTouches([p[1]], cwd, l);
    } else {
      assert p[1..] == [p[1], p[2]] && p[1..][1..] == [p[2]];
      assert !ScriptTouches([], [], l) && [p[2]][1..] == [];
      assert !ScriptTouches([p[2]], [], l);
      assert !ScriptTouches([p[1], p[2]], [], l);
    }
  }

  lemma DoQuiet(s: Schedule, w: World, c: Cmd, l: Location)
    requires !MayChange(c, l)
    ensures Quiet(w, Do(s, w, c).w, l)
  {
    hide Accepts, Apply, RunScript, MayChange;
    if Accepts(c) {
      ScriptTouchesOnly(c, l);
      ScriptQuiet(s, w, [], Script(c), l);
    }
  }

  lemma DoIdle(s: Schedule, w: World, c: Cmd)
    requires IsReading(c)
    ensures Idle(w, Do(s, w, c).w)
  {
    hide Accepts, Apply, RunScript;
    if Accepts(c) {
      ScriptIdle(s, w, [], Script(c));
    }
  }

  predicate IsTest(p: Prim) {
    p.TestDir? || p.TestFile?
  }

  lemma {:induction false} ScriptSees(s: Schedule, w: World, cwd: Location, prims: seq<Prim>)
    requires prims != [] && forall p :: p in prims ==> !IsTest(p)
    ensures SeesDirs(w, RunScript(s, w, cwd, prims).w) && SeesFiles(w, RunScript(s, w, cwd, prims).w)
    decreases |prims|
  {
    hide Apply;
    var e := Apply(prims[0], cwd, w.fs, w.running, s.outcome(|w.trail|));
    assert prims[0] in prims && forall p :: p in prims[1..] ==> p in prims;
    if e.code == 0 && |prims| > 1 {
      ScriptSees(s, After(w, prims[0], e), e.cwd, prims[1..]);
    }
  }

  lemma DoSees(s: Schedule, w: World, c: Cmd)
    requires !c.TestDirExists? && !c.TestFileExists?
    ensures SeesDirs(w, Do(s, w, c).w) && SeesFiles(w, Do(s, w, c).w)
  {
    hide Accepts, Apply, RunScript;
    if Accepts(c) {
      ScriptSees(s, w, [], Script(c));
    }
  }

  lemma DoKeepsDir(s: Schedule, w: World, c: Cmd, d: Location)
    requires d in w.fs.dirs && !(c.RemoveTree? && Locate(c.path) <= d)
    ensures KeepsDir(w, Do(s, w, c).w, d)
  {
    hide Accepts, Apply, RunScript;
    if Accepts(c) {
      ScriptKeepsDir(s, w, [], Script(c), d);
    }
  }

  // ---------------------------------------------------------------------------
  // What success means
  // ---------------------------------------------------------------------------

  predicate Succeeds(s: Schedule, w: World, c: Cmd) {
    ExecOk(s, w, c).r.Ok?
  }

  lemma SucceedsIsOk(s: Schedule, w: World, c: Cmd)
    ensures Succeeds(s, w, c) <==> ExecOk(s, w, c).r.Ok?
  {
  }

  /** A command of one simple step that succeeded left exactly that step's effect. */
  lemma SingleSuccess(s: Schedule, w: World, c: Cmd)
    requires Succeeds(s, w, c) && |Script(c)| == 1
    ensures var prim := Script(c)[0];
            var e := Apply(prim, [], w.fs, w.running, s.outcome(|w.trail|));
            var t := ExecOk(s, w, c);
            && e.code == 0 && t.w.fs == e.fs && t.w.running == e.running && t.r == Ok(e.stdout)
            && t.w.trail == w.trail + [Event(prim, 0, e.fs, e.running)]
  {
    hide Accepts, Apply, Script;
  }

  lemma CopySuccess(s: Schedule, w: World, src: string, dst: string)
    requires Succeeds(s, w, CopyFile(src, dst))
    ensures At(w.fs, Locate(src)).Some?
    ensures At(ExecOk(s, w, CopyFile(src, dst)).w.fs, Locate(dst)) == At(w.fs, Locate(src))
  {
    hide Locate, Accepts, Do, ExecOk, Succeeds;
    SingleSuccess(s, w, CopyFile(src, dst));
  }

  lemma CatSuccess(s: Schedule, w: World, path: string)
    requires Succeeds(s, w, CatFile(path))
    ensures At(w.fs, Locate(path)) == Some(ExecOk(s, w, CatFile(path)).r.value)
  {
    hide Locate, Accepts, Do, ExecOk, Succeeds;
    SingleSuccess(s, w, CatFile(path));
  }

  lemma MkdirSuccess(s: Schedule, w: World, path: string)
    requires Succeeds(s, w, MkdirP(path))
    ensures Locate(path) in ExecOk(s, w, MkdirP(path)).w.fs.dirs
  {
    hide Locate, Accepts, Do, ExecOk, Succeeds;
    SingleSuccess(s, w, MkdirP(path));
    var l := Locate(path);
    assert l[..|l|] == l;
  }

  lemma FindSuccess(s: Schedule, w: World, path: string)
    requires Succeeds(s, w, FindBackups(path))
    ensures ListsBackups(w.fs, Locate(path), s.outcome(|w.trail|).listing)
    ensures ExecOk(s, w, FindBackups(path)).r == Ok(PrintListing(path, s.outcome(|w.trail|).listing))
  {
    hide Locate, Accepts, Do, ExecOk, Succeeds, PrintListing, ListsBackups;
    SingleSuccess(s, w, FindBackups(path));
  }

  lemma PairStep(s: Schedule, w: World, a: Prim, b: Prim)
    requires RunScript(s, w, [], [a, b]).code == 0
    ensures var e := Apply(a, [], w.fs, w.running, s.outcome(|w.trail|));
            var v := After(w, a, e);
            var d := Apply(b, e.cwd, v.fs, v.running, s.outcome(|v.trail|));
            e.code == 0 && d.code == 0 && RunScript(s, w, [], [a, b]) == Finished(After(v, b, d), 0, d.stdout)
  {
    hide Apply;
    assert [a, b][1..] == [b];
  }

  lemma EnterStep(path: string, fs: Fs, running: Option<Bytes>, o: Outcome)
    ensures var e := Apply(ChangeDir(path), [], fs, running, o);
            e.fs == fs && e.running == running && (e.code == 0 ==> e.cwd == Locate(path))
  {
    hide Locate;
  }

  lemma StartStep(cwd: Location, fs: Fs, running: Option<Bytes>, o: Outcome)
    ensures var e := Apply(Up, cwd, fs, running, o);
            e.code == 0 ==> At(fs, cwd + [COMPOSE_FILE]).Some? && e.running == At(fs, cwd + [COMPOSE_FILE])
  {
    hide KeyLocation;
  }

  lemma UpSuccess(s: Schedule, w: World, path: string)
    requires Succeeds(s, w, ComposeUp(path))
    ensures var v := ExecOk(s, w, ComposeUp(path)).w;
            && At(w.fs, Locate(path) + [COMPOSE_FILE]).Some?
            && v.running == At(w.fs, Locate(path) + [COMPOSE_FILE])
            && v.trail != [] && v.trail[|v.trail| - 1].prim == Up
  {
    hide Locate, Accepts, Apply, RunScript;
    PairStep(s, w, ChangeDir(path), Up);
    var e := Apply(ChangeDir(path), [], w.fs, w.running, s.outcome(|w.trail|));
    var v := After(w, ChangeDir(path), e);
    EnterStep(path, w.fs, w.running, s.outcome(|w.trail|));
    StartStep(e.cwd, v.fs, v.running, s.outcome(|v.trail|));
  }

  // ---------------------------------------------------------------------------
  // Writing a file is atomic
  // ---------------------------------------------------------------------------

  /** At every step the contents of `l` are what they were, or all of `content`. */
  predicate OldOrNew(w: World, v: World, l: Location, content: Bytes) {
    && w.trail <= v.trail
    && (At(v.fs, l) == At(w.fs, l) || At(v.fs, l) == Some(content))
    && forall i :: |w.trail| <= i < |v.trail| ==>
         At(v.trail[i].fs, l) == At(w.fs, l) || At(v.trail[i].fs, l) == Some(content)
  }

  /** The state after decoding into the temporary file: either it holds exactly the content, or the
      command failed; the target is untouched. */
  lemma DecodeStep(s: Schedule, w: World, path: string, content: Bytes)
    requires Locate(path) != Locate(path + TMP_SUFFIX)
    ensures var e := Apply(Decode(Base64.Encode(content), path + TMP_SUFFIX), [], w.fs, w.running, s.outcome(|w.trail|));
            && (e.code == 0 ==> At(e.fs, Locate(path + TMP_SUFFIX)) == Some(content))
            && At(e.fs, Locate(path)) == At(w.fs, Locate(path))
  {
    hide Locate;
    Base64.RoundTrip(content);
  }

  lemma MoveStep(s: Schedule, w: World, path: string, content: Bytes)
    requires At(w.fs, Locate(path + TMP_SUFFIX)) == Some(content)
    ensures var e := Apply(Move(path + TMP_SUFFIX, path), [], w.fs, w.running, s.outcome(|w.trail|));
            At(e.fs, Locate(path)) == if e.code == 0 then Some(content) else At(w.fs, Locate(path))
  {
    hide Locate;
  }

  lemma WriteScript(s: Schedule, w: World, path: string, content: Bytes)
    ensures var f := RunScript(s, w, [], Script(WriteFile(path, content)));
            OldOrNew(w, f.w, Locate(path), content) && (f.code == 0 ==> At(f.w.fs, Locate(path)) == Some(content))
  {
    hide Apply, Locate;
    TempElsewhere(path);
    var prims := Script(WriteFile(path, content));
    var e := Apply(prims[0], [], w.fs, w.running, s.outcome(|w.trail|));
    var v := After(w, prims[0], e);
    DecodeStep(s, w, path, content);
    if e.code == 0 {
      assert prims[1..] == [prims[1], prims[2]];
      var d := Apply(prims[1], e.cwd, v.fs, v.running, s.outcome(|v.trail|));
      var u := After(v, prims[1], d);
      MoveIgnoresDirectory(s, v, path, e.cwd);
      MoveStep(s, v, path, content);
      if d.code == 0 {
        assert [prims[1], prims[2]][1..] == [prims[2]];
        ApplyPassive(prims[2], d.cwd, u.fs, u.running, s.outcome(|u.trail|));
        var c := Apply(prims[2], d.cwd, u.fs, u.running, s.outcome(|u.trail|));
        assert RunScript(s, u, d.cwd, [prims[2]]) == Finished(After(u, prims[2], c), c.code, c.stdout);
        assert RunScript(s, v, e.cwd, [prims[1], prims[2]]) == RunScript(s, u, d.cwd, [prims[2]]);
      }
    }
  }

  lemma MoveIgnoresDirectory(s: Schedule, v: World, path: string, cwd: Location)
    ensures var m := Move(path + TMP_SUFFIX, path);
            Apply(m, cwd, v.fs, v.running, s.outcome(|v.trail|)).(cwd := []) ==
            Apply(m, [], v.fs, v.running, s.outcome(|v.trail|)).(cwd := [])
  {
    hide Locate;
  }

  /** Interpreting the command of `write_file`, for every path and all contents: at every step the
      file holds its old contents or exactly the new bytes, and success means the new bytes. */
  lemma WriteIsAtomic(s: Schedule, w: World, path: string, content: Bytes)
    ensures OldOrNew(w, Do(s, w, WriteFile(path, content)).w, Locate(path), content)
    ensures Succeeds(s, w, WriteFile(path, content)) ==>
              At(ExecOk(s, w, WriteFile(path, content)).w.fs, Locate(path)) == Some(content)
  {
    hide RunScript, Locate, Script, Accepts;
    WriteScript(s, w, path, content);
  }

  // ---------------------------------------------------------------------------
  // What a command sent with `exec_ok` returns
  // ---------------------------------------------------------------------------

  lemma {:induction false} ScriptCode(s: Schedule, w: World, cwd: Location, prims: seq<Prim>)
    requires prims != []
    ensures var f := RunScript(s, w, cwd, prims); |f.w.trail| > |w.trail| && f.code == f.w.trail[|f.w.trail| - 1].code
    decreases |prims|
  {
    hide Apply;
    var e := Apply(prims[0], cwd, w.fs, w.running, s.outcome(|w.trail|));
    if e.code == 0 && |prims| > 1 {
      ScriptCode(s, After(w, prims[0], e), e.cwd, prims[1..]);
    }
  }

  /** A command that was sent: a lost reply is a lost connection, and otherwise the exit code of the last
      step decides, and is the one the error carries. One that was refused changes nothing. */
  lemma ExecReturns(s: Schedule, w: World, c: Cmd)
    ensures var t := ExecOk(s, w, c);
            if !Accepts(c) then t.w == w && t.r == Err(PathError(c))
            else
              && |t.w.trail| > |w.trail|
              && var code := t.w.trail[|t.w.trail| - 1].code;
              if s.lost(|w.trail|) then t.r == Err(SshConnection)
              else if code == 0 then t.r.Ok?
              else t.r == Err(RemoteCommandFailed(code))
  {
    hide Accepts, Apply, RunScript;
    if Accepts(c) {
      ScriptCode(s, w, [], Script(c));
    }
  }
}
