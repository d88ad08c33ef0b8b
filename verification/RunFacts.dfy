// What the phases of the protocol leave alone, and where the derived paths are.
module RunFacts {
  import opened Wrappers
  import opened Text
  import opened Paths
  import opened Commands
  import opened Shell
  import opened ShellFacts
  import opened Protocol

  // ---------------------------------------------------------------------------
  // Command lists
  // ---------------------------------------------------------------------------

  lemma {:induction false} RunAllQuiet(s: Schedule, w: World, cs: seq<Cmd>, l: Location)
    requires forall c :: c in cs ==> !MayChange(c, l)
    ensures Quiet(w, RunAll(s, w, cs).w, l)
    decreases |cs|
  {
    hide MayChange, Do;
    if cs != [] {
      var t := ExecOk(s, w, cs[0]);
      assert cs[0] in cs;
      DoQuiet(s, w, cs[0], l);
      if t.r.Ok? {
        RunAllQuiet(s, t.w, cs[1..], l);
        QuietTransitive(w, t.w, RunAll(s, t.w, cs[1..]).w, l);
      }
    }
  }

  lemma {:induction false} RunAllKeepsDir(s: Schedule, w: World, cs: seq<Cmd>, d: Location)
    requires d in w.fs.dirs && forall c :: c in cs ==> !c.RemoveTree?
    ensures KeepsDir(w, RunAll(s, w, cs).w, d)
    decreases |cs|
  {
    hide Do;
    if cs != [] {
      var t := ExecOk(s, w, cs[0]);
      assert cs[0] in cs;
      DoKeepsDir(s, w, cs[0], d);
      if t.r.Ok? {
        RunAllKeepsDir(s, t.w, cs[1..], d);
        KeepsDirTransitive(w, t.w, RunAll(s, t.w, cs[1..]).w, d);
      }
    }
  }

  lemma KeepsDirTransitive(u: World, v: World, w: World, d: Location)
    requires KeepsDir(u, v, d) && KeepsDir(v, w, d)
    ensures KeepsDir(u, w, d)
  {
    forall i | |u.trail| <= i < |w.trail|
      ensures d in w.trail[i].fs.dirs
    {
      if i < |v.trail| {
        assert w.trail[i] == v.trail[i];
      }
    }
  }

  lemma RunAllStep(s: Schedule, w: World, cs: seq<Cmd>)
    requires cs != [] && RunAll(s, w, cs).r.Ok?
    ensures Succeeds(s, w, cs[0])
    ensures RunAll(s, w, cs) == RunAll(s, ExecOk(s, w, cs[0]).w, cs[1..])
  {
    hide ExecOk;
  }

  lemma RunAllFirstStep(s: Schedule, w: World, c: Cmd, rest: seq<Cmd>)
    requires RunAll(s, w, [c] + rest).r.Ok?
    ensures Succeeds(s, w, c) && RunAll(s, w, [c] + rest) == RunAll(s, ExecOk(s, w, c).w, rest)
  {
    hide RunAll, ExecOk, Succeeds;
    RunAllStep(s, w, [c] + rest);
    assert ([c] + rest)[1..] == rest;
  }

  /** Errors of command lists are failures to run a command, never a verdict on health. */
  predicate IsTransportError(e: Error) {
    e.SshConnection? || e.RemoteCommandFailed? || e.InvalidRelayPath?
  }

  lemma {:induction false} RunAllErrors(s: Schedule, w: World, cs: seq<Cmd>)
    ensures RunAll(s, w, cs).r.Err? ==> IsTransportError(RunAll(s, w, cs).r.error)
    decreases |cs|
  {
    hide Accepts, RunScript;
    if cs != [] {
      RunAllErrors(s, ExecOk(s, w, cs[0]).w, cs[1..]);
    }
  }

  // ---------------------------------------------------------------------------
  // Reading phases change nothing
  // ---------------------------------------------------------------------------

  lemma IdleSelf(w: World)
    ensures Idle(w, w)
  {
  }

  lemma LoadStateIdle(env: Env, w: World, install: string)
    ensures Idle(w, LoadState(env, w, install).w)
  {
    hide Do, StatePath, Idle;
    var p := StatePath(install);
    DoIdle(env.remote, w, TestFileExists(p));
    var t := Do(env.remote, w, TestFileExists(p));
    DoIdle(env.remote, t.w, CatFile(p));
    IdleTransitive(w, t.w, Do(env.remote, t.w, CatFile(p)).w);
  }

  lemma CheckUpdatesIdle(env: Env, w: World, install: string)
    ensures Idle(w, CheckUpdates(env, w, install).w)
  {
    hide LoadState;
    LoadStateIdle(env, w, install);
  }

  lemma {:induction false} ProbeRoundIdle(env: Env, w: World, ports: seq<Port>)
    ensures Idle(w, ProbeRound(env, w, ports).w)
    decreases |ports|
  {
    hide Do, Idle;
    if ports == [] {
      IdleSelf(w);
    } else {
      var t := Do(env.remote, w, TcpProbe(ports[0]));
      DoIdle(env.remote, w, TcpProbe(ports[0]));
      ProbeRoundIdle(env, t.w, ports[1..]);
      IdleTransitive(w, t.w, ProbeRound(env, t.w, ports[1..]).w);
    }
  }

  lemma {:induction false} HealthLoopIdle(env: Env, w: World, deadline: int)
    ensures Idle(w, HealthLoop(env, w, deadline).w)
    decreases deadline - w.clock
  {
    hide ProbeRound;
    var t := ProbeRound(env, w, [HBBS_PORT, HBBR_PORT]);
    ProbeRoundIdle(env, w, [HBBS_PORT, HBBR_PORT]);
    if t.r == Ok(false) && t.w.clock < deadline {
      var v := Sleep(env, t.w);
      HealthLoopIdle(env, v, deadline);
      IdleTransitive(w, v, HealthLoop(env, v, deadline).w);
    }
  }

  lemma HealthCheckIdle(env: Env, w: World)
    ensures Idle(w, HealthCheck(env, w).w)
  {
    HealthLoopIdle(env, w, w.clock + env.timeout);
  }

  // ---------------------------------------------------------------------------
  // Where the files are
  // ---------------------------------------------------------------------------

  function PlaceOf(install: string, p: Place): Location {
    Locate(PathOf(install, p, false))
  }

  lemma PlacesApart(install: string, p: Place, q: Place)
    requires !SamePlace(p, q)
    ensures PlaceOf(install, p) != PlaceOf(install, q) && PlaceOf(install, p) != Locate(PathOf(install, q, true))
  {
    PlacesDistinct(install, p, q, false, false);
    PlacesDistinct(install, p, q, false, true);
  }

  lemma FixedPlaces(install: string)
    ensures KeyLocation(Locate(install)) == PlaceOf(install, Key)
    ensures Locate(install) + [COMPOSE_FILE] == PlaceOf(install, Compose)
  {
    PlaceLocation(install, Key, false);
    PlaceLocation(install, Compose, false);
    assert COMPOSE_FILE + "" == COMPOSE_FILE && "id_ed25519.pub" + "" == "id_ed25519.pub";
    assert Locate(install) + [] == Locate(install);
    assert Locate(install) + ["data"] + ["id_ed25519.pub"] == Locate(install) + ["data", "id_ed25519.pub"];
  }

  lemma WriteChanges(install: string, q: Place, content: Bytes, p: Place)
    requires !SamePlace(p, q)
    ensures !MayChange(WriteFile(PathOf(install, q, false), content), PlaceOf(install, p))
  {
    PlacesApart(install, p, q);
    TempPath(install, q);
  }

  lemma CopyChanges(install: string, src: string, q: Place, p: Place)
    requires !SamePlace(p, q)
    ensures !MayChange(CopyFile(src, PathOf(install, q, false)), PlaceOf(install, p))
  {
    PlacesApart(install, p, q);
  }

  lemma OnlyKeyIsKey(p: Place)
    ensures SamePlace(p, Key) <==> p == Key
  {
  }

  lemma UpChanges(install: string, p: Place)
    requires p != Key
    ensures !MayChange(ComposeUp(install), PlaceOf(install, p))
  {
    hide PlaceOf, Locate, KeyLocation, PathOf;
    FixedPlaces(install);
    OnlyKeyIsKey(p);
    PlacesApart(install, p, Key);
  }
}
