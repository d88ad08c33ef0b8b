// How long a health check can take.
module HealthTime {
  import opened Wrappers
  import opened Commands
  import opened Shell
  import opened Protocol
  import opened RunFacts
  import opened UpdateTheorems

  /** Rounds begun in a stretch of the trail: probes of the first port. */
  function Rounds(events: seq<Event>): nat {
    if events == [] then 0 else (if events[0].prim == Probe(HBBS_PORT) then 1 else 0) + Rounds(events[1..])
  }

  function Since(w: World, v: World): seq<Event>
    requires |w.trail| <= |v.trail|
  {
    v.trail[|w.trail|..]
  }

  lemma SinceAdds(u: World, v: World, w: World)
    requires |u.trail| <= |v.trail| && v.trail[..|u.trail|] == u.trail
    requires |v.trail| <= |w.trail| && w.trail[..|v.trail|] == v.trail
    ensures Since(u, w) == Since(u, v) + Since(v, w) && w.trail[..|u.trail|] == u.trail
  {
    var a, b := |u.trail|, |v.trail|;
    assert w.trail[a..b] == w.trail[..b][a..] == v.trail[a..];
    assert w.trail[..a] == w.trail[..b][..a];
  }

  lemma {:induction false} RoundsAdd(a: seq<Event>, b: seq<Event>)
    ensures Rounds(a + b) == Rounds(a) + Rounds(b)
  {
    if a == [] {
      assert a + b == b;
    } else {
      RoundsAdd(a[1..], b);
      assert (a + b)[1..] == a[1..] + b;
    }
  }

  lemma ProbeStep(s: Schedule, w: World, port: Port)
    ensures var v := Do(s, w, TcpProbe(port)).w;
            |v.trail| == |w.trail| + 1 && v.trail[..|w.trail|] == w.trail && v.trail[|w.trail|].prim == Probe(port)
  {
  }

  lemma OneRound(env: Env, w: World)
    ensures var v := ProbeRound(env, w, [HBBS_PORT, HBBR_PORT]).w;
            |w.trail| <= |v.trail| && v.trail[..|w.trail|] == w.trail && Rounds(Since(w, v)) == 1
  {
    hide Do;
    var ports := [HBBS_PORT, HBBR_PORT];
    assert ports[1..] == [HBBR_PORT] && [HBBR_PORT][1..] == [];
    var t := Do(env.remote, w, TcpProbe(HBBS_PORT));
    ProbeStep(env.remote, w, HBBS_PORT);
    assert Since(w, t.w) == [t.w.trail[|w.trail|]];
    if t.r.Ok? && t.r.value.code == 0 {
      ProbeStep(env.remote, t.w, HBBR_PORT);
      var u := Do(env.remote, t.w, TcpProbe(HBBR_PORT));
      assert ProbeRound(env, w, ports) == ProbeRound(env, t.w, [HBBR_PORT]);
      assert ProbeRound(env, t.w, [HBBR_PORT]).w == u.w by {
        assert ProbeRound(env, u.w, []) == Run(u.w, Ok(true));
      }
      assert Since(w, u.w) == [t.w.trail[|w.trail|]] + [u.w.trail[|t.w.trail|]];
      RoundsAdd([t.w.trail[|w.trail|]], [u.w.trail[|t.w.trail|]]);
    }
  }

  function Positive(x: int): nat {
    if x > 0 then x else 0
  }

  lemma LessThanOne(r: nat, i: nat)
    requires i > 0 && (r - 1) * i < i
    ensures r <= 1
  {
  }

  /** Every round but the last is followed by a full sleep that began before the deadline. */
  lemma {:induction false} RoundsBounded(env: Env, w: World, deadline: int)
    requires env.interval > 0
    ensures var v := HealthLoop(env, w, deadline).w;
            && |w.trail| <= |v.trail| && v.trail[..|w.trail|] == w.trail
            && Rounds(Since(w, v)) >= 1
            && (Rounds(Since(w, v)) - 1) * env.interval < Positive(deadline - w.clock) + env.interval
    decreases deadline - w.clock
  {
    hide ProbeRound;
    OneRound(env, w);
    var t := ProbeRound(env, w, [HBBS_PORT, HBBR_PORT]);
    if t.r == Ok(false) && t.w.clock < deadline {
      var next := Sleep(env, t.w);
      RoundsBounded(env, next, deadline);
      var v := HealthLoop(env, next, deadline).w;
      SinceAdds(w, t.w, v);
      assert next.trail == t.w.trail;
      RoundsAdd(Since(w, t.w), Since(next, v));
      NextRound(Rounds(Since(next, v)), env.interval, deadline - w.clock, deadline - next.clock);
    }
  }

  lemma NextRound(r: nat, i: nat, gap: int, left: int)
    requires i > 0 && r >= 1 && gap > 0 && left < gap - i
    requires (r - 1) * i < Positive(left) + i
    ensures r * i < gap + i
  {
    assert r * i == (r - 1) * i + i;
    if gap < i {
      LessThanOne(r, i);
      assert r * i == i;
    }
  }

  lemma CeilingBound(r: nat, i: nat, t: nat)
    requires i > 0 && r >= 1 && (r - 1) * i < t + i
    ensures r <= (t + i - 1) / i + 1
  {
    var q := (t + i - 1) / i;
    assert (q + 1) * i > t + i - 1;
    assert r - 1 >= q + 1 ==> (r - 1) * i >= (q + 1) * i;
  }

  /** Termination in time: with interval I > 0 and timeout T a health check makes at least one round
      and at most ceil(T / I) + 1, whatever the probes answer; if it reports failure the timeout
      has passed, and if it reports success one single round saw every port. */
  lemma HealthCheckBounded(env: Env, w: World)
    requires env.interval > 0
    ensures var t := HealthCheck(env, w);
            && |w.trail| <= |t.w.trail|
            && 1 <= Rounds(Since(w, t.w)) <= (env.timeout + env.interval - 1) / env.interval + 1
            && (t.r == Err(RelayHealthCheckFailed) ==> t.w.clock >= w.clock + env.timeout)
            && (t.r.Ok? ==> EndsHealthy(t.w.trail))
  {
    hide HealthLoop, ProbeRound;
    var deadline := w.clock + env.timeout;
    RoundsBounded(env, w, deadline);
    CeilingBound(Rounds(Since(w, HealthCheck(env, w).w)), env.interval, env.timeout);
    FailureIsLate(env, w, deadline);
    if HealthCheck(env, w).r.Ok? {
      HealthyMeansOneRound(env, w, deadline);
    }
  }

  lemma {:induction false} FailureIsLate(env: Env, w: World, deadline: int)
    ensures HealthLoop(env, w, deadline).r == Err(RelayHealthCheckFailed) ==> HealthLoop(env, w, deadline).w.clock >= deadline
    decreases deadline - w.clock
  {
    hide ProbeRound;
    var t := ProbeRound(env, w, [HBBS_PORT, HBBR_PORT]);
    ProbeRoundErrors(env, w, [HBBS_PORT, HBBR_PORT]);
    if t.r == Ok(false) && t.w.clock < deadline {
      FailureIsLate(env, Sleep(env, t.w), deadline);
    }
  }

  lemma {:induction false} ProbeRoundErrors(env: Env, w: World, ports: seq<Port>)
    ensures ProbeRound(env, w, ports).r.Err? ==> IsTransportError(ProbeRound(env, w, ports).r.error)
    decreases |ports|
  {
    hide Do;
    if ports != [] {
      DoErrors(env.remote, w, TcpProbe(ports[0]));
      ProbeRoundErrors(env, Do(env.remote, w, TcpProbe(ports[0])).w, ports[1..]);
    }
  }

  lemma LoopGrows(env: Env, w: World, deadline: int)
    ensures |HealthLoop(env, w, deadline).w.trail| > |w.trail|
  {
    hide ProbeRound;
    OneRound(env, w);
    assert Rounds([]) == 0;
  }

  /** When the first probe is answered with a failure: the check gives up there and then if the timeout has
      passed by that time, to the instant, and otherwise goes on to another round. */
  lemma GivesUpOnTime(env: Env, w: World)
    requires env.remote.outcome(|w.trail|).exit != 0 && !env.remote.lost(|w.trail|)
    ensures var h, answered := HealthCheck(env, w), 1 + env.remote.delay(|w.trail|);
            if answered >= env.timeout then
              h.r == Err(RelayHealthCheckFailed) && |h.w.trail| == |w.trail| + 1 && h.w.clock == w.clock + answered
            else |h.w.trail| >= |w.trail| + 2
  {
    var ports, deadline := [HBBS_PORT, HBBR_PORT], w.clock + env.timeout;
    var c := TcpProbe(HBBS_PORT);
    assert Script(c) == [Probe(HBBS_PORT)];
    var t := Do(env.remote, w, c);
    assert t.r == Ok(Output("", env.remote.outcome(|w.trail|).exit));
    assert t.w.clock == w.clock + 1 + env.remote.delay(|w.trail|) && |t.w.trail| == |w.trail| + 1;
    assert ProbeRound(env, w, ports) == Run(t.w, Ok(false));
    hide Do, ProbeRound;
    if t.w.clock < deadline {
      LoopGrows(env, Sleep(env, t.w), deadline);
    }
  }
}
