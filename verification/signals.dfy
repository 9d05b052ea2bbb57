/** How the internal signal evolves over a run: each entry of `s_list` is one
    Euler step from the previous one towards the gradient sensed on that tick,
    and that gradient is read off the trajectory. */
module Signals {
  import opened Base
  import opened Agent
  import opened Driver
  import opened Walks

  /** The gradient sensed on tick `n` of a run whose positions are `traj`:
      nothing on the first tick, when there is no previous position, and the
      last displacement afterwards under the linear profile. */
  function RunGradient(cfg: Config, traj: seq<real>, n: nat): real
    requires n < |traj|
  {
    if cfg.cType == Linear && n > 0 then traj[n] - traj[n - 1] else 0.0
  }

  /** Tick `j` of a run with positions `P` takes `S[j]` to `S[j + 1]` by one
      Euler step towards the gradient of tick `j`. */
  predicate EulerStep(cfg: Config, tau: real, P: seq<real>, S: seq<real>, j: nat)
    requires tau != 0.0 && |P| == |S| && j < |S| - 1
  {
    S[j + 1] == Euler(S[j], RunGradient(cfg, P, j), cfg.dt, tau)
  }

  /** `S` follows the Euler update with the gradients of `P`, from tick `from` on. */
  predicate EulerFrom(cfg: Config, tau: real, P: seq<real>, S: seq<real>, from: nat)
    requires tau != 0.0 && |P| == |S|
  {
    forall j :: from <= j < |S| - 1 ==> EulerStep(cfg, tau, P, S, j)
  }

  /** The Euler update, tick by tick, in terms of the recorded positions: tick
      `j > 0` senses the displacement of tick `j - 1` under the linear profile
      and 0 under the flat one, and tick 0 senses whatever the starting state
      senses. */
  lemma {:induction false} TicksSignalRecurrence(st: State, prm: Params, E: Exponential, draws: seq<Sign>, n: nat)
    requires |draws| >= n
    requires !st.cfg.cType.Unrecognised? && prm.tau != 0.0
    ensures Ticks(st, prm, E, draws, n).Success?
    ensures EulerFrom(st.cfg, prm.tau, [st.x] + Ticks(st, prm, E, draws, n).value.xs,
                      [st.s] + Ticks(st, prm, E, draws, n).value.ss, 1)
    ensures n > 0 ==> Ticks(st, prm, E, draws, n).value.ss[0]
                      == Euler(st.s, Gradient(st).value, st.cfg.dt, prm.tau)
    decreases n
  {
    if n > 0 {
      TicksUnfold(st, prm, E, draws, n);
      var cfg := st.cfg;
      var st1 := UpdateS(st, prm).value;
      var next := Move(st1, draws[0]);
      TicksSignalRecurrence(next, prm, E, draws[1..], n - 1);
      var t := Ticks(st, prm, E, draws, n).value;
      var t' := Ticks(next, prm, E, draws[1..], n - 1).value;
      var P, S := [st.x] + t.xs, [st.s] + t.ss;
      var P', S' := [next.x] + t'.xs, [next.s] + t'.ss;
      assert P' == P[1..] && S' == S[1..];
      assert next.xPre == Some(st.x);
      assert Gradient(next).value == RunGradient(cfg, P, 1);
      forall j | 1 <= j < |S| - 1
        ensures EulerStep(cfg, prm.tau, P, S, j)
      {
        assert S[j + 1] == S'[j] && S[j] == S'[j - 1];
        if j > 1 {
          assert EulerStep(cfg, prm.tau, P', S', j - 1);
          assert RunGradient(cfg, P', j - 1) == RunGradient(cfg, P, j);
        }
      }
    }
  }

  /** In a run, `s_list[n + 1]` is one Euler step from `s_list[n]` towards the
      gradient of tick `n`: 0 on the first tick, and under the linear profile
      the previous tick's displacement `trajectory[n] - trajectory[n - 1]`. */
  lemma {:induction false} RunSignalRecurrence(cfg: Config, minA: real, tau: real, noSteps: int, E: Exponential, draws: seq<Sign>)
    requires |draws| >= Count(noSteps)
    requires RunSimulation(New(cfg), minA, tau, noSteps, E, draws).Success?
    ensures Count(noSteps) > 0 ==>
      EulerFrom(cfg, tau, RunSimulation(New(cfg), minA, tau, noSteps, E, draws).value.trajectory,
                RunSimulation(New(cfg), minA, tau, noSteps, E, draws).value.sList, 0)
  {
    if Count(noSteps) > 0 {
      TicksSignalRecurrence(New(cfg), Params(minA, tau), E, draws, Count(noSteps));
    }
  }

  /** Tick `n` of a run leaves the signal exactly at the gradient it sensed. */
  predicate SettledAt(cfg: Config, P: seq<real>, S: seq<real>, n: nat)
    requires |P| == |S| && n < |S| - 1
  {
    S[n + 1] == RunGradient(cfg, P, n)
  }

  /** With `tau == dt` one Euler step lands on the sensed gradient: the signal
      forgets its past and `s_list[n + 1]` is the gradient of tick `n`. */
  lemma {:induction false} SignalIsLastGradient(cfg: Config, minA: real, noSteps: int, E: Exponential, draws: seq<Sign>)
    requires |draws| >= Count(noSteps)
    requires RunSimulation(New(cfg), minA, cfg.dt, noSteps, E, draws).Success?
    ensures forall n :: 0 <= n < Count(noSteps) ==>
      SettledAt(cfg, RunSimulation(New(cfg), minA, cfg.dt, noSteps, E, draws).value.trajectory,
                RunSimulation(New(cfg), minA, cfg.dt, noSteps, E, draws).value.sList, n)
  {
    if Count(noSteps) > 0 {
      var r := RunSimulation(New(cfg), minA, cfg.dt, noSteps, E, draws).value;
      RunSignalRecurrence(cfg, minA, cfg.dt, noSteps, E, draws);
      forall n | 0 <= n < Count(noSteps)
        ensures SettledAt(cfg, r.trajectory, r.sList, n)
      {
        assert EulerStep(cfg, cfg.dt, r.trajectory, r.sList, n);
        EulerAtTimeStep(r.sList[n], RunGradient(cfg, r.trajectory, n), cfg.dt);
      }
    }
  }

  /** `s + dt * (g - s) / dt == g`. */
  lemma EulerAtTimeStep(s: real, g: real, dt: real)
    requires dt != 0.0
    ensures Euler(s, g, dt, dt) == g
  {
  }

  /** With the flat profile the signal decays geometrically, whatever the
      walk does: `s_list[n] == init_s * (1 - dt/tau)^n`. */
  lemma {:induction false} FlatSignalDecay(cfg: Config, minA: real, tau: real, noSteps: int, E: Exponential, draws: seq<Sign>)
    requires |draws| >= Count(noSteps)
    requires cfg.cType == Flat
    requires RunSimulation(New(cfg), minA, tau, noSteps, E, draws).Success?
    ensures Count(noSteps) > 0 ==>
      Geometric(RunSimulation(New(cfg), minA, tau, noSteps, E, draws).value.sList, cfg.initS, 1.0 - cfg.dt / tau)
  {
    if Count(noSteps) > 0 {
      var r := RunSimulation(New(cfg), minA, tau, noSteps, E, draws).value;
      RunSignalRecurrence(cfg, minA, tau, noSteps, E, draws);
      FlatEulerIsGeometric(cfg, tau, r.trajectory, r.sList, cfg.initS);
    }
  }

  /** Under the flat profile every Euler step scales by `1 - dt/tau`, so a
      signal sequence following the Euler update is geometric. */
  lemma {:induction false} FlatEulerIsGeometric(cfg: Config, tau: real, P: seq<real>, S: seq<real>, s0: real)
    requires cfg.cType == Flat && tau != 0.0 && |P| == |S| > 0 && S[0] == s0
    requires EulerFrom(cfg, tau, P, S, 0)
    ensures Geometric(S, s0, 1.0 - cfg.dt / tau)
  {
    var c := 1.0 - cfg.dt / tau;
    forall n | 0 <= n < |S| - 1
      ensures Ratio(S, c, n)
    {
      assert EulerStep(cfg, tau, P, S, n);
      EulerTowardsZero(S[n], cfg.dt, tau);
    }
    RatiosGeometric(S, c);
  }

  /** One Euler step towards 0 scales by `1 - dt/tau`. */
  lemma EulerTowardsZero(s: real, dt: real, tau: real)
    requires tau != 0.0
    ensures Euler(s, 0.0, dt, tau) == s * (1.0 - dt / tau)
  {
  }

  /** Element `n + 1` of `xs` is `c` times element `n`. */
  predicate Ratio(xs: seq<real>, c: real, n: nat)
    requires n < |xs| - 1
  {
    xs[n + 1] == xs[n] * c
  }

  /** `xs[n] == a * c^n` for every index `n`. */
  predicate Geometric(xs: seq<real>, a: real, c: real)
  {
    forall n :: 0 <= n < |xs| ==> xs[n] == a * Pow(c, n)
  }

  /** A sequence whose every element is `c` times its predecessor is geometric. */
  lemma {:induction false} RatiosGeometric(xs: seq<real>, c: real)
    requires |xs| > 0
    requires forall n :: 0 <= n < |xs| - 1 ==> Ratio(xs, c, n)
    ensures Geometric(xs, xs[0], c)
    decreases |xs|
  {
    if |xs| > 1 {
      var init := xs[..|xs| - 1];
      forall n | 0 <= n < |init| - 1
        ensures Ratio(init, c, n)
      {
        assert Ratio(xs, c, n);
      }
      RatiosGeometric(init, c);
      var m := |xs| - 1;
      assert init[0] == xs[0];
      forall n | 0 <= n < |xs|
        ensures xs[n] == xs[0] * Pow(c, n)
      {
        if n < m {
          assert xs[n] == init[n];
        } else {
          assert xs[m - 1] == init[m - 1] == xs[0] * Pow(c, m - 1);
          assert Ratio(xs, c, m - 1);
          assert xs[m] == xs[0] * (Pow(c, m - 1) * c);
        }
      }
    }
  }

  /** Under the linear profile with a unit initial heading, the gradient sensed
      on every tick after the first is the previous tick's displacement, so it
      is `velocity * dt` up to sign. */
  lemma {:induction false} LinearGradientIsLastStep(cfg: Config, minA: real, tau: real, noSteps: int, E: Exponential, draws: seq<Sign>)
    requires |draws| >= Count(noSteps)
    requires cfg.cType == Linear
    requires cfg.initDirection == 1.0 || cfg.initDirection == -1.0
    requires RunSimulation(New(cfg), minA, tau, noSteps, E, draws).Success?
    ensures forall n :: 1 <= n < Count(noSteps) ==>
      var g := RunGradient(cfg, RunSimulation(New(cfg), minA, tau, noSteps, E, draws).value.trajectory, n);
      g == cfg.velocity * cfg.dt || g == -(cfg.velocity * cfg.dt)
  {
    var r := RunSimulation(New(cfg), minA, tau, noSteps, E, draws).value;
    var w := cfg.velocity * cfg.dt;
    RunUnitHeadingMoves(cfg, minA, tau, noSteps, E, draws);
    forall n | 1 <= n < Count(noSteps)
      ensures RunGradient(cfg, r.trajectory, n) == w || RunGradient(cfg, r.trajectory, n) == -w
    {
      assert FullStep(r.trajectory, w, n - 1);
    }
  }
}
