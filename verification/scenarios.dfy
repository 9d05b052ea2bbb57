/** Worked runs of the default object `Chemotaxis()`: unit speed and time step,
    heading +1, start at 0 with signal 0, `maxA = 1`, `k = 1`, flat profile. */
module Scenarios {
  import opened Base
  import opened Agent
  import opened Driver
  import opened Walks
  import opened Signals
  import opened RunFacts

  /** The constructor's default arguments. */
  function Default(): Config
  {
    Config(1.0, 1.0, 1.0, 0.0, 0.0, 1.0, 1.0, Flat)
  }

  /** The default object with a linear attractant profile. */
  function Sloped(): Config
  {
    Config(1.0, 1.0, 1.0, 0.0, 0.0, 1.0, 1.0, Linear)
  }

  /** Three ticks with no tumble: one block forward per tick, the signal stays
      at 0 and every tumble probability is the mean of `minA = 0` and `maxA = 1`.
      The general walk, signal and probability facts give each list. */
  lemma {:induction false} StraightRun(E: Exponential)
    ensures RunSimulation(New(Default()), 0.0, 1.0, 3, E, [1, 1, 1]).Success?
    ensures RunSimulation(New(Default()), 0.0, 1.0, 3, E, [1, 1, 1]).value.trajectory == [0.0, 1.0, 2.0, 3.0]
    ensures RunSimulation(New(Default()), 0.0, 1.0, 3, E, [1, 1, 1]).value.sList == [0.0, 0.0, 0.0, 0.0]
    ensures RunSimulation(New(Default()), 0.0, 1.0, 3, E, [1, 1, 1]).value.tumblePs == [0.5, 0.5, 0.5]
  {
    var cfg := Default();
    assert cfg.cType == Flat && cfg.initX == 0.0 && cfg.initS == 0.0 && cfg.maxA == 1.0;
    assert cfg.initDirection * cfg.velocity * cfg.dt == 1.0;
    ThreeStraightSteps(cfg, 1.0, E);
    FlatRestingSignal(cfg, 1.0, E);
    MidpointProbabilities(cfg, 1.0, E);
  }

  /** Three +1 draws from 0 with unit stride visit 1, 2 and 3. */
  lemma {:induction false} ThreeStraightSteps(cfg: Config, tau: real, E: Exponential)
    requires !cfg.cType.Unrecognised? && tau != 0.0
    requires cfg.initX == 0.0 && cfg.initDirection * cfg.velocity * cfg.dt == 1.0
    ensures RunSimulation(New(cfg), 0.0, tau, 3, E, [1, 1, 1]).Success?
    ensures RunSimulation(New(cfg), 0.0, tau, 3, E, [1, 1, 1]).value.trajectory == [0.0, 1.0, 2.0, 3.0]
  {
    var draws: seq<Sign> := [1, 1, 1];
    var r := RunSimulation(New(cfg), 0.0, tau, 3, E, draws).value;
    StraightRunAdvancesUniformly(cfg, 0.0, tau, 3, E, draws);
    assert r.trajectory[1] == 1.0 && r.trajectory[2] == 2.0 && r.trajectory[3] == 3.0;
    FourEntries(r.trajectory, 0.0, 1.0, 2.0, 3.0);
  }

  /** On the flat profile a signal that starts at 0 stays at 0. */
  lemma {:induction false} FlatRestingSignal(cfg: Config, tau: real, E: Exponential)
    requires cfg.cType == Flat && cfg.initS == 0.0 && tau != 0.0
    ensures RunSimulation(New(cfg), 0.0, tau, 3, E, [1, 1, 1]).Success?
    ensures RunSimulation(New(cfg), 0.0, tau, 3, E, [1, 1, 1]).value.sList == [0.0, 0.0, 0.0, 0.0]
  {
    var draws: seq<Sign> := [1, 1, 1];
    var r := RunSimulation(New(cfg), 0.0, tau, 3, E, draws).value;
    FlatSignalDecay(cfg, 0.0, tau, 3, E, draws);
    assert r.sList[1] == 0.0 && r.sList[2] == 0.0 && r.sList[3] == 0.0;
    FourEntries(r.sList, 0.0, 0.0, 0.0, 0.0);
  }

  /** With the signal at rest every tumble probability is the mean of
      `minA = 0` and `maxA = 1`. */
  lemma {:induction false} MidpointProbabilities(cfg: Config, tau: real, E: Exponential)
    requires cfg.cType == Flat && cfg.initS == 0.0 && cfg.maxA == 1.0 && tau != 0.0
    ensures RunSimulation(New(cfg), 0.0, tau, 3, E, [1, 1, 1]).Success?
    ensures RunSimulation(New(cfg), 0.0, tau, 3, E, [1, 1, 1]).value.tumblePs == [0.5, 0.5, 0.5]
  {
    var draws: seq<Sign> := [1, 1, 1];
    var r := RunSimulation(New(cfg), 0.0, tau, 3, E, draws).value;
    FlatRestingSignal(cfg, tau, E);
    RunRecordedProbabilities(New(cfg), 0.0, tau, 3, E, draws);
    assert r.tumblePs[0] == 0.5 && r.tumblePs[1] == 0.5 && r.tumblePs[2] == 0.5;
  }

  /** Three ticks that each draw a tumble: the heading is multiplied by -1 on
      every tick, so the object goes back and forth instead of walking left. */
  lemma {:induction false} AlwaysTumbling(E: Exponential)
    ensures RunSimulation(New(Default()), 0.0, 1.0, 3, E, [-1, -1, -1]).Success?
    ensures RunSimulation(New(Default()), 0.0, 1.0, 3, E, [-1, -1, -1]).value.trajectory == [0.0, -1.0, 0.0, -1.0]
  {
    var st1 := Move(New(Default()), -1);
    var st2 := Move(st1, -1);
    assert Ticks(st2, Params(0.0, 1.0), E, [-1], 1).value.xs == [-1.0];
    assert Ticks(st1, Params(0.0, 1.0), E, [-1, -1], 2).value.xs == [0.0, -1.0];
  }

  /** On a linear profile the first tick senses 0 (there is no previous
      position yet) and later ticks sense the last step; with `tau = dt` the
      signal is the gradient just sensed. */
  lemma {:induction false} LinearSignal(E: Exponential)
    ensures RunSimulation(New(Sloped()), 0.0, 1.0, 3, E, [1, 1, 1]).Success?
    ensures RunSimulation(New(Sloped()), 0.0, 1.0, 3, E, [1, 1, 1]).value.sList == [0.0, 0.0, 1.0, 1.0]
  {
    var cfg := Sloped();
    assert cfg.cType == Linear && cfg.initX == 0.0 && cfg.initS == 0.0 && cfg.dt == 1.0;
    assert cfg.initDirection * cfg.velocity * cfg.dt == 1.0;
    LinearSettledSignals(cfg, E);
  }

  /** A linear-profile run from 0 with unit stride, `tau = dt` and no tumble:
      the signal is each tick's sensed gradient, 0 and then 1. */
  lemma {:induction false} LinearSettledSignals(cfg: Config, E: Exponential)
    requires cfg.cType == Linear && cfg.initX == 0.0 && cfg.initS == 0.0 && cfg.dt != 0.0
    requires cfg.initDirection * cfg.velocity * cfg.dt == 1.0
    ensures RunSimulation(New(cfg), 0.0, cfg.dt, 3, E, [1, 1, 1]).Success?
    ensures RunSimulation(New(cfg), 0.0, cfg.dt, 3, E, [1, 1, 1]).value.sList == [0.0, 0.0, 1.0, 1.0]
  {
    var draws: seq<Sign> := [1, 1, 1];
    var r := RunSimulation(New(cfg), 0.0, cfg.dt, 3, E, draws).value;
    ThreeStraightSteps(cfg, cfg.dt, E);
    SignalIsLastGradient(cfg, 0.0, 3, E, draws);
    assert SettledAt(cfg, r.trajectory, r.sList, 0);
    assert SettledAt(cfg, r.trajectory, r.sList, 1);
    assert SettledAt(cfg, r.trajectory, r.sList, 2);
    SettledValues(cfg, r.trajectory, r.sList);
  }

  /** The signals of a linear-profile run that settles on every gradient, when
      the walk goes 0, 1, 2. */
  lemma SettledValues(cfg: Config, P: seq<real>, S: seq<real>)
    requires cfg.cType == Linear && |P| == |S| == 4 && S[0] == 0.0
    requires P[0] == 0.0 && P[1] == 1.0 && P[2] == 2.0
    requires SettledAt(cfg, P, S, 0) && SettledAt(cfg, P, S, 1) && SettledAt(cfg, P, S, 2)
    ensures S == [0.0, 0.0, 1.0, 1.0]
  {
    FourEntries(S, 0.0, 0.0, 1.0, 1.0);
  }

  /** A profile name other than "flat" or "linear" makes the first `update_s`
      add `None` to a number; with no ticks at all nothing fails. */
  lemma UnknownProfile(E: Exponential)
    ensures RunSimulation(New(Default().(cType := ProfileOf("quadratic"))), 0.0, 1.0, 3, E, [1, 1, 1])
         == Failure(TypeError)
    ensures RunSimulation(New(Default().(cType := ProfileOf("quadratic"))), 0.0, 1.0, 0, E, []).Success?
  {
  }

  /** `tau = 0` divides by zero on the first tick; a negative `no_steps` is an
      empty `range` and records only the start (the plot that follows is not
      part of the model). */
  lemma ZeroTauAndNoTicks(E: Exponential)
    ensures RunSimulation(New(Default()), 0.0, 0.0, 3, E, [1, 1, 1]) == Failure(ZeroDivisionError)
    ensures RunSimulation(New(Default()), 0.0, 0.0, -1, E, []).Success?
    ensures RunSimulation(New(Default()), 0.0, 0.0, -1, E, []).value.trajectory == [0.0]
  {
  }

  /** Asking for two trajectories with one `minA` and one `tau` runs out of list
      on the second member. */
  lemma {:induction false} ShortParameterLists(E: Exponential)
    ensures MultipleTrajectories(New(Default()), 2, [0.0], [1.0], 1, E, [[1], [1]]) == Failure(IndexError)
  {
    assert TrajectoryTicks(New(Default()), Params(0.0, 1.0), E, [1], 1).Success?;
  }

  /** A list of four entries is the display of those entries. */
  lemma FourEntries(xs: seq<real>, a: real, b: real, c: real, d: real)
    requires |xs| == 4 && xs[0] == a && xs[1] == b && xs[2] == c && xs[3] == d
    ensures xs == [a, b, c, d]
  {
  }
}
