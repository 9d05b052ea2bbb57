/** The walk of a run on its own. `update_s` changes only the signal and
    `p_tumble` only reads it, so the positions a run visits are fixed by the
    initial position, the initial heading, `velocity`, `dt` and the draws: `Walk` computes them
    from the kinematics of `take_one_step` alone, and the lemmas here say how
    far each tick goes. */
module Walks {
  import opened Base
  import opened Agent
  import opened Driver

  /** The positions after each step, and the heading at the end. */
  datatype Path = Path(xs: seq<real>, heading: real)

  /** `n` steps from position `x` with heading `direction`, one draw each; the
      final heading is the initial one up to sign. */
  function Walk(cfg: Config, x: real, direction: real, draws: seq<Sign>, n: nat): (r: Path)
    requires |draws| >= n
    ensures |r.xs| == n
    ensures r.heading == direction || r.heading == -direction
    decreases n
  {
    if n == 0 then Path([], direction)
    else
      var pose := Advance(cfg, x, direction, draws[0]);
      var rest := Walk(cfg, pose.x, pose.direction, draws[1..], n - 1);
      Path([pose.x] + rest.xs, rest.heading)
  }

  /** The positions `Ticks` records are the walk's, and it ends with the walk's heading. */
  lemma {:induction false} TicksWalk(st: State, prm: Params, E: Exponential, draws: seq<Sign>, n: nat)
    requires |draws| >= n
    requires Ticks(st, prm, E, draws, n).Success?
    ensures Ticks(st, prm, E, draws, n).value.xs == Walk(st.cfg, st.x, st.direction, draws, n).xs
    ensures Ticks(st, prm, E, draws, n).value.last.direction == Walk(st.cfg, st.x, st.direction, draws, n).heading
    decreases n
  {
    if n > 0 {
      TicksUnfold(st, prm, E, draws, n);
      var next := Move(UpdateS(st, prm).value, draws[0]);
      TicksWalk(next, prm, E, draws[1..], n - 1);
    }
  }

  /** A run's trajectory is its initial position followed by the walk from the
      initial position and heading at `velocity * dt` per step, whatever `minA`,
      `tau` and the profile are. */
  lemma {:induction false} RunWalk(st: State, minA: real, tau: real, noSteps: int, E: Exponential, draws: seq<Sign>)
    requires |draws| >= Count(noSteps)
    requires RunSimulation(st, minA, tau, noSteps, E, draws).Success?
    ensures RunSimulation(st, minA, tau, noSteps, E, draws).value.trajectory
         == [st.cfg.initX] + Walk(st.cfg, st.cfg.initX, st.cfg.initDirection, draws, Count(noSteps)).xs
    ensures RunSimulation(st, minA, tau, noSteps, E, draws).value.last.direction
         == Walk(st.cfg, st.cfg.initX, st.cfg.initDirection, draws, Count(noSteps)).heading
  {
    TicksWalk(Reset(st), Params(minA, tau), E, draws, Count(noSteps));
  }

  /** Entry `j + 1` of `P` differs from entry `j` by `w` or by `-w`. */
  predicate FullStep(P: seq<real>, w: real, j: nat)
    requires j < |P| - 1
  {
    P[j + 1] - P[j] == w || P[j + 1] - P[j] == -w
  }

  /** Consecutive entries of `P` differ by `w` or by `-w`. */
  predicate FullSteps(P: seq<real>, w: real)
  {
    forall j :: 0 <= j < |P| - 1 ==> FullStep(P, w, j)
  }

  /** A full step in front of full steps gives full steps. */
  lemma {:induction false} FullStepsCons(a: real, Q: seq<real>, w: real)
    requires |Q| > 0 && (Q[0] - a == w || Q[0] - a == -w)
    requires FullSteps(Q, w)
    ensures FullSteps([a] + Q, w)
  {
    var P := [a] + Q;
    forall j | 0 <= j < |P| - 1
      ensures FullStep(P, w, j)
    {
      if j > 0 {
        assert FullStep(Q, w, j - 1);
        assert P[j + 1] == Q[j] && P[j] == Q[j - 1];
      }
    }
  }

  /** When `direction * velocity * dt` is `w` or `-w`, one step covers `w` in
      one direction or the other, and the same holds for the new heading. */
  lemma {:induction false} AdvanceByStride(cfg: Config, x: real, direction: real, draw: Sign, w: real)
    requires direction * cfg.velocity * cfg.dt == w || direction * cfg.velocity * cfg.dt == -w
    ensures Advance(cfg, x, direction, draw).direction * cfg.velocity * cfg.dt == w ||
            Advance(cfg, x, direction, draw).direction * cfg.velocity * cfg.dt == -w
    ensures Advance(cfg, x, direction, draw).x - x == w || Advance(cfg, x, direction, draw).x - x == -w
  {
    if draw == -1 {
      assert (-direction) * cfg.velocity * cfg.dt == -(direction * cfg.velocity * cfg.dt);
    }
  }

  /** Every step of a walk covers `w` in one direction or the other, where
      `w` is the initial `direction * velocity * dt` up to sign. */
  lemma {:induction false} WalkMoves(cfg: Config, x: real, direction: real, draws: seq<Sign>, n: nat, w: real)
    requires |draws| >= n
    requires direction * cfg.velocity * cfg.dt == w || direction * cfg.velocity * cfg.dt == -w
    ensures FullSteps([x] + Walk(cfg, x, direction, draws, n).xs, w)
    decreases n
  {
    if n > 0 {
      var pose := Advance(cfg, x, direction, draws[0]);
      AdvanceByStride(cfg, x, direction, draws[0], w);
      WalkMoves(cfg, pose.x, pose.direction, draws[1..], n - 1, w);
      FullStepsCons(x, [pose.x] + Walk(cfg, pose.x, pose.direction, draws[1..], n - 1).xs, w);
    }
  }

  /** Consecutive trajectory entries differ by `init_direction * velocity * dt`
      up to sign. */
  lemma {:induction false} RunMovesAreFullSteps(cfg: Config, minA: real, tau: real, noSteps: int, E: Exponential, draws: seq<Sign>)
    requires |draws| >= Count(noSteps)
    requires RunSimulation(New(cfg), minA, tau, noSteps, E, draws).Success?
    ensures FullSteps(RunSimulation(New(cfg), minA, tau, noSteps, E, draws).value.trajectory,
                      cfg.initDirection * cfg.velocity * cfg.dt)
  {
    WalkStride(cfg, cfg.initX, cfg.initDirection, draws, Count(noSteps));
    RunWalk(New(cfg), minA, tau, noSteps, E, draws);
  }

  /** With a unit initial heading the heading stays a unit and consecutive
      trajectory entries differ by `velocity * dt` up to sign. */
  lemma {:induction false} RunUnitHeadingMoves(cfg: Config, minA: real, tau: real, noSteps: int, E: Exponential, draws: seq<Sign>)
    requires |draws| >= Count(noSteps)
    requires cfg.initDirection == 1.0 || cfg.initDirection == -1.0
    requires RunSimulation(New(cfg), minA, tau, noSteps, E, draws).Success?
    ensures FullSteps(RunSimulation(New(cfg), minA, tau, noSteps, E, draws).value.trajectory, cfg.velocity * cfg.dt)
    ensures RunSimulation(New(cfg), minA, tau, noSteps, E, draws).value.last.direction == 1.0 ||
            RunSimulation(New(cfg), minA, tau, noSteps, E, draws).value.last.direction == -1.0
  {
    WalkUnitMoves(cfg, cfg.initX, cfg.initDirection, draws, Count(noSteps));
    RunWalk(New(cfg), minA, tau, noSteps, E, draws);
  }

  /** Every step of a walk covers `direction * velocity * dt` of its start, up to sign. */
  lemma {:induction false} WalkStride(cfg: Config, x: real, direction: real, draws: seq<Sign>, n: nat)
    requires |draws| >= n
    ensures FullSteps([x] + Walk(cfg, x, direction, draws, n).xs, direction * cfg.velocity * cfg.dt)
  {
    WalkMoves(cfg, x, direction, draws, n, direction * cfg.velocity * cfg.dt);
  }

  /** A walk from a unit heading keeps a unit heading and moves by
      `velocity * dt` up to sign on every step. */
  lemma {:induction false} WalkUnitMoves(cfg: Config, x: real, direction: real, draws: seq<Sign>, n: nat)
    requires |draws| >= n
    requires direction == 1.0 || direction == -1.0
    ensures FullSteps([x] + Walk(cfg, x, direction, draws, n).xs, cfg.velocity * cfg.dt)
    ensures Walk(cfg, x, direction, draws, n).heading == 1.0 || Walk(cfg, x, direction, draws, n).heading == -1.0
  {
    assert direction * cfg.velocity * cfg.dt == cfg.velocity * cfg.dt ||
           direction * cfg.velocity * cfg.dt == -(cfg.velocity * cfg.dt);
    WalkMoves(cfg, x, direction, draws, n, cfg.velocity * cfg.dt);
  }

  /** `P` advances by exactly `w` per index from `a`. */
  predicate Uniform(P: seq<real>, a: real, w: real)
  {
    forall j :: 0 <= j < |P| ==> P[j] == a + (j as real) * w
  }

  /** Putting `a` in front of a uniform advance from `a + w` gives a uniform advance from `a`. */
  lemma {:induction false} UniformCons(a: real, Q: seq<real>, w: real)
    requires Uniform(Q, a + w, w)
    ensures Uniform([a] + Q, a, w)
  {
    var P := [a] + Q;
    forall j | 1 <= j < |P|
      ensures P[j] == a + (j as real) * w
    {
      assert P[j] == Q[j - 1] == a + w + ((j - 1) as real) * w;
    }
  }

  /** A +1 draw keeps the heading and moves one full stride along it. */
  lemma AdvanceStraight(cfg: Config, x: real, direction: real)
    ensures Advance(cfg, x, direction, 1) == Pose(x + direction * cfg.velocity * cfg.dt, direction)
  {
  }

  /** When every draw is +1 the heading never changes and step `j` ends at
      `x + j * direction * velocity * dt`. */
  lemma {:induction false} WalkStraight(cfg: Config, x: real, direction: real, draws: seq<Sign>, n: nat)
    requires |draws| >= n
    requires forall i :: 0 <= i < n ==> draws[i] == 1
    ensures Uniform([x] + Walk(cfg, x, direction, draws, n).xs, x, direction * cfg.velocity * cfg.dt)
    ensures Walk(cfg, x, direction, draws, n).heading == direction
    decreases n
  {
    if n > 0 {
      var w := direction * cfg.velocity * cfg.dt;
      AdvanceStraight(cfg, x, direction);
      assert draws[0] == 1;
      var pose := Pose(x + w, direction);
      assert Advance(cfg, x, direction, draws[0]) == pose;
      assert forall i :: 0 <= i < n - 1 ==> draws[1..][i] == 1 by {
        forall i | 0 <= i < n - 1
          ensures draws[1..][i] == 1
        {
          assert draws[1..][i] == draws[i + 1];
        }
      }
      WalkStraight(cfg, x + w, direction, draws[1..], n - 1);
      var rest := Walk(cfg, x + w, direction, draws[1..], n - 1);
      assert Walk(cfg, x, direction, draws, n) == Path([x + w] + rest.xs, rest.heading);
      UniformCons(x, [x + w] + rest.xs, w);
    }
  }

  /** If no draw of the run is a tumble, `trajectory[n] == init_x + n * init_direction * velocity * dt`
      and the heading never changes. */
  lemma {:induction false} StraightRunAdvancesUniformly(cfg: Config, minA: real, tau: real, noSteps: int, E: Exponential, draws: seq<Sign>)
    requires |draws| >= Count(noSteps)
    requires forall i :: 0 <= i < Count(noSteps) ==> draws[i] == 1
    requires RunSimulation(New(cfg), minA, tau, noSteps, E, draws).Success?
    ensures RunSimulation(New(cfg), minA, tau, noSteps, E, draws).value.last.direction == cfg.initDirection
    ensures Uniform(RunSimulation(New(cfg), minA, tau, noSteps, E, draws).value.trajectory,
                    cfg.initX, cfg.initDirection * cfg.velocity * cfg.dt)
  {
    WalkStraight(cfg, cfg.initX, cfg.initDirection, draws, Count(noSteps));
    RunWalk(New(cfg), minA, tau, noSteps, E, draws);
  }
}
