/** What a run records besides its positions and signal, and what it depends
    on: the tumble probabilities, the object's earlier state, and the draws. */
module RunFacts {
  import opened Base
  import opened Agent
  import opened Driver

  /** The tumble probability of each signal in `ss`, in order; every one lies
      between `minA` and `maxA`. */
  function Probs(cfg: Config, prm: Params, E: Exponential, ss: seq<real>): (ps: seq<real>)
    ensures |ps| == |ss|
    ensures forall i :: 0 <= i < |ps| ==> Min(prm.minA, cfg.maxA) <= ps[i] <= Max(prm.minA, cfg.maxA)
  {
    if ss == [] then [] else [PTumble(cfg, prm, ss[0], E)] + Probs(cfg, prm, E, ss[1..])
  }

  /** Entry `n` of `Probs` is the tumble probability of `ss[n]`. */
  lemma {:induction false} ProbsAt(cfg: Config, prm: Params, E: Exponential, ss: seq<real>, n: nat)
    requires n < |ss|
    ensures Probs(cfg, prm, E, ss)[n] == PTumble(cfg, prm, ss[n], E)
  {
    if n > 0 {
      ProbsAt(cfg, prm, E, ss[1..], n - 1);
      assert ss[1..][n - 1] == ss[n];
    }
  }

  /** The probability appended to `tumble_ps` is the one the random choice of
      the same tick uses, and it is the sigmoid of the freshly updated signal. */
  lemma {:induction false} TicksProbabilities(st: State, prm: Params, E: Exponential, draws: seq<Sign>, n: nat)
    requires |draws| >= n
    requires Ticks(st, prm, E, draws, n).Success?
    ensures Ticks(st, prm, E, draws, n).value.drawPs == Ticks(st, prm, E, draws, n).value.ps
    ensures Ticks(st, prm, E, draws, n).value.ps == Probs(st.cfg, prm, E, Ticks(st, prm, E, draws, n).value.ss)
    decreases n
  {
    if n > 0 {
      TicksUnfold(st, prm, E, draws, n);
      var st1 := UpdateS(st, prm).value;
      var next := Move(st1, draws[0]);
      TicksProbabilities(next, prm, E, draws[1..], n - 1);
      var ss := Ticks(next, prm, E, draws[1..], n - 1).value.ss;
      assert ([st1.s] + ss)[1..] == ss;
    }
  }

  /** `tumble_ps[n]` is the probability of tick `n`'s random choice: the sigmoid
      of `s_list[n + 1]`, between `minA` and `maxA`. */
  lemma {:induction false} RunRecordedProbabilities(st: State, minA: real, tau: real, noSteps: int, E: Exponential, draws: seq<Sign>)
    requires |draws| >= Count(noSteps)
    requires RunSimulation(st, minA, tau, noSteps, E, draws).Success?
    ensures var r := RunSimulation(st, minA, tau, noSteps, E, draws).value;
      && r.drawPs == r.tumblePs
      && forall n :: 0 <= n < Count(noSteps) ==>
           && r.tumblePs[n] == PTumble(st.cfg, Params(minA, tau), r.sList[n + 1], E)
           && Min(minA, st.cfg.maxA) <= r.tumblePs[n] <= Max(minA, st.cfg.maxA)
  {
    TicksProbabilities(Reset(st), Params(minA, tau), E, draws, Count(noSteps));
    var r := RunSimulation(st, minA, tau, noSteps, E, draws).value;
    forall n | 0 <= n < Count(noSteps)
      ensures r.tumblePs[n] == PTumble(st.cfg, Params(minA, tau), r.sList[n + 1], E)
    {
      var ss := Ticks(Reset(st), Params(minA, tau), E, draws, Count(noSteps)).value.ss;
      ProbsAt(st.cfg, Params(minA, tau), E, ss, n);
      assert r.sList[n + 1] == ss[n];
    }
  }

  /** A run starts from the reset state, so nothing of an earlier run on the
      same object reaches its results. */
  lemma RunSimulationIgnoresPriorState(st: State, minA: real, tau: real, noSteps: int, E: Exponential, draws: seq<Sign>)
    requires |draws| >= Count(noSteps)
    ensures RunSimulation(st, minA, tau, noSteps, E, draws) == RunSimulation(New(st.cfg), minA, tau, noSteps, E, draws)
  {
  }

  /** Ticks read only the first `n` draws. */
  lemma {:induction false} TicksUseOnlyTheirDraws(st: State, prm: Params, E: Exponential, draws: seq<Sign>, n: nat)
    requires |draws| >= n
    ensures Ticks(st, prm, E, draws, n) == Ticks(st, prm, E, draws[..n], n)
    decreases n
  {
    if n > 0 {
      var d := draws[..n];
      assert d[0] == draws[0];
      assert d[1..] == draws[1..][..n - 1];
      if UpdateS(st, prm).Success? {
        var next := Move(UpdateS(st, prm).value, draws[0]);
        TicksUseOnlyTheirDraws(next, prm, E, draws[1..], n - 1);
      }
    }
  }

  /** A run's results are determined by the object's configuration, `minA`,
      `tau`, `no_steps` and the draws of its own ticks. */
  lemma {:induction false} RunDependsOnlyOnItsDraws(st: State, minA: real, tau: real, noSteps: int, E: Exponential, draws: seq<Sign>)
    requires |draws| >= Count(noSteps)
    ensures RunSimulation(st, minA, tau, noSteps, E, draws)
         == RunSimulation(New(st.cfg), minA, tau, noSteps, E, draws[..Count(noSteps)])
  {
    TicksUseOnlyTheirDraws(Reset(st), Params(minA, tau), E, draws, Count(noSteps));
  }
}
