/** `plt_multiple_traj` is `N` independent runs: each member's trajectory is
    exactly what `run_simulation` would record for a fresh object with that
    member's `minA` and `tau` and the member's own draws. */
module Ensemble {
  import opened Base
  import opened Agent
  import opened Driver

  /** The inner loop of `plt_multiple_traj` is the loop of `run_simulation`
      without the recording of signals and probabilities: the same positions,
      the same end state and the same exceptions. */
  lemma {:induction false} TrajectoryTicksAgree(st: State, prm: Params, E: Exponential, draws: seq<Sign>, n: nat)
    requires |draws| >= n
    ensures Ticks(st, prm, E, draws, n).Failure? ==>
      TrajectoryTicks(st, prm, E, draws, n) == Failure(Ticks(st, prm, E, draws, n).fault)
    ensures Ticks(st, prm, E, draws, n).Success? ==>
      TrajectoryTicks(st, prm, E, draws, n)
        == Success((Ticks(st, prm, E, draws, n).value.xs, Ticks(st, prm, E, draws, n).value.last))
    decreases n
  {
    if n > 0 && UpdateS(st, prm).Success? {
      var next := Move(UpdateS(st, prm).value, draws[0]);
      TrajectoryTicksAgree(next, prm, E, draws[1..], n - 1);
    }
  }

  /** `traj` is what `run_simulation(minA, tau, steps)` records as its
      trajectory on a fresh object of configuration `cfg` given `draws`. */
  predicate SingleRun(cfg: Config, minA: real, tau: real, steps: nat, E: Exponential, draws: seq<Sign>,
                      traj: seq<real>)
    requires |draws| >= steps
  {
    && RunSimulation(New(cfg), minA, tau, steps, E, draws).Success?
    && traj == RunSimulation(New(cfg), minA, tau, steps, E, draws).value.trajectory
  }

  /** The first member's trajectory is a single run. */
  lemma {:induction false} MemberIsSingleRun(st: State, minA: real, tau: real, steps: nat, E: Exponential, draws: seq<Sign>)
    requires |draws| >= steps
    requires TrajectoryTicks(Reset(st), Params(minA, tau), E, draws, steps).Success?
    ensures SingleRun(st.cfg, minA, tau, steps, E, draws,
                      [st.cfg.initX] + TrajectoryTicks(Reset(st), Params(minA, tau), E, draws, steps).value.0)
  {
    TrajectoryTicksAgree(Reset(st), Params(minA, tau), E, draws, steps);
  }

  /** The blocks after the first cover the members after the first. */
  lemma {:induction false} BlocksCoverTail(blocks: seq<seq<Sign>>, count: nat, steps: nat)
    requires BlocksCover(blocks, count, steps) && count > 0
    ensures BlocksCover(blocks[1..], count - 1, steps)
  {
    forall i | 0 <= i < count - 1
      ensures |blocks[1..][i]| >= steps
    {
      assert blocks[1..][i] == blocks[i + 1];
    }
  }

  /** One member of `Members` spelled out: the first member's ticks, then the
      remaining members started from the object those ticks leave behind. */
  lemma MembersUnfold(st: State, minAs: seq<real>, taus: seq<real>, count: nat, steps: nat,
                      E: Exponential, blocks: seq<seq<Sign>>)
    requires BlocksCover(blocks, count, steps) && count > 0
    requires Members(st, minAs, taus, count, steps, E, blocks).Success?
    ensures |minAs| > 0 && |taus| > 0
    ensures TrajectoryTicks(Reset(st), Params(minAs[0], taus[0]), E, blocks[0], steps).Success?
    ensures Members(TrajectoryTicks(Reset(st), Params(minAs[0], taus[0]), E, blocks[0], steps).value.1,
                    minAs[1..], taus[1..], count - 1, steps, E, blocks[1..]).Success?
    ensures Members(st, minAs, taus, count, steps, E, blocks).value
         == [[st.cfg.initX] + TrajectoryTicks(Reset(st), Params(minAs[0], taus[0]), E, blocks[0], steps).value.0]
            + Members(TrajectoryTicks(Reset(st), Params(minAs[0], taus[0]), E, blocks[0], steps).value.1,
                      minAs[1..], taus[1..], count - 1, steps, E, blocks[1..]).value
  {
  }

  /** Member `i` of a successful ensemble is the start position followed by
      the ticks of a fresh object with `minAs[i]`, `taus[i]` and `blocks[i]`. */
  lemma {:induction false} MemberAt(st: State, minAs: seq<real>, taus: seq<real>, count: nat, steps: nat,
                                    E: Exponential, blocks: seq<seq<Sign>>, i: nat)
    requires BlocksCover(blocks, count, steps) && i < count
    requires Members(st, minAs, taus, count, steps, E, blocks).Success?
    ensures i < |minAs| && i < |taus|
    ensures TrajectoryTicks(New(st.cfg), Params(minAs[i], taus[i]), E, blocks[i], steps).Success?
    ensures Members(st, minAs, taus, count, steps, E, blocks).value[i]
         == [st.cfg.initX] + TrajectoryTicks(New(st.cfg), Params(minAs[i], taus[i]), E, blocks[i], steps).value.0
    decreases i
  {
    MembersUnfold(st, minAs, taus, count, steps, E, blocks);
    if i > 0 {
      BlocksCoverTail(blocks, count, steps);
      MemberAt(TrajectoryTicks(Reset(st), Params(minAs[0], taus[0]), E, blocks[0], steps).value.1,
               minAs[1..], taus[1..], count - 1, steps, E, blocks[1..], i - 1);
      MemberShift(st.cfg, TrajectoryTicks(Reset(st), Params(minAs[0], taus[0]), E, blocks[0], steps).value.1.cfg,
                  minAs, taus, blocks, i);
    }
  }

  /** Member `i` of the lists is member `i - 1` of their tails. */
  lemma MemberShift(cfg: Config, cfg': Config, minAs: seq<real>, taus: seq<real>, blocks: seq<seq<Sign>>, i: nat)
    requires 0 < i < |minAs| && i < |taus| && i < |blocks| && cfg' == cfg
    ensures New(cfg') == New(cfg) && minAs[1..][i - 1] == minAs[i] && taus[1..][i - 1] == taus[i] && blocks[1..][i - 1] == blocks[i]
  {
  }

  /** When the ensemble succeeds, both lists had an entry for every member and
      trajectory `i` is the run of a fresh object with `minAs[i]`, `taus[i]`
      and the draws `blocks[i]`. */
  lemma {:induction false} MembersAreSingleRuns(st: State, minAs: seq<real>, taus: seq<real>, count: nat, steps: nat,
                             E: Exponential, blocks: seq<seq<Sign>>)
    requires BlocksCover(blocks, count, steps)
    requires Members(st, minAs, taus, count, steps, E, blocks).Success?
    ensures count <= |minAs| && count <= |taus|
    ensures forall i :: 0 <= i < count ==>
      SingleRun(st.cfg, minAs[i], taus[i], steps, E, blocks[i], Members(st, minAs, taus, count, steps, E, blocks).value[i])
  {
    if count > 0 {
      MemberAt(st, minAs, taus, count, steps, E, blocks, count - 1);
    }
    forall i | 0 <= i < count
      ensures SingleRun(st.cfg, minAs[i], taus[i], steps, E, blocks[i], Members(st, minAs, taus, count, steps, E, blocks).value[i])
    {
      MemberAt(st, minAs, taus, count, steps, E, blocks, i);
      MemberIsSingleRun(New(st.cfg), minAs[i], taus[i], steps, E, blocks[i]);
    }
  }

  /** Every member can run its ticks: nothing to simulate, or each of the
      first `count` members meets a known profile and has a nonzero `tau`. */
  predicate Runnable(cfg: Config, taus: seq<real>, count: nat, steps: nat)
    requires count <= |taus|
  {
    steps == 0 || forall i :: 0 <= i < count ==> !cfg.cType.Unrecognised? && taus[i] != 0.0
  }

  /** The members are runnable exactly when the first is and the rest are. */
  lemma {:induction false} RunnableTail(cfg: Config, taus: seq<real>, count: nat, steps: nat)
    requires 0 < count <= |taus|
    ensures Runnable(cfg, taus, count, steps) <==>
      (steps == 0 || (!cfg.cType.Unrecognised? && taus[0] != 0.0)) && Runnable(cfg, taus[1..], count - 1, steps)
  {
    if steps != 0 {
      if Runnable(cfg, taus, count, steps) {
        assert !cfg.cType.Unrecognised? && taus[0] != 0.0;
        forall i | 0 <= i < count - 1
          ensures !cfg.cType.Unrecognised? && taus[1..][i] != 0.0
        {
          assert taus[1..][i] == taus[i + 1];
        }
      }
      if !cfg.cType.Unrecognised? && taus[0] != 0.0 && Runnable(cfg, taus[1..], count - 1, steps) {
        forall i | 0 <= i < count
          ensures !cfg.cType.Unrecognised? && taus[i] != 0.0
        {
          if i > 0 {
            assert taus[i] == taus[1..][i - 1];
          }
        }
      }
    }
  }

  /** The inner loop of `plt_multiple_traj` fails exactly when the loop of
      `run_simulation` would: some tick to run, and an unknown profile or
      `tau == 0`. */
  lemma {:induction false} TrajectoryTicksSucceed(st: State, prm: Params, E: Exponential, draws: seq<Sign>, n: nat)
    requires |draws| >= n
    ensures TrajectoryTicks(st, prm, E, draws, n).Success? <==> n == 0 || (!st.cfg.cType.Unrecognised? && prm.tau != 0.0)
  {
    TrajectoryTicksAgree(st, prm, E, draws, n);
  }

  /** After a first member that runs, the ensemble succeeds exactly when the
      remaining members, started from where the first left the object, do. */
  lemma {:induction false} MembersStep(st: State, minAs: seq<real>, taus: seq<real>, count: nat, steps: nat,
                    E: Exponential, blocks: seq<seq<Sign>>)
    requires BlocksCover(blocks, count, steps) && count > 0 && |minAs| > 0 && |taus| > 0
    requires TrajectoryTicks(Reset(st), Params(minAs[0], taus[0]), E, blocks[0], steps).Success?
    ensures BlocksCover(blocks[1..], count - 1, steps)
    ensures Members(st, minAs, taus, count, steps, E, blocks).Success? <==>
      Members(TrajectoryTicks(Reset(st), Params(minAs[0], taus[0]), E, blocks[0], steps).value.1,
              minAs[1..], taus[1..], count - 1, steps, E, blocks[1..]).Success?
  {
    BlocksCoverTail(blocks, count, steps);
  }

  /** The ensemble before its recursion: no members succeed, a missing list
      entry is an `IndexError`, and a failing first member fails it all. */
  lemma MembersHead(st: State, minAs: seq<real>, taus: seq<real>, count: nat, steps: nat,
                    E: Exponential, blocks: seq<seq<Sign>>)
    requires BlocksCover(blocks, count, steps)
    ensures count == 0 ==> Members(st, minAs, taus, count, steps, E, blocks).Success?
    ensures count > 0 && (|minAs| == 0 || |taus| == 0) ==> Members(st, minAs, taus, count, steps, E, blocks).Failure?
    ensures (count > 0 && |minAs| > 0 && |taus| > 0
             && TrajectoryTicks(Reset(st), Params(minAs[0], taus[0]), E, blocks[0], steps).Failure?) ==>
            Members(st, minAs, taus, count, steps, E, blocks).Failure?
  {
  }

  /** Lists that cover every member and runnable members make the ensemble
      succeed. */
  lemma {:induction false} MembersSucceedWhenRunnable(st: State, minAs: seq<real>, taus: seq<real>, count: nat,
                                                      steps: nat, E: Exponential, blocks: seq<seq<Sign>>)
    requires BlocksCover(blocks, count, steps)
    requires count <= |minAs| && count <= |taus| && Runnable(st.cfg, taus, count, steps)
    ensures Members(st, minAs, taus, count, steps, E, blocks).Success?
    decreases count
  {
    MembersHead(st, minAs, taus, count, steps, E, blocks);
    if count > 0 {
      TrajectoryTicksSucceed(Reset(st), Params(minAs[0], taus[0]), E, blocks[0], steps);
      RunnableTail(st.cfg, taus, count, steps);
      MembersStep(st, minAs, taus, count, steps, E, blocks);
      MembersSucceedWhenRunnable(TrajectoryTicks(Reset(st), Params(minAs[0], taus[0]), E, blocks[0], steps).value.1,
                                 minAs[1..], taus[1..], count - 1, steps, E, blocks[1..]);
    }
  }

  /** A successful ensemble had list entries for every member, and every
      member was runnable. */
  lemma {:induction false} MembersSucceedOnlyWhenRunnable(st: State, minAs: seq<real>, taus: seq<real>, count: nat,
                                                          steps: nat, E: Exponential, blocks: seq<seq<Sign>>)
    requires BlocksCover(blocks, count, steps)
    requires Members(st, minAs, taus, count, steps, E, blocks).Success?
    ensures count <= |minAs| && count <= |taus| && Runnable(st.cfg, taus, count, steps)
    decreases count
  {
    MembersHead(st, minAs, taus, count, steps, E, blocks);
    if count > 0 {
      TrajectoryTicksSucceed(Reset(st), Params(minAs[0], taus[0]), E, blocks[0], steps);
      MembersStep(st, minAs, taus, count, steps, E, blocks);
      MembersSucceedOnlyWhenRunnable(TrajectoryTicks(Reset(st), Params(minAs[0], taus[0]), E, blocks[0], steps).value.1,
                                     minAs[1..], taus[1..], count - 1, steps, E, blocks[1..]);
      RunnableTail(st.cfg, taus, count, steps);
    }
  }

  /** The ensemble succeeds exactly when both lists cover every member and,
      unless there is nothing to simulate, the profile is a known one and no
      member's `tau` is 0; with no members at all it cannot fail. */
  lemma {:induction false} MembersSucceed(st: State, minAs: seq<real>, taus: seq<real>, count: nat, steps: nat,
                       E: Exponential, blocks: seq<seq<Sign>>)
    requires BlocksCover(blocks, count, steps)
    ensures Members(st, minAs, taus, count, steps, E, blocks).Success? <==>
      count <= |minAs| && count <= |taus| && Runnable(st.cfg, taus, count, steps)
  {
    if count <= |minAs| && count <= |taus| && Runnable(st.cfg, taus, count, steps) {
      MembersSucceedWhenRunnable(st, minAs, taus, count, steps, E, blocks);
    }
    if Members(st, minAs, taus, count, steps, E, blocks).Success? {
      MembersSucceedOnlyWhenRunnable(st, minAs, taus, count, steps, E, blocks);
    }
  }

  /** `plt_multiple_traj` on any object: member `i` of the result is the
      trajectory `run_simulation(minA[i], tau[i], no_steps)` records on a fresh
      object with the same configuration and the draws `blocks[i]`. */
  lemma {:induction false} MultipleTrajectoriesAreRuns(st: State, n: int, minAs: seq<real>, taus: seq<real>, noSteps: int,
                                    E: Exponential, blocks: seq<seq<Sign>>)
    requires BlocksCover(blocks, Count(n), Count(noSteps))
    requires MultipleTrajectories(st, n, minAs, taus, noSteps, E, blocks).Success?
    ensures Count(n) <= |minAs| && Count(n) <= |taus|
    ensures forall i :: 0 <= i < Count(n) ==>
      && RunSimulation(New(st.cfg), minAs[i], taus[i], noSteps, E, blocks[i]).Success?
      && MultipleTrajectories(st, n, minAs, taus, noSteps, E, blocks).value[i]
         == RunSimulation(New(st.cfg), minAs[i], taus[i], noSteps, E, blocks[i]).value.trajectory
  {
    MembersAreSingleRuns(st, minAs, taus, Count(n), Count(noSteps), E, blocks);
    forall i | 0 <= i < Count(n)
      ensures RunSimulation(New(st.cfg), minAs[i], taus[i], noSteps, E, blocks[i])
           == RunSimulation(New(st.cfg), minAs[i], taus[i], Count(noSteps), E, blocks[i])
    {
    }
  }
}
