/** The run loops of chemotaxis.py: `run_simulation`, which records the
    trajectory, the internal signal and the tumble probability of every tick,
    and `plt_multiple_traj`, which records one trajectory per parameter pair.
    The random source is supplied as a sequence of draws; plotting is left out. */
module Driver {
  import opened Base
  import opened Agent

  /** What some ticks of the run loop record, tick by tick: the position after
      the step (`xs`), the signal after the Euler update (`ss`), the tumble
      probability appended to `tumble_ps` (`ps`), the probability the random
      choice was made with (`drawPs`), and the object's state afterwards. */
  datatype Trace = Trace(xs: seq<real>, ss: seq<real>, ps: seq<real>, drawPs: seq<real>, last: State)

  /** `n` iterations of the body of the loop in `run_simulation`:
      `update_s`, record `s` and `p_tumble()`, `take_one_step`, record `x`.
      Tick `i` consumes `draws[i]`. */
  function Ticks(st: State, prm: Params, E: Exponential, draws: seq<Sign>, n: nat): (r: Result<Trace>)
    requires |draws| >= n
    ensures r.Success? <==> n == 0 || (!st.cfg.cType.Unrecognised? && prm.tau != 0.0)
    ensures r.Failure? ==> r.fault == (if st.cfg.cType.Unrecognised? then TypeError else ZeroDivisionError)
    ensures r.Success? ==>
      |r.value.xs| == n && |r.value.ss| == n && |r.value.ps| == n && |r.value.drawPs| == n
    ensures r.Success? ==> r.value.last.cfg == st.cfg
    decreases n
  {
    if n == 0 then Success(Trace([], [], [], [], st))
    else
      match UpdateS(st, prm)
      case Failure(f) => Failure(f)
      case Success(st1) =>
        var p := PTumble(st1.cfg, prm, st1.s, E);
        var step := TakeOneStep(st1, prm, E, draws[0]);
        match Ticks(step.next, prm, E, draws[1..], n - 1)
        case Failure(f) => Failure(f)
        case Success(t) =>
          Success(Trace([step.next.x] + t.xs, [st1.s] + t.ss, [p] + t.ps, [step.p] + t.drawPs, t.last))
  }

  /** One tick of `Ticks` spelled out: the Euler update, then the step, then
      the remaining ticks on the remaining draws. */
  lemma TicksUnfold(st: State, prm: Params, E: Exponential, draws: seq<Sign>, n: nat)
    requires |draws| >= n > 0
    requires Ticks(st, prm, E, draws, n).Success?
    ensures UpdateS(st, prm).Success?
    ensures var st1 := UpdateS(st, prm).value;
      var next := Move(st1, draws[0]);
      var t := Ticks(st, prm, E, draws, n).value;
      && next.cfg == st.cfg
      && Ticks(next, prm, E, draws[1..], n - 1).Success?
      && var t' := Ticks(next, prm, E, draws[1..], n - 1).value;
      && t.xs == [next.x] + t'.xs
      && t.ss == [st1.s] + t'.ss
      && t.ps == [PTumble(st.cfg, prm, st1.s, E)] + t'.ps
      && t.drawPs == [PTumble(st.cfg, prm, st1.s, E)] + t'.drawPs
      && t.last == t'.last
  {
  }

  /** The assignments at the start of every run: position, previous position,
      signal and heading go back to what the constructor set. */
  function Reset(st: State): (r: State)
    ensures r == New(st.cfg)
  {
    st.(x := st.cfg.initX, xPre := None, s := st.cfg.initS, direction := st.cfg.initDirection)
  }

  /** The lists `run_simulation` leaves on the object, and the object's state. */
  datatype RunRecord = RunRecord(
    trajectory: seq<real>,
    sList: seq<real>,
    tumblePs: seq<real>,
    drawPs: seq<real>,
    last: State)

  /** `run_simulation(minA, tau, no_steps)` on the object `st`, with the random
      choices of its ticks taken from `draws`. */
  function RunSimulation(st: State, minA: real, tau: real, noSteps: int, E: Exponential, draws: seq<Sign>)
    : (r: Result<RunRecord>)
    requires |draws| >= Count(noSteps)
    ensures r.Success? <==> Count(noSteps) == 0 || (!st.cfg.cType.Unrecognised? && tau != 0.0)
    ensures r.Failure? ==> r.fault == (if st.cfg.cType.Unrecognised? then TypeError else ZeroDivisionError)
    ensures r.Success? ==>
      && |r.value.trajectory| == Count(noSteps) + 1
      && |r.value.sList| == Count(noSteps) + 1
      && |r.value.tumblePs| == Count(noSteps)
      && r.value.trajectory[0] == st.cfg.initX
      && r.value.sList[0] == st.cfg.initS
      && r.value.last.cfg == st.cfg
  {
    var st0 := Reset(st);
    match Ticks(st0, Params(minA, tau), E, draws, Count(noSteps))
    case Failure(f) => Failure(f)
    case Success(t) => Success(RunRecord([st0.x] + t.xs, [st0.s] + t.ss, t.ps, t.drawPs, t.last))
  }

  /** `n` iterations of the inner loop of `plt_multiple_traj`: `update_s`,
      `take_one_step`, record `x`. Returns the positions and the final state. */
  function TrajectoryTicks(st: State, prm: Params, E: Exponential, draws: seq<Sign>, n: nat)
    : (r: Result<(seq<real>, State)>)
    requires |draws| >= n
    ensures r.Success? ==> |r.value.0| == n && r.value.1.cfg == st.cfg
    decreases n
  {
    if n == 0 then Success(([], st))
    else
      match UpdateS(st, prm)
      case Failure(f) => Failure(f)
      case Success(st1) =>
        var next := TakeOneStep(st1, prm, E, draws[0]).next;
        match TrajectoryTicks(next, prm, E, draws[1..], n - 1)
        case Failure(f) => Failure(f)
        case Success((xs, last)) => Success(([next.x] + xs, last))
  }

  /** Enough draws for `count` members of `noSteps` ticks each: the random
      stream cut into one block per ensemble member. */
  predicate BlocksCover(blocks: seq<seq<Sign>>, count: nat, steps: nat)
  {
    |blocks| >= count && forall i :: 0 <= i < count ==> |blocks[i]| >= steps
  }

  /** The outer loop of `plt_multiple_traj` over `count` members, starting from
      the object `st`: member `i` reads `minAs[i]` and `taus[i]` (an
      `IndexError` when either list is too short), resets the object and runs
      `steps` ticks on the draws of `blocks[i]`. */
  function Members(st: State, minAs: seq<real>, taus: seq<real>, count: nat, steps: nat,
                   E: Exponential, blocks: seq<seq<Sign>>)
    : (r: Result<seq<seq<real>>>)
    requires BlocksCover(blocks, count, steps)
    ensures r.Success? ==> |r.value| == count
    ensures r.Success? ==>
      forall i :: 0 <= i < count ==> |r.value[i]| == steps + 1 && r.value[i][0] == st.cfg.initX
    decreases count
  {
    if count == 0 then Success([])
    else if |minAs| == 0 || |taus| == 0 then Failure(IndexError)
    else
      var st0 := Reset(st);
      match TrajectoryTicks(st0, Params(minAs[0], taus[0]), E, blocks[0], steps)
      case Failure(f) => Failure(f)
      case Success((xs, last)) =>
        match Members(last, minAs[1..], taus[1..], count - 1, steps, E, blocks[1..])
        case Failure(f) => Failure(f)
        case Success(rest) => Success([[st0.x] + xs] + rest)
  }

  /** `plt_multiple_traj(N, minA, tau, no_steps)` on the object `st`, without
      the plotting: the list of trajectories it builds and plots, in member
      order (the method itself returns `None`). */
  function MultipleTrajectories(st: State, n: int, minAs: seq<real>, taus: seq<real>, noSteps: int,
                                E: Exponential, blocks: seq<seq<Sign>>)
    : (r: Result<seq<seq<real>>>)
    requires BlocksCover(blocks, Count(n), Count(noSteps))
    ensures r.Success? ==> |r.value| == Count(n)
    ensures r.Success? ==>
      forall i :: 0 <= i < Count(n) ==> |r.value[i]| == Count(noSteps) + 1 && r.value[i][0] == st.cfg.initX
  {
    Members(st, minAs, taus, Count(n), Count(noSteps), E, blocks)
  }
}
