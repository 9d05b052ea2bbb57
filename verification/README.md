# Chemotaxis: a one-dimensional biased random walk, modelled in Dafny

`chemotaxis.py` simulates a bacterium on a line. The `Chemotaxis` object holds:

- a position `x`, the previous position `xPre` and a heading `direction`;
- an internal signal `s`;
- the constructor's settings: `velocity`, `dt`, `maxA`, `k` and the attractant profile `cType`.

Every tick of a run does three things:

1. It relaxes `s` towards the sensed concentration gradient with one forward-Euler step of time constant `tau` (`update_s`).
2. It turns `s` into a tumble probability with a sigmoid between `minA` and `maxA` (`p_tumble`).
3. It multiplies the heading by a random ±1 and moves `direction * velocity * dt` (`take_one_step`).

`run_simulation` resets the object and records the trajectory, the signal and the tumble probability of every tick. `plt_multiple_traj` repeats the reset-and-run once per `(minA[i], tau[i])` pair and collects the trajectories.

The model is purely functional:

- The object becomes an immutable `Agent.State`, with `xPre = None` as an `Option`.
- The constructor settings are an `Agent.Config`. The per-run `minA` and `tau` are an `Agent.Params`.
- The random choices are an input sequence of ±1 draws (`Base.Sign`). In an ensemble, each member has its own block of draws.
- `np.exp` is a parameter `E` of type `Base.Exponential`: any strictly positive function with `E(0) = 1`.
- Arithmetic is on exact reals.
- The Python exceptions a run can raise are values of `Base.Fault` inside a `Base.Result`:
  - `TypeError` when the profile is neither `"flat"` nor `"linear"`, so `d_concentration` returns `None`;
  - `ZeroDivisionError` when `tau == 0`;
  - `IndexError` when `N` exceeds the length of `minA` or `tau`.

Modules:

- `Base`: options, results, faults, draws, the abstract exponential, and small real helpers. `Count(n)` is the number of iterations of `range(n)`.
- `Agent`: the per-tick rules `d_concentration`, `update_s`, `p_tumble` and `take_one_step`.
- `Driver`: the two run loops.
- `Walks`: the positions of a run, which depend only on the start, the heading, `velocity`, `dt` and the draws.
- `Signals`: the signal recurrence along a run.
- `RunFacts`: the recorded probabilities, and what a run depends on.
- `Ensemble`: `plt_multiple_traj` as a list of independent single runs.
- `Scenarios`: worked runs of the default object.

Consequences of the code worth noting:

- No constructor argument is validated. An unknown profile raises `TypeError` on the first tick of a run, not at construction.
- A `-1` draw multiplies the current heading by -1. A run that tumbles on every tick therefore goes back and forth, `[0, -1, 0, -1]` (`Scenarios.AlwaysTumbling`).
- Neither run loop counts tumbles or reports final positions.

## Model

| member | source | states |
|---|---|---|
| Agent.New | chemotaxis.py:11-30 | The object starts at `init_x` with signal `init_s`, heading `init_direction` and no previous position, so a known profile senses gradient 0 before the first step |
| Agent.ProfileOf | chemotaxis.py:33-35 | The string "flat" selects the flat profile and "linear" the linear one. Every other string is unrecognised and keeps its name |
| Agent.Gradient | chemotaxis.py:32-39 | The flat profile senses 0. The linear profile senses `x - xPre`, or 0 when there is no previous position. Only an unrecognised profile yields `None` |
| Agent.UpdateS | chemotaxis.py:41-43 | The update succeeds exactly when the profile is known and `tau != 0`. Otherwise it fails with `TypeError` (unknown profile, checked first) or `ZeroDivisionError`. It changes nothing but `s` |
| Agent.UpdateSRelaxes | chemotaxis.py:41-43 | One update shrinks the distance from `s` to the sensed gradient by the factor `1 - dt/tau`. Under the flat profile `s' = s * (1 - dt/tau)` |
| Agent.UpdateSApproachesGradient | chemotaxis.py:41-43 | When `0 < dt <= tau`, the new `s` lies between the old `s` and the gradient, so it never overshoots |
| Agent.PTumble | chemotaxis.py:45-46 | For any positive exponential, the tumble probability lies between `minA` and `maxA`. It is their mean when `s == 0` |
| Agent.PTumbleIsProbability | chemotaxis.py:45-51 | When `minA` and `maxA` lie in [0, 1], both weights `[p, 1 - p]` passed to the random choice lie in [0, 1] |
| Agent.SigmoidAntitone | chemotaxis.py:45-46 | When `minA <= maxA`, a larger exponential term never raises the tumble probability |
| Agent.Move | chemotaxis.py:48-52 | A step records the old `x` as `xPre` and changes only `x`, `xPre` and `direction` |
| Agent.MoveKeepsSpeed | chemotaxis.py:48-52 | The new heading is the old heading times the draw, and the move is `direction * velocity * dt` with the new heading. The heading's magnitude is kept, so a heading of ±1 stays ±1 and the move is `velocity * dt` up to sign |
| Agent.TakeOneStep | chemotaxis.py:48-52 | A step leaves the signal and the configuration alone. The probability it draws with lies between `minA` and `maxA`; it does not depend on `xPre`, which the source sets just before evaluating it |
| Driver.Ticks | chemotaxis.py:66-71 | `n` ticks succeed exactly when `n == 0`, or the profile is known and `tau != 0`. The fault is `TypeError` for an unknown profile, otherwise `ZeroDivisionError`. Every recorded list has one entry per tick |
| Driver.Reset | chemotaxis.py:55-61 | The start of a run puts the object back in the state the constructor built |
| Driver.RunSimulation | chemotaxis.py:54-71 | A run succeeds exactly when it has no ticks, or the profile is known and `tau != 0`, with the same faults. `trajectory` and `s_list` have `no_steps + 1` entries and start at `init_x` and `init_s`; for a negative `no_steps` they are just `[init_x]` and `[init_s]`. `tumble_ps` has `no_steps` entries (none for a negative `no_steps`) |
| Driver.TrajectoryTicks | chemotaxis.py:89-92 | The inner loop of `plt_multiple_traj` records one position per tick and keeps the configuration |
| Driver.Members | chemotaxis.py:81-93 | A successful ensemble has one trajectory per member. Each has `no_steps + 1` entries and starts at `init_x` |
| Driver.MultipleTrajectories | chemotaxis.py:77-93 | `plt_multiple_traj` builds `N` trajectories (none for `N < 0`), each of `no_steps + 1` entries starting at `init_x` |
| Walks.TicksWalk | chemotaxis.py:66-71 | The positions the run loop records are those of the walk computed from the kinematics of `take_one_step` alone, and so is the final heading |
| Walks.RunWalk | chemotaxis.py:48-71 | A run's trajectory is `init_x` followed by the walk from `init_x` and `init_direction` on the draws. For fixed draw outcomes it depends on neither `minA`, `tau`, the profile nor the signal. The probability each draw is made with (`drawPs`) does depend on them |
| Walks.RunMovesAreFullSteps | chemotaxis.py:48-71 | Consecutive trajectory entries differ by `init_direction * velocity * dt` up to sign |
| Walks.RunUnitHeadingMoves | chemotaxis.py:48-71 | With `init_direction` ±1, consecutive trajectory entries differ by exactly `velocity * dt` up to sign, and the heading stays ±1 |
| Walks.StraightRunAdvancesUniformly | chemotaxis.py:51-71 | When every draw the run reads is +1, the heading never changes and `trajectory[n] == init_x + n * init_direction * velocity * dt` |
| Signals.TicksSignalRecurrence | chemotaxis.py:66-71 | Along the ticks, each recorded signal is one Euler step from the previous one. From the second tick on, the gradient is the displacement recorded on the previous tick under the linear profile, and 0 under the flat one |
| Signals.RunSignalRecurrence | chemotaxis.py:54-71 | `s_list[n + 1]` is one Euler step from `s_list[n]` towards the gradient of tick `n`. That gradient is 0 on the first tick, and `trajectory[n] - trajectory[n - 1]` later under the linear profile |
| Signals.SignalIsLastGradient | chemotaxis.py:41-71 | With `tau == dt` the signal forgets its past: `s_list[n + 1]` is the gradient sensed on tick `n` |
| Signals.FlatSignalDecay | chemotaxis.py:41-71 | Under the flat profile, whatever the walk does, `s_list[n] == init_s * (1 - dt/tau)^n` |
| Signals.FlatEulerIsGeometric | chemotaxis.py:41-43 | A signal sequence that follows the flat-profile Euler update is geometric with ratio `1 - dt/tau` |
| Signals.LinearGradientIsLastStep | chemotaxis.py:35-52 | Under the linear profile with `init_direction` ±1, the gradient sensed on every tick after the first is `velocity * dt` up to sign |
| RunFacts.TicksProbabilities | chemotaxis.py:66-70 | The probability appended to `tumble_ps` is the one the same tick's random choice uses. It is the sigmoid of the freshly updated signal |
| RunFacts.RunRecordedProbabilities | chemotaxis.py:62-70 | `tumble_ps[n]` is the probability of tick `n`'s random choice. It is the sigmoid of `s_list[n + 1]` and lies between `minA` and `maxA` |
| RunFacts.RunSimulationIgnoresPriorState | chemotaxis.py:54-61 | A run gives the same results on any object as on a fresh one with the same configuration |
| RunFacts.TicksUseOnlyTheirDraws | chemotaxis.py:66-71 | `n` ticks read only the first `n` draws |
| RunFacts.RunDependsOnlyOnItsDraws | chemotaxis.py:54-71 | A run's results are determined by the configuration, `minA`, `tau`, `no_steps` and the draws of its own ticks |
| Ensemble.TrajectoryTicksAgree | chemotaxis.py:89-92 | The inner loop of `plt_multiple_traj` gives the same positions, end state and exceptions as the loop of `run_simulation` |
| Ensemble.TrajectoryTicksSucceed | chemotaxis.py:89-92 | The inner loop fails exactly when it has a tick to run and the profile is unknown or `tau == 0` |
| Ensemble.MembersAreSingleRuns | chemotaxis.py:81-93 | In a successful ensemble both lists cover every member. Trajectory `i` is what `run_simulation(minA[i], tau[i], no_steps)` records on a fresh object with member `i`'s draws |
| Ensemble.MembersSucceed | chemotaxis.py:81-93 | The ensemble succeeds exactly when both lists cover every member and every member is runnable. With no ticks or no members, every member is runnable |
| Ensemble.MultipleTrajectoriesAreRuns | chemotaxis.py:77-93 | `plt_multiple_traj` collects, in input order, the trajectory `run_simulation(minA[i], tau[i], no_steps)` records on a fresh object with the same configuration |
| Scenarios.StraightRun | chemotaxis.py:11-71 | The default object with `minA = 0`, `tau = 1`, three steps and no tumble records trajectory `[0, 1, 2, 3]`, `s_list` `[0, 0, 0, 0]` and `tumble_ps` `[0.5, 0.5, 0.5]` |
| Scenarios.AlwaysTumbling | chemotaxis.py:48-71 | The default object tumbling on each of three ticks records `[0, -1, 0, -1]` |
| Scenarios.LinearSignal | chemotaxis.py:32-71 | On a linear profile with `tau = dt = 1` and no tumble, `s_list` is `[0, 0, 1, 1]`: there is no previous position on the first tick |
| Scenarios.UnknownProfile | chemotaxis.py:32-43 | Profile `"quadratic"` raises `TypeError` on the first tick. With no ticks, nothing fails |
| Scenarios.ZeroTauAndNoTicks | chemotaxis.py:41-71 | `tau = 0` raises `ZeroDivisionError`. A negative `no_steps` runs no tick and records only `init_x`; the plot that follows is not modelled (see Left out) |
| Scenarios.ShortParameterLists | chemotaxis.py:81-83 | Two members with one-entry `minA` and `tau` lists raise `IndexError` |

## Left out

- Plotting and label formatting (chemotaxis.py:64-65, 72-75, 94-100). The `times` list and the `condition` strings are not modelled.
- Driver.RunSimulation, Driver.MultipleTrajectories and Scenarios.ZeroTauAndNoTicks: for a negative `no_steps`, `times` is empty while each trajectory holds `[init_x]`. The lists are recorded, and then `plt.plot` raises `ValueError` on the length mismatch (chemotaxis.py:72, and chemotaxis.py:97 when `N >= 1`). The model reports `Success`, because plotting is outside it.
- Sampling by `np.random.choice`: the draws are an input. The Bernoulli distribution, and the `ValueError` numpy raises for weights outside [0, 1], are outside the model. `Agent.PTumbleIsProbability` states when the weights are valid.
- The shared random stream of `plt_multiple_traj`: each member takes its own block of draws, which covers every way the stream can be split.
- `np.exp`, its overflow, and floating-point rounding: the exponential is an abstract positive function with `E(0) = 1`, and the arithmetic is exact.
- Agent.SigmoidAntitone: monotonicity is stated on the exponential term rather than on `s`, because the abstract exponential is not assumed increasing.
- Numpy scalars: with a numpy float `tau == 0`, numpy yields `inf`/`nan` with a warning instead of raising. The model follows Python numbers and raises `ZeroDivisionError`.
- Calling `update_s` or `p_tumble` before any run, while `minA` and `tau` are still `None`: the per-run parameters exist only inside a run.
- The attributes an exception leaves behind: after a failed run the model returns only the fault, not the half-updated object and lists.
- Driver.RunSimulation, Driver.MultipleTrajectories: the default argument `no_steps=100` of both methods (chemotaxis.py:54, 77) is not modelled; every call passes `noSteps` explicitly.
- Driver.MultipleTrajectories: `plt_multiple_traj` returns `None`; its list of trajectories is local and only handed to `plt.plot` (chemotaxis.py:78, 93, 96-97). The model returns the list the source would plot.
- The object state that `plt_multiple_traj` leaves on the object after the last member: the model returns only the trajectories.
- Non-numeric arguments: `velocity`, `dt`, `direction`, `x`, `s`, `maxA`, `k`, `minA` and `tau` are reals in the model. The format errors of the label strings for non-numeric `minA` or `tau` cannot arise.
