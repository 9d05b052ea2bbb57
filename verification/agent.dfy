/** The agent of chemotaxis.py: the `Chemotaxis` object's configuration and
    kinematic state, and its per-tick rules `d_concentration`, `update_s`,
    `p_tumble` and `take_one_step`. Python's mutable object becomes an
    immutable `State`; every method returns the updated state. */
module Agent {
  import opened Base

  /** A `cType` string that names neither known profile. */
  type UnknownName = name: string | name != "flat" && name != "linear" witness "quadratic"

  /** The `cType` string: the two profiles the sensor knows, and any other string. */
  datatype Profile = Flat | Linear | Unrecognised(name: UnknownName)

  /** The profile a `cType` string selects: `d_concentration` compares it with
      "flat", then with "linear"; every other string is unrecognised. */
  function ProfileOf(cType: string): (p: Profile)
    ensures p == Flat <==> cType == "flat"
    ensures p == Linear <==> cType == "linear"
    ensures p.Unrecognised? ==> p.name == cType
  {
    if cType == "flat" then Flat
    else if cType == "linear" then Linear
    else Unrecognised(cType)
  }

  /** The constructor arguments, fixed for the object's lifetime. The code
      checks none of them. */
  datatype Config = Config(
    velocity: real,
    dt: real,
    initDirection: real,
    initX: real,
    initS: real,
    maxA: real,
    k: real,
    cType: Profile)

  /** The per-run parameters `minA` and `tau`, assigned at the start of each run. */
  datatype Params = Params(minA: real, tau: real)

  /** The object's state: position `x`, previous position `xPre` (absent at the
      start of a run), heading `direction` and internal signal `s`. */
  datatype State = State(cfg: Config, x: real, xPre: Option<real>, direction: real, s: real)

  /** The state `__init__` builds: the configured initial values and no previous
      position, so neither known profile senses a gradient yet. */
  function New(cfg: Config): (st: State)
    ensures st.cfg == cfg && st.xPre == None
    ensures st.x == cfg.initX && st.s == cfg.initS && st.direction == cfg.initDirection
    ensures !cfg.cType.Unrecognised? ==> Gradient(st) == Some(0.0)
  {
    State(cfg, cfg.initX, None, cfg.initDirection, cfg.initS)
  }

  /** `d_concentration`: the sensed gradient. `None` is what Python returns for
      a profile that is neither "flat" nor "linear". */
  function Gradient(st: State): (g: Option<real>)
    ensures st.cfg.cType == Flat ==> g == Some(0.0)
    ensures st.cfg.cType == Linear && st.xPre == None ==> g == Some(0.0)
    ensures st.cfg.cType == Linear && st.xPre.Some? ==> g == Some(st.x - st.xPre.value)
    ensures g.None? <==> st.cfg.cType.Unrecognised?
  {
    match st.cfg.cType
    case Flat => Some(0.0)
    case Linear =>
      (match st.xPre
       case None => Some(0.0)
       case Some(prev) => Some(st.x - prev))
    case Unrecognised(_) => None
  }

  /** `update_s`: one forward-Euler step of `ds/dt = (g - s) / tau`. Adding
      `None` raises `TypeError` before the division is reached; `tau == 0`
      raises `ZeroDivisionError`. Only `s` changes. */
  function UpdateS(st: State, prm: Params): (r: Result<State>)
    ensures r.Success? <==> !st.cfg.cType.Unrecognised? && prm.tau != 0.0
    ensures st.cfg.cType.Unrecognised? ==> r == Failure(TypeError)
    ensures !st.cfg.cType.Unrecognised? && prm.tau == 0.0 ==> r == Failure(ZeroDivisionError)
    ensures r.Success? ==> r.value == st.(s := r.value.s)
  {
    match Gradient(st)
    case None => Failure(TypeError)
    case Some(g) =>
      if prm.tau == 0.0 then Failure(ZeroDivisionError)
      else Success(st.(s := Euler(st.s, g, st.cfg.dt, prm.tau)))
  }

  /** One forward-Euler step of length `dt` for `ds/dt = (g - s) / tau`. */
  function Euler(s: real, g: real, dt: real, tau: real): real
    requires tau != 0.0
  {
    s + dt * (-s + g) / tau
  }

  /** The Euler step is a relaxation towards the sensed gradient `g`: the
      distance to `g` shrinks by the factor `1 - dt/tau`, so with the flat
      profile `s` itself is scaled by that factor. */
  lemma {:induction false} UpdateSRelaxes(st: State, prm: Params)
    requires !st.cfg.cType.Unrecognised? && prm.tau != 0.0
    ensures UpdateS(st, prm).Success?
    ensures UpdateS(st, prm).value.s - Gradient(st).value
         == (st.s - Gradient(st).value) * (1.0 - st.cfg.dt / prm.tau)
    ensures st.cfg.cType == Flat ==> UpdateS(st, prm).value.s == st.s * (1.0 - st.cfg.dt / prm.tau)
  {
    var g := Gradient(st).value;
    EulerIsRelaxation(st.s, g, st.cfg.dt, prm.tau);
  }

  /** The Euler step rewritten as a contraction of the distance to `g`. */
  lemma EulerIsRelaxation(s: real, g: real, dt: real, tau: real)
    requires tau != 0.0
    ensures s + dt * (-s + g) / tau - g == (s - g) * (1.0 - dt / tau)
  {
  }

  /** When the time step does not exceed `tau`, one Euler step moves `s` towards
      the sensed gradient without overshooting it. */
  lemma {:induction false} UpdateSApproachesGradient(st: State, prm: Params)
    requires !st.cfg.cType.Unrecognised?
    requires 0.0 < st.cfg.dt <= prm.tau
    ensures UpdateS(st, prm).Success?
    ensures Min(st.s, Gradient(st).value) <= UpdateS(st, prm).value.s <= Max(st.s, Gradient(st).value)
  {
    var g := Gradient(st).value;
    var c := 1.0 - st.cfg.dt / prm.tau;
    var s' := UpdateS(st, prm).value.s;
    UpdateSRelaxes(st, prm);
    assert 0.0 <= c < 1.0 by {
      assert 0.0 < st.cfg.dt / prm.tau <= 1.0 by { DivBounds(st.cfg.dt, prm.tau); }
    }
    assert s' - g == (st.s - g) * c;
    ScaleBetween(st.s - g, c);
  }

  /** The logistic interpolation `lo + (hi - lo) / (1 + e)` for an exponential
      term `e > 0`: it stays between `lo` and `hi` and is their mean at `e == 1`. */
  function Sigmoid(lo: real, hi: real, e: real): (p: real)
    requires e > 0.0
    ensures Min(lo, hi) <= p <= Max(lo, hi)
    ensures e == 1.0 ==> p == (lo + hi) / 2.0
  {
    SigmoidStep(hi - lo, e);
    lo + (hi - lo) / (1.0 + e)
  }

  /** `p_tumble`: the sigmoid `minA + (maxA - minA) / (1 + exp(k * s))`, which
      always lies between `minA` and `maxA` and is their mean at `s == 0`. */
  function PTumble(cfg: Config, prm: Params, s: real, E: Exponential): (p: real)
    ensures Min(prm.minA, cfg.maxA) <= p <= Max(prm.minA, cfg.maxA)
    ensures s == 0.0 ==> p == (prm.minA + cfg.maxA) / 2.0
  {
    Sigmoid(prm.minA, cfg.maxA, E(cfg.k * s))
  }

  /** When `minA` and `maxA` are probabilities, so is every `p_tumble` value,
      which is what `np.random.choice` needs of the weights `[p, 1 - p]`. */
  lemma PTumbleIsProbability(cfg: Config, prm: Params, s: real, E: Exponential)
    requires 0.0 <= prm.minA <= 1.0 && 0.0 <= cfg.maxA <= 1.0
    ensures 0.0 <= PTumble(cfg, prm, s, E) <= 1.0
    ensures 0.0 <= 1.0 - PTumble(cfg, prm, s, E) <= 1.0
  {
  }

  /** The moving part of `take_one_step`: remember `x`, multiply the heading
      by the draw, and move by `direction * velocity * dt`. The heading keeps
      its magnitude, so a unit heading stays a unit and every move is a full
      `velocity * dt` in one direction or the other. */
  function Move(st: State, draw: Sign): (r: State)
    ensures r.xPre == Some(st.x)
    ensures r == st.(x := r.x, xPre := r.xPre, direction := r.direction)
  {
    var pose := Advance(st.cfg, st.x, st.direction, draw);
    st.(xPre := Some(st.x), direction := pose.direction, x := pose.x)
  }

  /** A position and a heading. */
  datatype Pose = Pose(x: real, direction: real)

  /** The kinematics of one step: the heading is multiplied by the draw, then
      the agent covers `direction * velocity * dt` with the new heading. */
  function Advance(cfg: Config, x: real, direction: real, draw: Sign): Pose
  {
    var d := direction * (draw as real);
    Pose(x + d * cfg.velocity * cfg.dt, d)
  }

  /** A move multiplies the heading by the draw and covers `direction *
      velocity * dt` with the new heading; the heading keeps its magnitude, so a
      unit heading stays a unit and the move is `velocity * dt` up to sign. */
  lemma MoveKeepsSpeed(st: State, draw: Sign)
    ensures Move(st, draw).direction == st.direction * (draw as real)
    ensures Move(st, draw).x - st.x == Move(st, draw).direction * st.cfg.velocity * st.cfg.dt
    ensures Abs(Move(st, draw).direction) == Abs(st.direction)
    ensures st.direction == 1.0 || st.direction == -1.0 ==>
      && (Move(st, draw).direction == 1.0 || Move(st, draw).direction == -1.0)
      && (Move(st, draw).x - st.x == st.cfg.velocity * st.cfg.dt ||
          Move(st, draw).x - st.x == -(st.cfg.velocity * st.cfg.dt))
  {
  }

  /** What `take_one_step` produces: the next state and the tumble probability
      it handed to the random choice. */
  datatype StepOutcome = StepOutcome(next: State, p: real)

  /** `take_one_step` with the random choice supplied as `draw`. The source sets
      `xPre` before it calls `p_tumble`, but the probability reads only the
      configuration, `minA`, `tau` and `s`, none of which setting `xPre`
      changes; the step leaves the signal and the configuration alone. */
  function TakeOneStep(st: State, prm: Params, E: Exponential, draw: Sign): (r: StepOutcome)
    ensures r.next.s == st.s && r.next.cfg == st.cfg
    ensures Min(prm.minA, st.cfg.maxA) <= r.p <= Max(prm.minA, st.cfg.maxA)
  {
    StepOutcome(Move(st, draw), PTumble(st.cfg, prm, st.s, E))
  }

  /** Dividing by `1 + e` with `e > 0` shrinks `w` towards 0 without changing its sign. */
  lemma {:induction false} SigmoidStep(w: real, e: real)
    requires e > 0.0
    ensures Min(0.0, w) <= w / (1.0 + e) <= Max(0.0, w)
  {
    var q := 1.0 / (1.0 + e);
    assert w / (1.0 + e) == w * q;
    ScaleBetween(w, q);
  }

  /** A larger exponential term gives a smaller sigmoid value when `lo <= hi`:
      since `exp` increases, with `k > 0` a larger internal signal never
      raises the tumble probability. */
  lemma {:induction false} SigmoidAntitone(lo: real, hi: real, e1: real, e2: real)
    requires lo <= hi && 0.0 < e1 <= e2
    ensures Sigmoid(lo, hi, e2) <= Sigmoid(lo, hi, e1)
  {
    DivAntitone(hi - lo, 1.0 + e1, 1.0 + e2);
  }

  /** `0 <= c <= 1` scales `a` to a value between 0 and `a`. */
  lemma {:induction false} ScaleBetween(a: real, c: real)
    requires 0.0 <= c <= 1.0
    ensures Min(0.0, a) <= a * c <= Max(0.0, a)
  {
    if a >= 0.0 {
      assert a * c <= a * 1.0;
    } else {
      assert a * c >= a * 1.0;
    }
  }

  /** A positive quotient of a number by a larger one is at most 1. */
  lemma DivBounds(a: real, b: real)
    requires 0.0 < a <= b
    ensures 0.0 < a / b <= 1.0
  {
  }

  /** A larger positive divisor gives a smaller quotient of a nonnegative number. */
  lemma DivAntitone(w: real, d1: real, d2: real)
    requires w >= 0.0 && 0.0 < d1 <= d2
    ensures w / d2 <= w / d1
  {
  }
}
