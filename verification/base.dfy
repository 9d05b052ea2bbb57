/** Shared vocabulary of the model: optional values, the Python exceptions a
    run can raise, the outcome of one random draw, the abstract exponential,
    and a few helpers on reals. */
module Base {

  /** A value that may be absent; stands for Python's `None`. */
  datatype Option<+T> = None | Some(value: T)

  /** The exceptions that can abort a run of the simulation. */
  datatype Fault =
    | TypeError          // arithmetic with `None`: an unrecognised concentration profile
    | ZeroDivisionError  // the Euler update divides by `tau == 0`
    | IndexError         // more ensemble members than `minA` or `tau` values

  /** Either the computed value or the exception that aborted the computation. */
  datatype Result<+T> = Success(value: T) | Failure(fault: Fault)

  /** One outcome of `np.random.choice([-1, 1], ...)`: -1 is a tumble, +1 keeps the heading. */
  type Sign = d: int | d == -1 || d == 1 witness 1

  /** Stand-in for `np.exp`: any strictly positive function that is 1 at 0. */
  type Exponential = f: real -> real | f(0.0) == 1.0 && forall z :: f(z) > 0.0
    witness (z: real) => 1.0

  function Abs(r: real): real { if r < 0.0 then -r else r }

  function Min(a: real, b: real): real { if a <= b then a else b }

  function Max(a: real, b: real): real { if a <= b then b else a }

  function Pow(b: real, n: nat): real { if n == 0 then 1.0 else b * Pow(b, n - 1) }

  /** The number of iterations of Python's `range(n)`. */
  function Count(n: int): nat { if n < 0 then 0 else n }
}
