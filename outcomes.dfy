/** Failure-carrying values shared by every module of the model.
    The Python code signals failure by raising; each exception class it
    raises (or lets escape from a library call) is one `Error` case. */
module Outcomes {

  datatype Option<+T> = None | Some(value: T)

  /** The exceptions the modelled code raises or lets escape.
      `CvError` stands for an assertion failure inside OpenCV;
      `SystemExit(code)` for `sys.exit(code)`. */
  datatype Error =
    | TypeError
    | ValueError
    | KeyError
    | IndexError
    | AttributeError
    | RuntimeError
    | NotADirectoryError
    | FileExistsError
    | FileNotFoundError
    | IsADirectoryError
    | SameFileError
    | UnboundLocalError
    | CvError
    | ConnectionRefusedError
    | SystemExit(code: int)

  datatype Result<+T> = Ok(value: T) | Err(error: Error) {
    predicate IsFailure() { Err? }

    function PropagateFailure<U>(): Result<U>
      requires Err?
    {
      Err(error)
    }

    function Extract(): T
      requires Ok?
    {
      value
    }
  }

  /** A loop whose body may raise: the steps run in order over `xs`, and
      the first failure ends the loop. */
  function Steps<S, X>(step: (S, X) -> Result<S>, st: S, xs: seq<X>): Result<S> {
    if xs == [] then Ok(st)
    else
      match Steps(step, st, xs[..|xs| - 1])
      case Err(e) => Err(e)
      case Ok(mid) => step(mid, xs[|xs| - 1])
  }

  /** Running two batches is running the first, then the second from where
      it stopped; in particular a failure is final. */
  lemma {:induction false} StepsAppend<S, X>(step: (S, X) -> Result<S>, st: S, a: seq<X>, b: seq<X>)
    ensures Steps(step, st, a + b) ==
      match Steps(step, st, a)
      case Err(e) => Err(e)
      case Ok(mid) => Steps(step, mid, b)
    decreases |b|
  {
    if b == [] {
      assert a + b == a;
    } else {
      var n := |b| - 1;
      assert (a + b)[..|a + b| - 1] == a + b[..n];
      StepsAppend(step, st, a, b[..n]);
    }
  }
}
