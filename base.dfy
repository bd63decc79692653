/** Failure-compatible wrappers and the error conditions the interpreter raises. */
module Base {

  datatype Option<+T> = None | Some(value: T) {
    function GetOr(default: T): T {
      match this
      case Some(v) => v
      case None => default
    }
  }

  /** The exceptions the modelled code raises, one constructor per raise site. */
  datatype Error =
    | UnknownGalSimType(galSimType: string)   // createCenteredObject, no drawer for the type
    | NoPsf                                   // drawPointSource without any PSF
    | NoCentroidBaseName                      // opening a centroid file with centroid_base_name None
    | ClosedCentroidFile(centroidName: string) // writing to a centroid file already closed

  datatype Result<+T> = Ok(value: T) | Err(error: Error) {
    predicate IsFailure() { Err? }
    function PropagateFailure<U>(): Result<U>
      requires Err?
    {
      Err(error)
    }
    function Extract(): T
      requires Ok?
    {
      value
    }
  }

  /** Strictly positive integers: GalSim's getGoodImageSize never returns less than 1. */
  type Pos = n: int | 0 < n witness 1

  function Min(a: int, b: int): int { if a <= b then a else b }
  function Max(a: int, b: int): int { if a >= b then a else b }
  function MinR(a: real, b: real): real { if a <= b then a else b }
  function MaxR(a: real, b: real): real { if a >= b then a else b }

  function Ceil(r: real): int { -((-r).Floor) }

  /** Python's int() on a float: truncation toward zero. */
  function Trunc(r: real): int {
    if r >= 0.0 then r.Floor else Ceil(r)
  }
}
