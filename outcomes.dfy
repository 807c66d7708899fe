/** Files, directories and the errors the data loader can raise. */
module Outcomes {

  datatype Option<+T> = None | Some(value: T)

  /** `<input base>/x<scale>/<name>` and `<truth base>/<name>`. */
  datatype ImagePath =
    | InputFile(base: string, scale: nat, name: string)
    | TruthFile(base: string, name: string)

  /** `<input base>/x<scale>`, the directory whose listing becomes the name index. */
  datatype ImageDir = InputDir(base: string, scale: nat)

  datatype Error =
    | RandomRange(bound: int)      // np.random.randint(bound) with bound <= 0: ValueError
    | MissingScale(scale: nat)     // no cache map for this scale: KeyError
    | DecodeFailed(path: ImagePath)  // reading or decoding the PNG failed
    | EmptyScaleList               // scale_list[0] of an empty list: IndexError
    | ListingFailed(dir: ImageDir) // the directory could not be listed

  /** A value, or the error raised on the way to it. */
  datatype Result<+T> = Ok(value: T) | Err(error: Error) {
    predicate IsFailure() { Err? }

    function PropagateFailure<U>(): Result<U>
      requires Err?
    {
      Err(error)
    }

    function Extract(): T
      requires Ok?
    {
      value
    }
  }
}
