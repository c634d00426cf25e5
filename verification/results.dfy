/** Failure-compatible wrappers used by the tree builder and the predictor.
    Every place where the original program would abort on an `unwrap` of a
    missing entry becomes an explicit `Err` here. */
module Results {

  datatype Option<+T> = None | Some(value: T)

  /** The ways building or predicting can fail. */
  datatype Error =
    /** No feature has a strictly positive gain, so no split can be chosen. */
    | NoSplitFeature
    /** A decision node names a feature for which no provider exists. */
    | MissingProvider(feature: string)
    /** The object's value of the node's feature was never seen in training there. */
    | UnseenValue(feature: string, value: int)

  datatype Result<+T> = Ok(value: T) | Err(error: Error) {

    predicate IsFailure() {
      Err?
    }

    function PropagateFailure<U>(): Result<U>
      requires Err?
    {
      Err(error)
    }

    function Extract(): T
      requires Ok?
    {
      value
    }
  }
}
