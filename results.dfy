/** Error values and the failure-carrying wrappers shared by the whole model.
    The library reports every violation by throwing; here each throw becomes
    a `Failure`/`Fail` value naming which violation it was. */
module Results {

  /** The violations the layers, the shape checkers and the operator
      builders report. */
  datatype Error =
    | NoMatchingForward  // FeedBackward with no buffered forward value left
    | ShapeMismatch      // operand shapes disagree, or a shape disagrees with its paired forward shape
    | CheckerEmpty       // CheckAndPop on a shape checker with nothing pushed
    | CheckerNotEmpty    // AssertEmpty on a shape checker that still holds shapes
    | NotNeutral         // NeutralInvariant found buffered forward values

  datatype Option<+T> = None | Some(value: T)

  /** A value, or the violation that was thrown instead of producing it. */
  datatype Result<+T> = Success(value: T) | Failure(error: Error)

  /** A check that either passes or reports a violation. */
  datatype Outcome = Pass | Fail(error: Error)
}
