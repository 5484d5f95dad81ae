/** The three-variant outcome type that every network operation reports to the screens. */
module Results {

  /** `Loading` while the call is in flight, then `Success` with the payload or `Error` with a text. */
  datatype ResultState<+T> = Loading | Success(data: T) | Error(error: string) {

    /** Success and Error end an operation; Loading does not. */
    predicate IsTerminal() {
      !Loading?
    }
  }
}
