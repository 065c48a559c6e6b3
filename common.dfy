/** Option and Result values shared by every module of the model, and the
    kinds of exception the launcher can end with. */
module Common {

  datatype Option<+T> = None | Some(value: T)

  /** Why an operation failed; each constructor is one exception the
      launcher throws or lets escape. */
  datatype Error =
    | PortRangeExhausted          // `first` on an empty filter: NoSuchElementException
    | ProcessStartFailed          // ProcessBuilder.start threw
    | SerialNotFound(avd: string) // IllegalStateException after the connection poll
    | InstrumentationNotFound     // checkNotNull on the looked-up instrumentation
    | HarnessExitedAbnormally(code: int) // RuntimeException("Failed to execute tests")
    | CommandFailed               // runCommand without ignoreError saw a non-zero exit

  datatype Result<+T> = Ok(value: T) | Err(error: Error)

  /** Appending two pieces one after the other appends their concatenation. */
  lemma AppendThree<T>(s: seq<T>, x: seq<T>, y: seq<T>)
    ensures s + x + y == s + (x + y)
  {
  }

  /** A non-empty sequence is its head followed by its tail. */
  lemma HeadTail<T>(s: seq<T>)
    requires s != []
    ensures [s[0]] + s[1..] == s
  {
  }
}
