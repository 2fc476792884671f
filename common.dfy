/** Small value wrappers shared by every module of the model. */
module Common {

  /** A value that may be absent (a Kotlin nullable, an `Optional`, a map miss). */
  datatype Option<+T> = None | Some(value: T)

  /** The three ways a single-valued reactive result (`Mono`) can end:
      with a value, completing empty, or signalling an error. */
  datatype Reply<+T> = Value(value: T) | Empty | Error

  /** The outcome of collecting a multi-valued reactive stream (`Flux`) into a list:
      every item in order, or an error. */
  datatype ListReply<+T> = Items(items: seq<T>) | StreamError
}
