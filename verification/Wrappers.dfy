/** Small result types shared by the other modules. */
module Wrappers {

  datatype Option<+T> = None | Some(value: T)

  /** The result of an operation that looks its argument up in a table: a value, or the
      std::out_of_range that std::map::at throws for a missing key. */
  datatype Outcome<+T> = Ok(value: T) | OutOfRange
}
