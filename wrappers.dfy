/** Python's `None` next to a value: the optional values the bot passes around. */
module Wrappers {

  datatype Option<+T> = None | Some(value: T)
}
