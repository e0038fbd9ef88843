/** The optional value used wherever the bot's Python code may hold `None`
    or an attribute may be absent. */
module Wrappers {
  datatype Option<+T> = None | Some(value: T)
}
