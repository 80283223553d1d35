/** Optional values, used wherever the bot reads a value that may be absent
    (a parse that raises, an external call that fails). */
module Wrappers {

  datatype Option<+T> = None | Some(value: T)
}
