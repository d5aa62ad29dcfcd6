/** Optional values: `None` stands for JavaScript's `undefined`, PHP's unset
    offset, or a step that raises an error, as each use below says. */
module Wrappers {

  datatype Option<+T> = None | Some(value: T)
}
