/** The optional values the TypeScript code expresses with `?:` fields and `null`. */
module Wrappers {
  datatype Option<+T> = None | Some(value: T)
}
