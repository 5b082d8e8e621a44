/** The optional value of TypeScript: `undefined` is `None`, a present value is `Some`. */
module Wrappers {

  datatype Option<+T> = None | Some(value: T)

}
