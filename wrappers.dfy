/** The optional-value datatype shared by the components: a JavaScript value
    that may be `null` or `undefined` becomes an `Option`. */
module Wrappers {

  datatype Option<+T> = None | Some(value: T)

}
