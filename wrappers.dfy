/** Small option type shared by the other modules. A missing cell of the
    table (pandas' NaN) and an absent result are both `None`. */
module Wrappers {

  datatype Option<+T> = None | Some(value: T)
}
