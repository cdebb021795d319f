/** An optional value: None stands for an absent dictionary entry or query parameter, or a JSON null. */
module Wrappers {

  datatype Option<+T> = None | Some(value: T)
}
