/** Option, the outcome of a collaborator that may fail (JSON decoding, bcrypt, jwt-go signing). */
module Wrappers {

  datatype Option<+T> = None | Some(value: T)
}
