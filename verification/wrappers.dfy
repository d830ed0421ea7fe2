/** The optional-value wrapper the model uses where the service has a nullable value. */
module Wrappers {

  datatype Option<+T> = None | Some(value: T)
}
