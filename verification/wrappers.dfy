/** The optional-value datatype the model uses wherever the Java code passes
    a reference that may be null, or produces something only on some paths. */
module Wrappers {

  datatype Option<+T> = None | Some(value: T)
}
