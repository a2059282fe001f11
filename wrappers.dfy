/** The option type shared by the model's modules. */
module Wrappers {

  /** `None` stands for a value the source cannot produce as a finite
      number (a quotient whose divisor is zero, and whatever is computed
      from one). */
  datatype Option<+T> = None | Some(value: T)
}
