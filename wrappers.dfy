/** The optional values the overlay code tests for truthiness (`if asset and room`). */
module Wrappers {

  datatype Option<+T> = None | Some(value: T)
}
