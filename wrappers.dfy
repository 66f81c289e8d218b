/**
 * The optional value: `None` stands for the NaN that the JavaScript
 * arithmetic yields, and for "no bucket accepts the value" in the bucket scan.
 */
module Wrappers {
  datatype Option<T> = None | Some(value: T)
}
