/** Option and Result types, and the errors the modelled code raises (as `throw` or as a
    JavaScript TypeError). */
module Wrappers {

  datatype Option<+T> = None | Some(value: T)

  /** Every way the modelled operations can fail. */
  datatype Error =
    | NoNumber          // a token of `_splitValue` holds no digit
    | NoNode            // a CSS unit is converted while no node is selected
    | UnknownUnit       // a unit outside px, rem, em, %, vh, vw
    | NoPercentProperty // `%` is converted while no property is set
    | NoComputedValue   // the parent's computed style has no entry for the property
    | ComputedNotPx     // a computed value read back in a unit other than px
    | NotIterable       // `from` or `to` still holds its default 0 when units are compared
    | PropertyNotString // `property` was given a non-string

  datatype Result<+T> = Ok(value: T) | Err(error: Error)
}
