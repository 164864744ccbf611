/** The Ruby exceptions the gateway's code paths can raise, shared by every layer. */
module RubyErrors {
  datatype Raised =
    | ArgumentError(missing: string)   // `requires!` finds a required key missing
    | NoMethodError                    // a method called on nil or on a value of the wrong class
}
