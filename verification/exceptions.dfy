/** The exceptions the modelled members raise, as values. */
module Exceptions {

  datatype Exception =
    | ArgumentNull(paramName: string)        // System.ArgumentNullException(paramName)
    | InvalidOperation                       // System.InvalidOperationException()
    | RequestValidation(messages: seq<string>) // raised by a request's Validate()
}
