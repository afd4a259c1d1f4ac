/** The Python exceptions that the modelled code can raise, by class. */
module Exceptions {

  datatype PyError =
    | ZeroDivisionError
    | KeyError
    | ValueError
    | TypeError
    | ModeError(message: string)
}
