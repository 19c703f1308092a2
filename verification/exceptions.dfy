/** The Python exceptions the request handlers tell apart. Only the class
    matters to them (`except ValueError` versus `except Exception`), plus the
    message they copy into the HTTP error detail with `str(e)`. */
module Exceptions {

  datatype Exception =
    | ValueError(message: string)
    | OtherException(message: string)
}
