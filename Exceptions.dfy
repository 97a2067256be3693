/** The exceptions the modelled code throws or lets through, as values. */
module Exceptions {

  datatype Exception =
    | ActiveRecordException(message: string)
    | ConfigurationErrorsException(message: string)
    | ArgumentOutOfRangeException(paramName: string)
    | NotImplementedException
    | NullReferenceException
    | InvalidCastException
      /** An exception thrown by user code (an action given to a conversation). */
    | ApplicationException(id: nat)
}
