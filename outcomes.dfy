/** The exceptions the modelled code can raise, by why they are raised,
    and the result of an operation that can raise one. */
module Outcomes {

  datatype Error =
    | RequestFailed          // `raise_for_status()` on a non-success reply, a transport error, or a body that is not JSON
    | NotADict               // AttributeError or TypeError: `.get` or `[key]` used on a value that is not a dict
    | MissingKey             // KeyError: `[key]` on a dict without that key
    | NotIterable            // TypeError: `list.extend` of a value that cannot be iterated
    | BadTimestamp           // TypeError: `utcfromtimestamp` of a value that is not a number
    | TimestampOutOfRange    // ValueError: the instant falls outside the years 1 to 9999
    | NotANumber             // TypeError: `+` of a number and a value that is not one
    | Unbindable             // the database driver cannot bind a list, a dict or an integer beyond 64 bits
    | IntegrityError         // the flush at commit violates a NOT NULL or primary-key constraint
    | FlushFailed            // the flush at commit fails: a constraint is violated or a value cannot be bound
    | RolledBack             // a flush failed and the handler could not close the ledger row

  datatype Result<T> = Success(value: T) | Failure(error: Error)
}
