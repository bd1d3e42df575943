/** Error values and the small option/outcome/result types the rest of the model uses in place
    of Go's `nil`, `error` and `(T, error)` returns. */
module Wrappers {

  /** A value that may be absent: Go's nil pointer, nil function or missing map entry. */
  datatype Option<+T> = None | Some(value: T)

  /** The errors the framework produces. Go compares errors by identity (`errors.Is`), so the
      model keeps the one sentinel the framework tests for, `ErrAggregateNotFound`, apart. */
  datatype Error =
    | AggregateNotFound                  // evol.ErrAggregateNotFound (repository.go:8)
    | Msg(text: string)                  // errors.New / fmt.Errorf without %w
    | Wrap(text: string, cause: Error)   // fmt.Errorf with %w: the cause stays visible to errors.Is
    | DecodeFailed                       // mapstructure.Decode could not fill the target struct
    | Panic(text: string)                // a Go panic, returned here instead of unwinding the process

  /** `errors.Is(e, ErrAggregateNotFound)`: the sentinel itself, or wrapped by %w any number of times. */
  predicate IsAggregateNotFound(e: Error)
  {
    match e
    case AggregateNotFound => true
    case Wrap(_, cause) => IsAggregateNotFound(cause)
    case _ => false
  }

  /** Go's `error` return: `nil` is Pass. */
  datatype Outcome = Pass | Fail(error: Error)

  /** Go's `(T, error)` return where the value is meaningful only without an error. */
  datatype Result<+T> = Ok(value: T) | Err(error: Error)
}
