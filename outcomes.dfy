/** Go's `error` results, as values. */
module Outcomes {

  datatype Error =
    | Conflict                               // the store refused a write to a PrometheusServer
    | ApiFailure                             // a call on a downstream resource failed
    | NotFound(key: string)                  // the lister has no object under this key
    | InvalidKey(key: string)                // a queue key that is not "namespace/name" or "name"
    | NoHandler(phase: string)               // no handler registered for this phase
    | Wrapped(context: string, cause: Error) // fmt.Errorf("...: %w", cause)

  /** An `error` return: nil or an error. */
  datatype Outcome = Pass | Fail(error: Error)

  /** What a phase handler returns: `(newStatus string, err error)`. */
  datatype Transition = Transition(phase: string, outcome: Outcome)

  /** `fmt.Errorf("<context>, error %w", err)` when `err` is not nil, nil otherwise. */
  function Wrap(context: string, o: Outcome): Outcome {
    if o.Fail? then Fail(Wrapped(context, o.error)) else Pass
  }

  datatype Option<T> = None | Some(value: T)

  /** A `(bool, error)` pair as returned by the existence checks. */
  datatype Probe = Probe(ok: bool, outcome: Outcome)
}
