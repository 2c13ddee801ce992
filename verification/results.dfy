/** Failures raised by the population generator, and the result type that
    carries them. Each error corresponds to an exception the generator can
    raise: a failed `assert` (capacity shortfall, unequal marginals), a
    `KeyError` on an unknown program label, or `StopIteration` when an
    assignment stream runs dry. */
module Results {

  datatype Error =
    | Shortfall(available: nat, required: nat)   // fewer capacity slots than requested
    | UnequalMarginals(rows: nat, columns: nat)  // fleet and size totals differ
    | UnknownProgram(name: string)               // program label missing from the demand table
    | StopIteration                              // an assignment stream is exhausted

  datatype Result<+T> = Ok(value: T) | Err(error: Error) {

    predicate IsFailure() {
      Err?
    }

    function PropagateFailure<U>(): Result<U>
      requires Err?
    {
      Err(error)
    }

    function Extract(): T
      requires Ok?
    {
      value
    }
  }
}
