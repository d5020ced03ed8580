/** The ways a generator or a benchmark run stops early: each constructor
    stands for the Python exception the harness would let escape. */
module Results {

  datatype Failure =
    /** ValueError from random.randint(lo, hi) when the range is empty. */
    | EmptyRange(lo: int, hi: int)
    /** ValueError from range(start, stop, 0). */
    | ZeroStep
    /** re.match found no match and returned None, so calling .groups() on it
        raises AttributeError; the captured text is discarded with it. */
    | NoMatch

  datatype Result<+T> = Ok(value: T) | Err(error: Failure)
}
