/** The errors the Container Apps service returns, and what a caller sees of
    them (`err.Error()`). */
module Errors {
  import opened Wrappers

  /** The two errors `ctx.Err()` can return once a context is done. */
  datatype ContextError = Canceled | DeadlineExceeded

  datatype Error =
    /** An error returned by a collaborator (the ARM SDK, the YAML decoder, ...),
        carrying only its text. */
    | Remote(text: string)
    /** `fmt.Errorf("<context>: %w", inner)`. */
    | Wrapped(context: string, inner: Error)
    /** `fmt.Errorf` with no wrapped error. */
    | Plain(text: string)
    /** An error carrying a remediation hint; its text is the inner error's text. */
    | WithSuggestion(err: Error, suggestion: string)
    /** `ctx.Err()`, returned as it is. */
    | Context(cause: ContextError)
    /** A Go runtime panic (nil pointer dereference, index out of range). It
        unwinds out of the operation instead of being returned. */
    | Panic(reason: string)

  /** The text `err.Error()` yields. */
  function Message(e: Error): string {
    match e
    case Remote(text) => text
    case Wrapped(context, inner) => context + ": " + Message(inner)
    case Plain(text) => text
    case WithSuggestion(inner, _) => Message(inner)
    case Context(Canceled) => "context canceled"
    case Context(DeadlineExceeded) => "context deadline exceeded"
    case Panic(reason) => "panic: " + reason
  }

  /** `fmt.Errorf("<context>: %w", e)`; a panic passes through untouched, since
      no caller gets the chance to wrap it. */
  function Wrap(context: string, e: Error): (r: Error)
    ensures e.Panic? ==> r == e
    ensures !e.Panic? ==> Message(r) == context + ": " + Message(e)
  {
    if e.Panic? then e else Wrapped(context, e)
  }

  const NilDereference: string := "runtime error: invalid memory address or nil pointer dereference"
  const IndexOutOfRange: string := "runtime error: index out of range [0] with length 0"

  /** How a blocking operation ended: it returned (nil or an error), or it is
      still polling when the supplied observations run out. */
  datatype Exit = Returned(err: Option<Error>) | StillPolling {
    predicate Succeeded() {
      this == Returned(None)
    }
  }
}
