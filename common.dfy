/** Shared value types: optional values, results and the exceptions the core raises or lets through. */
module Common {

  datatype Option<+T> = None | Some(value: T)

  datatype Result<+T, +E> = Ok(value: T) | Err(error: E)

  /** The .NET exception classes that the modelled code throws or rethrows. */
  datatype ExceptionKind =
    | InvalidOperation      // System.InvalidOperationException
    | Argument              // System.ArgumentException
    | Format                // System.FormatException
    | Overflow              // System.OverflowException
    | KeyNotFound           // System.Collections.Generic.KeyNotFoundException
    | InvalidCast           // System.InvalidCastException
    | JsonError             // System.Text.Json.JsonException
    | Cosmos(status: int)   // Microsoft.Azure.Cosmos.CosmosException with its HTTP status
    | General               // System.Exception
    | Gateway               // whatever a hosted-model or search SDK call throws

  /** An exception: its class and its Message. */
  datatype Exception = Exception(kind: ExceptionKind, message: string)

  /** Points in time, in seconds; only differences of whole hours matter to the core. */
  type Instant = int

  const SecondsPerHour := 3600

  /** char.IsWhiteSpace: the Unicode space separators, the line and paragraph separators, and U+0009-U+000D, U+0085. */
  predicate IsWhiteSpace(c: char)
  {
    ('\U{0009}' <= c <= '\U{000D}') || c == ' ' || c == '\U{0085}' || c == '\U{00A0}' || c == '\U{1680}'
    || ('\U{2000}' <= c <= '\U{200A}') || c == '\U{2028}' || c == '\U{2029}' || c == '\U{202F}' || c == '\U{205F}'
    || c == '\U{3000}'
  }

  /** string.IsNullOrWhiteSpace, with null written as the empty string. */
  predicate IsBlank(s: string)
  {
    forall i :: 0 <= i < |s| ==> IsWhiteSpace(s[i])
  }
}
