/**
 * Shared vocabulary of the model: optional values, the typed errors the
 * procedures raise, user roles, and the library checks the application
 * calls but does not implement (email/cuid/url recognition, bcrypt).
 */
module Common {

  datatype Option<+T> = None | Some(value: T)

  type Id = string

  /** The three user roles (src/types/index.ts). */
  datatype Role = ADMIN | CLIENT | GUEST

  /**
   * The error codes a procedure can raise. INTERNAL_SERVER_ERROR is how an
   * error thrown by the database layer itself (a write to a missing row, a
   * dangling reference) reaches the caller.
   */
  datatype ErrorCode = UNAUTHORIZED | FORBIDDEN | NOT_FOUND | CONFLICT | BAD_REQUEST | INTERNAL_SERVER_ERROR

  /**
   * What caused an error. Input validation failures carry the validation
   * error, reduced to the list of field paths that failed.
   */
  datatype Cause = NoCause | ZodCause(paths: seq<string>) | OtherCause

  datatype TrpcError = TrpcError(code: ErrorCode, cause: Cause)

  datatype Result<+T> = Ok(value: T) | Err(error: TrpcError)

  function Fail<T>(code: ErrorCode): Result<T>
  {
    Err(TrpcError(code, NoCause))
  }

  /** The database layer rejected the operation. */
  function DbError<T>(): Result<T>
  {
    Err(TrpcError(INTERNAL_SERVER_ERROR, OtherCause))
  }

  /** A failed input validation: BAD_REQUEST carrying the failing paths. */
  function Invalid<T>(paths: seq<string>): Result<T>
  {
    Err(TrpcError(BAD_REQUEST, ZodCause(paths)))
  }

  /**
   * Library behaviour the application relies on but does not define:
   * the validation library's email, cuid and url recognisers, and bcrypt's
   * salted hash (with its cost factor) and comparison.
   */
  datatype Lib = Lib(
    isEmail: string -> bool,
    isCuid: string -> bool,
    isUrl: string -> bool,
    hash: (string, nat) -> string,
    compare: (string, string) -> bool)
}
