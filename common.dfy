/** Values shared by every part of the export-table generator model. */
module Common {

  datatype Option<+T> = None | Some(value: T)

  datatype Result<+R, +E> = Success(value: R) | Failure(error: E)

  /** The syntactic shape of a user expression, as far as the generator looks at it:
      only the `name` field inspects whether its value is a string literal, and the
      placeholder signature is an empty verbatim token stream. */
  datatype ExprKind = StrLit(text: string) | Verbatim | Other

  /** A user expression, treated as an opaque value with an identity. */
  datatype Expr = Expr(id: nat, kind: ExprKind)

  /** The first present value of two, as Rust's `a.or(b)`. */
  function Or<T>(a: Option<T>, b: Option<T>): Option<T>
  {
    if a.Some? then a else b
  }
}
