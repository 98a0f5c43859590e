/** Small shared vocabulary of the server and the client: optional values,
    the two roles, the two message kinds and HTTP-style errors. */
module Common {

  /** `None` plays the part of Python's `None` and JavaScript's `null`. */
  datatype Option<+T> = None | Some(value: T)

  /** The `role` string of a user record. Only "user" (the default) and
      "admin" (the seeded administrator) are ever written by the server. */
  datatype Role = UserRole | AdminRole

  function RoleName(r: Role): string
  {
    match r
    case UserRole => "user"
    case AdminRole => "admin"
  }

  /** The two kinds of message a visitor can send. */
  datatype MessageKind = Enquiry | Feedback

  /** The `type` discriminant the contact form attaches to its payload. */
  function KindName(k: MessageKind): string
  {
    match k
    case Enquiry => "enquiry"
    case Feedback => "feedback"
  }

  /** An `HTTPException(status, detail)` raised by a route. */
  datatype HttpError = HttpError(status: int, detail: string)

  /** The outcome of a route: its response body or the exception it raised. */
  datatype Result<+T> = Ok(value: T) | Err(error: HttpError)

  lemma RoleNamesDistinct(a: Role, b: Role)
    ensures RoleName(a) == RoleName(b) <==> a == b
  {
  }

  lemma KindNamesDistinct(a: MessageKind, b: MessageKind)
    ensures KindName(a) == KindName(b) <==> a == b
  {
  }
}
