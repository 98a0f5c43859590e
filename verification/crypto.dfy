/** The two cryptographic helpers the server leans on, as abstract data with
    the laws the server relies on: bcrypt password hashing and signed,
    expiring JWT access tokens. Time is whole seconds since the epoch. */
module Crypto {
  import opened Common

  // ---------------------------------------------------------------------
  // bcrypt

  /** A bcrypt hash: the salt drawn by `bcrypt.gensalt()` and the password
      it was computed from. The password is kept only so that `checkpw` can
      be stated; no operation of the model reads it back out. */
  datatype PasswordHash = Bcrypt(salt: string, secret: string)

  /** `hash_password`: `salt` stands for the random salt. */
  function HashPassword(password: string, salt: string): (h: PasswordHash)
    ensures VerifyPassword(password, h)
    ensures h.salt == salt
  {
    Bcrypt(salt, password)
  }

  /** `verify_password`, that is `bcrypt.checkpw`. */
  predicate VerifyPassword(plain: string, h: PasswordHash)
  {
    plain == h.secret
  }

  /** A hash accepts exactly the password it was made from, whatever the
      salt. */
  lemma VerifyHashIff(plain: string, password: string, salt: string)
    ensures VerifyPassword(plain, HashPassword(password, salt)) <==> plain == password
  {
  }

  // ---------------------------------------------------------------------
  // JWT

  /** `JWT_SECRET`, `JWT_ALGORITHM` and `JWT_EXPIRATION_HOURS`. */
  datatype JwtConfig = JwtConfig(secret: string, algorithm: string, expirationHours: int)

  /** The payload the server signs: `{"sub": id, "role": role, "exp": exp}`. */
  datatype Claims = Claims(sub: string, role: Role, exp: int)

  /** A bearer token: one the server signed with some key and algorithm, or
      any other text (a forgery, a truncation, garbage). */
  datatype Token = Signed(claims: Claims, key: string, algorithm: string) | Opaque(text: string)

  /** The failure `decode_token` turns every decoding error into. */
  const InvalidToken := HttpError(401, "Invalid token")

  /** `create_access_token`: the claims get `exp` = issue time plus the
      configured hours, and are signed with the configured key. PyJWT writes
      `exp` as whole seconds, so with `now` in whole seconds the expiry is
      exact. */
  function CreateAccessToken(cfg: JwtConfig, sub: string, role: Role, now: int): (t: Token)
    ensures t.Signed? && t.claims.sub == sub && t.claims.role == role
    ensures t.claims.exp == now + cfg.expirationHours * 3600
    ensures forall at :: at < t.claims.exp ==> DecodeToken(cfg, t, at) == Ok(Claims(sub, role, t.claims.exp))
    ensures forall at :: at >= t.claims.exp ==> DecodeToken(cfg, t, at) == Err(InvalidToken)
  {
    Signed(Claims(sub, role, now + cfg.expirationHours * 3600), cfg.secret, cfg.algorithm)
  }

  /** `decode_token`: a token decodes to its claims when it carries the
      server's own signature and has not expired (PyJWT rejects once
      `exp <= now`); every failure becomes 401 "Invalid token". */
  function DecodeToken(cfg: JwtConfig, t: Token, now: int): (r: Result<Claims>)
    ensures r.Ok? <==> t.Signed? && t.key == cfg.secret && t.algorithm == cfg.algorithm && now < t.claims.exp
    ensures r.Ok? ==> r.value == t.claims
    ensures r.Err? ==> r.error == InvalidToken
  {
    match t
    case Signed(claims, key, alg) =>
      if key == cfg.secret && alg == cfg.algorithm && now < claims.exp then Ok(claims)
      else Err(InvalidToken)
    case Opaque(_) => Err(InvalidToken)
  }

  /** A token signed under another key or algorithm never decodes. */
  lemma ForeignTokenRejected(cfg: JwtConfig, other: JwtConfig, sub: string, role: Role, issued: int, now: int)
    requires other.secret != cfg.secret || other.algorithm != cfg.algorithm
    ensures DecodeToken(cfg, CreateAccessToken(other, sub, role, issued), now) == Err(InvalidToken)
  {
  }

  /** Expiry is final: a token that decodes at some moment also decoded at
      every earlier one. */
  lemma ExpiryIsMonotone(cfg: JwtConfig, t: Token, a: int, b: int)
    requires a <= b
    ensures DecodeToken(cfg, t, b).Ok? ==> DecodeToken(cfg, t, a).Ok?
  {
  }
}
