/** What the tester reads from System.IdentityModel.Tokens.Jwt: the fields
    of a decoded token. Decoding itself belongs to that library and is not
    modelled; its result is an input. */
module Jwt {
  import opened Common

  /** A claim as JwtSecurityToken.Claims lists it: the raw JWT claim name and its value. */
  datatype Claim = Claim(claimType: string, value: string)

  /** The token fields the tester reads. Times are abstract timestamps,
      already converted to local time where the tester calls ToLocalTime. */
  datatype JwtToken = JwtToken(
    issuer: string,
    audiences: seq<string>,
    validTo: int,
    issuedAt: int,
    claims: seq<Claim>)

  /** The result of `handler.ReadToken(token) as JwtSecurityToken`: a token,
      null (the value read is not a JWS token), or an exception. */
  datatype ReadResult = Read(token: JwtToken) | NotJwt | Threw(error: Exn)

  /** JwtSecurityTokenHandler.ReadToken, as a function of the token string. */
  type TokenReader = string -> ReadResult

  /** What `reader` reads from `s`. */
  function ReadToken(reader: TokenReader, s: string): ReadResult
  {
    reader(s)
  }

  /** ClaimTypes.NameIdentifier. */
  const NameIdentifierUri := "http://schemas.xmlsoap.org/ws/2005/05/identity/claims/nameidentifier"

  /** ClaimTypes.Name. */
  const NameUri := "http://schemas.xmlsoap.org/ws/2005/05/identity/claims/name"
}
