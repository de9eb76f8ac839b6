/** The token collaborator. Signing and verification are opaque: callers
    receive them as function values. */
module Jwt {
  import opened Wrappers

  /** The payload login signs and the request hook decodes. */
  datatype TokenPayload = TokenPayload(id: string, email: string, applicationId: string, scopes: seq<string>)

  /** `jwt.sign(payload, secret)`. The secret is fixed; the issued-at time
      `jwt.sign` embeds by default is not, so one `Signer` value stands for
      signing at one instant. */
  type Signer = TokenPayload -> string

  /** `jwt.verify(token, secret)`: the decoded payload, or None where it throws. */
  type Verifier = string -> Option<TokenPayload>
}
