/**
 * The parts of the OAuth2 protocol library that the request path touches,
 * reduced to their observable state. The library's own logic (parsing,
 * minting, writing, error conversion) is not modelled: its results are
 * inputs of the operations that use them.
 */
module Fosite {

  /** An RFC 6749 error as `fosite.ErrorToRFC6749Error` returns it. */
  datatype RFC6749Error = RFC6749Error(name: string, description: string, hint: string, debug: string)

  /** An opaque authorize response produced by the response engine. */
  datatype AuthorizeResponse = AuthorizeResponse(code: string)

  /**
   * The mutable authorize request (`fosite.AuthorizeRequester`). The
   * orchestrator grants scopes and audiences onto it and assigns its id;
   * the client id and the cached result of `IsRedirectURIValid` never
   * change once the protocol layer has built it.
   */
  class AuthorizeRequest {
    var id: string
    var grantedScope: seq<string>
    var grantedAudience: seq<string>
    const clientID: string
    const redirectURIValid: bool

    /** A freshly parsed request: no id assigned yet and nothing granted. */
    constructor (clientID: string, redirectURIValid: bool)
      ensures this.clientID == clientID && this.redirectURIValid == redirectURIValid
      ensures id == "" && grantedScope == [] && grantedAudience == []
    {
      this.clientID := clientID;
      this.redirectURIValid := redirectURIValid;
      id := "";
      grantedScope := [];
      grantedAudience := [];
    }

    /** `GrantScope`: appends one scope to the granted scopes. */
    method GrantScope(scope: string)
      modifies this
      ensures grantedScope == old(grantedScope) + [scope]
      ensures grantedAudience == old(grantedAudience) && id == old(id)
    {
      grantedScope := grantedScope + [scope];
    }

    /** `GrantAudience`: appends one audience to the granted audiences. */
    method GrantAudience(audience: string)
      modifies this
      ensures grantedAudience == old(grantedAudience) + [audience]
      ensures grantedScope == old(grantedScope) && id == old(id)
    {
      grantedAudience := grantedAudience + [audience];
    }

    /** `SetID`: assigns the correlation id and nothing else. */
    method SetID(newID: string)
      modifies this
      ensures id == newID
      ensures grantedScope == old(grantedScope) && grantedAudience == old(grantedAudience)
    {
      id := newID;
    }
  }
}
