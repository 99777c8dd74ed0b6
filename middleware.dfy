/** What a request-filtering middleware decides: call `next()`, or stop with 401 or 403. */
module Middleware {
  datatype Outcome = Next | Unauthorized(detail: string) | Forbidden(detail: string)
}

/**
 * `middleware/oauth2.js`: the scope an endpoint requires, and the bearer-token
 * decision. Tokens are simulated: any `mock-token-…` is accepted with a fixed grant.
 */
module OAuth2 {
  import opened Wrappers
  import opened Js
  import opened Middleware

  const CompteRead: string := "compte.read"
  const CompteWrite: string := "compte.write"
  const AliasRead: string := "alias.read"
  const AliasWrite: string := "alias.write"
  const AliasDelete: string := "alias.delete"
  const TransactionRead: string := "compte_transaction.read"
  const TransactionWrite: string := "compte_transaction.write"

  /** The scopes every accepted token is granted. */
  const GrantedScopes: seq<string> :=
    [CompteRead, CompteWrite, AliasRead, AliasWrite, AliasDelete, TransactionRead, TransactionWrite]

  const ComptesSegment: string := "/comptes/"
  const TransactionsSegment: string := "/transactions"
  const AliasSegment: string := "/alias"
  const BearerPrefix: string := "Bearer "
  const MockPrefix: string := "mock-token-"
  const MsgTokenManquant: string := "Token d'authentification manquant ou invalide"
  const MsgTokenInvalide: string := "Le token d'authentification est invalide ou expiré"

  /** `/comptes/transactions`, the transactions path, as its two segments. */
  function ComptesTransactions(): string {
    "/comptes" + TransactionsSegment
  }

  /**
   * `getRequiredScope`: account reads first (a GET under `/comptes/` outside the
   * transactions), then the transactions endpoint, then alias paths by method; any
   * other request requires no scope (None, the source's `null`).
   */
  function RequiredScope(path: string, verb: string): (r: Option<string>)
    ensures r.Some? ==> r.value in GrantedScopes
  {
    if Contains(path, ComptesSegment) && verb == "GET" && !Contains(path, TransactionsSegment) then Some(CompteRead)
    else if Contains(path, ComptesTransactions()) then Some(if verb == "GET" then TransactionRead else TransactionWrite)
    else if Contains(path, AliasSegment) && verb == "GET" then Some(AliasRead)
    else if Contains(path, AliasSegment) && verb == "POST" then Some(AliasWrite)
    else if Contains(path, AliasSegment) && verb == "DELETE" then Some(AliasDelete)
    else None
  }

  /**
   * The scope rules as they play out on the routes: a GET on an account path outside
   * the transactions needs `compte.read`, including the alias list; the transactions
   * endpoint needs the read scope for GET and the write scope otherwise; alias writes
   * and deletions need their own scopes; a path mentioning neither accounts nor aliases
   * (the webhooks) needs none.
   */
  lemma ScopeRules(path: string, verb: string)
    ensures Contains(path, ComptesSegment) && !Contains(path, TransactionsSegment) && verb == "GET" ==>
      RequiredScope(path, verb) == Some(CompteRead)
    ensures Contains(path, ComptesTransactions()) ==>
      RequiredScope(path, verb) == Some(if verb == "GET" then TransactionRead else TransactionWrite)
    ensures !Contains(path, TransactionsSegment) && Contains(path, AliasSegment) && verb == "POST" ==>
      RequiredScope(path, verb) == Some(AliasWrite)
    ensures !Contains(path, TransactionsSegment) && Contains(path, AliasSegment) && verb == "DELETE" ==>
      RequiredScope(path, verb) == Some(AliasDelete)
    ensures !Contains(path, "/comptes") && !Contains(path, AliasSegment) ==>
      RequiredScope(path, verb) == None
  {
    ContainsParts(path, "/comptes", TransactionsSegment);
    assert ComptesSegment == "/comptes" + "/";
    ContainsParts(path, "/comptes", "/");
  }

  /** `alias.read` is never asked of an alias list under `/comptes/`: the account rule comes first. */
  lemma AliasListNeedsCompteRead(path: string)
    requires Contains(path, ComptesSegment) && Contains(path, AliasSegment) && !Contains(path, TransactionsSegment)
    ensures RequiredScope(path, "GET") == Some(CompteRead)
    ensures RequiredScope(path, "GET") != Some(AliasRead)
  {
  }

  /** The routes the middleware lets through without a token. */
  predicate Bypass(path: string, verb: string) {
    path == "/health" || path == "/oauth/token" || (verb == "POST" && path == "/oauth/token")
  }

  /**
   * `oauth2Middleware`: bypass, then a `Bearer ` header, then a `mock-token-` token,
   * then the scope check against the granted list.
   */
  function OAuth2Decision(path: string, verb: string, authorization: Option<string>): Outcome {
    if Bypass(path, verb) then Next
    else if !Present(authorization) || !StartsWith(authorization.value, BearerPrefix) then Unauthorized(MsgTokenManquant)
    else
      var token := authorization.value[|BearerPrefix|..];
      if !StartsWith(token, MockPrefix) then Unauthorized(MsgTokenInvalide)
      else
        var required := RequiredScope(path, verb);
        if required.Some? && required.value !in GrantedScopes then
          Forbidden("Permission " + required.value + " requise pour accéder à cette ressource")
        else Next
  }

  /**
   * Every scope an endpoint can require is granted, so the 403 branch is dead, and a
   * request passes exactly when it is a bypass route or carries `Bearer mock-token-…`.
   */
  lemma OAuth2Accepts(path: string, verb: string, authorization: Option<string>)
    ensures !OAuth2Decision(path, verb, authorization).Forbidden?
    ensures OAuth2Decision(path, verb, authorization) == Next <==>
      Bypass(path, verb) ||
      (authorization.Some? && StartsWith(authorization.value, BearerPrefix + MockPrefix))
  {
    if authorization.Some? {
      StartsWithConcat(authorization.value, BearerPrefix, MockPrefix);
    }
  }

  /** Which 401 is given: a missing or non-bearer header, or a bearer token of the wrong form. */
  lemma OAuth2Refusals(path: string, verb: string, authorization: Option<string>)
    requires !Bypass(path, verb)
    ensures authorization.None? ==> OAuth2Decision(path, verb, authorization) == Unauthorized(MsgTokenManquant)
    ensures authorization.Some? && !StartsWith(authorization.value, BearerPrefix) ==>
      OAuth2Decision(path, verb, authorization) == Unauthorized(MsgTokenManquant)
    ensures (authorization.Some? && StartsWith(authorization.value, BearerPrefix) &&
             !StartsWith(authorization.value, BearerPrefix + MockPrefix)) ==>
      OAuth2Decision(path, verb, authorization) == Unauthorized(MsgTokenInvalide)
  {
    if authorization.Some? {
      StartsWithConcat(authorization.value, BearerPrefix, MockPrefix);
    }
  }
}

/**
 * `middleware/mtls.js`: the client certificate, read from a header that defaults to the
 * test certificate, must mention BCEAO or PI-SPI.
 */
module Mtls {
  import opened Wrappers
  import opened Js
  import opened Middleware

  const TestCert: string := "BCEAO-TEST-CERT"
  const Issuer: string := "BCEAO"
  const Network: string := "PI-SPI"
  const MsgCertificatRequis: string := "Un certificat client valide est requis pour accéder à cette API"
  const MsgCertificatBceao: string := "Le certificat client doit être délivré par la BCEAO"

  predicate Bypass(path: string) {
    path == "/health" || path == "/oauth/token"
  }

  /** `mtlsMiddleware`, with `x-client-certificate` as an optional header value. */
  function MtlsDecision(path: string, certificate: Option<string>): Outcome {
    if Bypass(path) then Next
    else
      var cert := OrElse(certificate, TestCert);
      if cert == TestCert then Next
      else if cert == "" then Unauthorized(MsgCertificatRequis)
      else if !Contains(cert, Issuer) && !Contains(cert, Network) then Forbidden(MsgCertificatBceao)
      else Next
  }

  lemma TestCertShape()
    ensures TestCert == [] + Issuer + "-TEST-CERT"
  {
  }

  /**
   * The 401 branch is dead (the header defaults to a non-empty value), and a request
   * passes exactly when it is a bypass route, has no (or an empty) certificate, or
   * presents one mentioning BCEAO or PI-SPI; every other request is a 403.
   */
  lemma MtlsAccepts(path: string, certificate: Option<string>)
    ensures !MtlsDecision(path, certificate).Unauthorized?
    ensures MtlsDecision(path, certificate) == Next <==>
      Bypass(path) || !Present(certificate) ||
      Contains(certificate.value, Issuer) || Contains(certificate.value, Network)
    ensures MtlsDecision(path, certificate).Forbidden? ==> MtlsDecision(path, certificate) == Forbidden(MsgCertificatBceao)
  {
    TestCertShape();
    ContainsMiddle([], Issuer, "-TEST-CERT");
  }
}
