/**
 * The authentication facade (AuthenticationLayer) in front of the service.
 *
 * The facade wraps a delegate service and an authentication service. A guarded call
 * rejects a missing request and a request without a token, asks the authentication
 * service to verify the token, and only when that succeeds forwards the same request
 * to the delegate and hands back the delegate's reply unchanged. Asking for the API
 * version goes straight to the delegate.
 *
 * Both collaborators are recorders: the delegate logs the calls it receives, the
 * authentication service the token ids it is asked to verify, so that "no
 * interaction" is a statement about a log. Neither looks at its log to answer: as
 * with the tests' mocks, the answer depends on the call alone. The Test* methods
 * replay the facade's unit tests on fresh collaborators and state what those tests
 * assert.
 */
module Authentication {
  import opened Wrappers
  import opened Requests

  // ---------------------------------------------------------------------------
  // Data

  /** The guarded operations whose behaviour is pinned down. */
  datatype Rpc = ProvisionApplication | RegenerateToken | RegisterHealthCheck

  /** A request of a guarded operation: its token and, abstractly, everything else it carries. */
  datatype Request = Request(token: Option<Token>, body: string)

  /** A response of the delegate, abstractly. */
  datatype Response = Response(body: string)

  /** The exceptions a call can end with. */
  datatype Failure =
    | InvalidArgument          // InvalidArgumentException
    | InvalidToken             // InvalidTokenException
    | IllegalArgument          // IllegalArgumentException
    | OperationFailed(reason: string)   // any exception of the delegate's own

  /** A call's result: a value, or the exception it throws. */
  datatype Reply<T> = Returned(value: T) | Thrown(failure: Failure)

  /** One call received by the delegate. */
  datatype Interaction = Invoked(rpc: Rpc, request: Request) | ApiVersionAsked

  // ---------------------------------------------------------------------------
  // What a guarded call does

  /** The token was verified and the request may be forwarded. */
  predicate Authenticated(rejects: Option<string> -> bool, request: Option<Request>)
  {
    request.Some? && request.value.token.Some? && !rejects(request.value.token.value.tokenId)
  }

  /** The reply of a guarded call, for a verifier that rejects the given token ids and a delegate that answers as given. */
  function GuardedReply(rejects: Option<string> -> bool, answer: (Rpc, Request) -> Reply<Response>,
                        rpc: Rpc, request: Option<Request>): Reply<Response>
  {
    if request.None? then Thrown(InvalidArgument)
    else if request.value.token.None? then Thrown(InvalidToken)
    else if rejects(request.value.token.value.tokenId) then Thrown(InvalidToken)
    else answer(rpc, request.value)
  }

  /** The token ids a guarded call asks to verify: the request's own, once there is a token. */
  function VerifyCalls(request: Option<Request>): seq<Option<string>>
  {
    if request.Some? && request.value.token.Some? then [request.value.token.value.tokenId] else []
  }

  /** The calls a guarded call makes on the delegate: the same request, once authenticated. */
  function DelegateCalls(rejects: Option<string> -> bool, rpc: Rpc, request: Option<Request>): seq<Interaction>
  {
    if Authenticated(rejects, request) then [Invoked(rpc, request.value)] else []
  }

  // ---------------------------------------------------------------------------
  // Properties of a guarded call

  /**
   * The delegate is called if and only if the request has a token the verifier
   * accepts; then it is called once, with the very request, and its reply, value or
   * exception, is the facade's reply.
   */
  lemma ForwardsOnlyWhenAuthenticated(rejects: Option<string> -> bool, answer: (Rpc, Request) -> Reply<Response>,
                                      rpc: Rpc, request: Option<Request>)
    ensures DelegateCalls(rejects, rpc, request) != [] <==> Authenticated(rejects, request)
    ensures Authenticated(rejects, request) ==>
      && DelegateCalls(rejects, rpc, request) == [Invoked(rpc, request.value)]
      && GuardedReply(rejects, answer, rpc, request) == answer(rpc, request.value)
  {
  }

  /** Whenever the call is not authenticated it throws, and the delegate is not called. */
  lemma UnauthenticatedThrows(rejects: Option<string> -> bool, answer: (Rpc, Request) -> Reply<Response>,
                              rpc: Rpc, request: Option<Request>)
    requires !Authenticated(rejects, request)
    ensures DelegateCalls(rejects, rpc, request) == []
    ensures GuardedReply(rejects, answer, rpc, request)
      == (if request.None? then Thrown(InvalidArgument) else Thrown(InvalidToken))
  {
  }

  /** The verifier sees the request's token id verbatim, and only a request with a token reaches it. */
  lemma VerifiesTokenIdVerbatim(request: Option<Request>)
    ensures |VerifyCalls(request)| <= 1
    ensures VerifyCalls(request) != [] <==> request.Some? && request.value.token.Some?
    ensures forall id | id in VerifyCalls(request) :: id == request.value.token.value.tokenId
  {
  }

  // ---------------------------------------------------------------------------
  // The collaborators and the facade

  /** AuthenticationService: verifyToken throws InvalidToken for the token ids it rejects. */
  class AuthenticationService {
    const rejects: Option<string> -> bool
    var verified: seq<Option<string>>

    constructor (rejects: Option<string> -> bool)
      ensures this.rejects == rejects && verified == []
    {
      this.rejects := rejects;
      verified := [];
    }

    /** verifyToken, with a request holding the token id; false when it throws. */
    method VerifyToken(tokenId: Option<string>) returns (ok: bool)
      modifies this
      ensures verified == old(verified) + [tokenId]
      ensures ok == !rejects(tokenId)
    {
      verified := verified + [tokenId];
      ok := !rejects(tokenId);
    }
  }

  /** The delegate service: answers each guarded operation as given, and reports a fixed API version. */
  class BananaService {
    const answer: (Rpc, Request) -> Reply<Response>
    const apiVersion: real
    var interactions: seq<Interaction>

    constructor (answer: (Rpc, Request) -> Reply<Response>, apiVersion: real)
      ensures this.answer == answer && this.apiVersion == apiVersion && interactions == []
    {
      this.answer := answer;
      this.apiVersion := apiVersion;
      interactions := [];
    }

    method Invoke(rpc: Rpc, request: Request) returns (reply: Reply<Response>)
      modifies this
      ensures interactions == old(interactions) + [Invoked(rpc, request)]
      ensures reply == answer(rpc, request)
    {
      interactions := interactions + [Invoked(rpc, request)];
      reply := answer(rpc, request);
    }

    method GetApiVersion() returns (version: real)
      modifies this
      ensures interactions == old(interactions) + [ApiVersionAsked]
      ensures version == apiVersion
    {
      interactions := interactions + [ApiVersionAsked];
      version := apiVersion;
    }
  }

  class AuthenticationLayer {
    const delegate: BananaService
    const authenticationService: AuthenticationService

    constructor (delegate: BananaService, authenticationService: AuthenticationService)
      ensures this.delegate == delegate && this.authenticationService == authenticationService
    {
      this.delegate := delegate;
      this.authenticationService := authenticationService;
    }

    /** new AuthenticationLayer(delegate, authenticationService): a missing collaborator is an illegal argument. */
    static method Create(delegate: BananaService?, authenticationService: AuthenticationService?)
      returns (layer: Reply<AuthenticationLayer>)
      ensures layer.Thrown? <==> delegate == null || authenticationService == null
      ensures layer.Thrown? ==> layer.failure == IllegalArgument
      ensures layer.Returned? ==>
        fresh(layer.value)
        && layer.value.delegate == delegate && layer.value.authenticationService == authenticationService
    {
      if delegate == null || authenticationService == null {
        return Thrown(IllegalArgument);
      }
      var created := new AuthenticationLayer(delegate, authenticationService);
      return Returned(created);
    }

    /** getApiVersion: forwarded to the delegate, without authentication. */
    method GetApiVersion() returns (version: real)
      modifies delegate
      ensures version == delegate.apiVersion
      ensures delegate.interactions == old(delegate.interactions) + [ApiVersionAsked]
      ensures authenticationService.verified == old(authenticationService.verified)
    {
      version := delegate.GetApiVersion();
    }

    /** The guard shared by the guarded operations: check, verify, then forward. */
    method Guarded(rpc: Rpc, request: Option<Request>) returns (reply: Reply<Response>)
      modifies delegate, authenticationService
      ensures reply == GuardedReply(authenticationService.rejects, delegate.answer, rpc, request)
      ensures authenticationService.verified == old(authenticationService.verified) + VerifyCalls(request)
      ensures delegate.interactions
        == old(delegate.interactions) + DelegateCalls(authenticationService.rejects, rpc, request)
    {
      if request.None? {
        return Thrown(InvalidArgument);
      }
      if request.value.token.None? {
        return Thrown(InvalidToken);
      }
      var verified := authenticationService.VerifyToken(request.value.token.value.tokenId);
      if !verified {
        return Thrown(InvalidToken);
      }
      reply := delegate.Invoke(rpc, request.value);
    }

    method ProvisionApplication(request: Option<Request>) returns (reply: Reply<Response>)
      modifies delegate, authenticationService
      ensures reply == GuardedReply(authenticationService.rejects, delegate.answer, Rpc.ProvisionApplication, request)
      ensures authenticationService.verified == old(authenticationService.verified) + VerifyCalls(request)
      ensures delegate.interactions == old(delegate.interactions)
        + DelegateCalls(authenticationService.rejects, Rpc.ProvisionApplication, request)
    {
      reply := Guarded(Rpc.ProvisionApplication, request);
    }

    method RegenerateToken(request: Option<Request>) returns (reply: Reply<Response>)
      modifies delegate, authenticationService
      ensures reply == GuardedReply(authenticationService.rejects, delegate.answer, Rpc.RegenerateToken, request)
      ensures authenticationService.verified == old(authenticationService.verified) + VerifyCalls(request)
      ensures delegate.interactions == old(delegate.interactions)
        + DelegateCalls(authenticationService.rejects, Rpc.RegenerateToken, request)
    {
      reply := Guarded(Rpc.RegenerateToken, request);
    }

    method RegisterHealthCheck(request: Option<Request>) returns (reply: Reply<Response>)
      modifies delegate, authenticationService
      ensures reply == GuardedReply(authenticationService.rejects, delegate.answer, Rpc.RegisterHealthCheck, request)
      ensures authenticationService.verified == old(authenticationService.verified) + VerifyCalls(request)
      ensures delegate.interactions == old(delegate.interactions)
        + DelegateCalls(authenticationService.rejects, Rpc.RegisterHealthCheck, request)
    {
      reply := Guarded(Rpc.RegisterHealthCheck, request);
    }
  }

  // ---------------------------------------------------------------------------
  // The unit tests, replayed on fresh collaborators

  /** A delegate mock that answers expected to exactly this call and the mock default otherwise. */
  function Stubbed(rpc: Rpc, request: Request, expected: Response): (Rpc, Request) -> Reply<Response>
  {
    (r: Rpc, q: Request) => if r == rpc && q == request then Returned(expected) else Returned(Response(""))
  }

  /**
   * Test plumbing, not part of the facade: calls the guarded operation named by rpc,
   * so that one test method stands for the three per-operation tests.
   */
  method CallGuarded(layer: AuthenticationLayer, rpc: Rpc, request: Option<Request>) returns (reply: Reply<Response>)
    modifies layer.delegate, layer.authenticationService
    ensures reply == GuardedReply(layer.authenticationService.rejects, layer.delegate.answer, rpc, request)
    ensures layer.authenticationService.verified == old(layer.authenticationService.verified) + VerifyCalls(request)
    ensures layer.delegate.interactions
      == old(layer.delegate.interactions) + DelegateCalls(layer.authenticationService.rejects, rpc, request)
  {
    match rpc
    case ProvisionApplication => reply := layer.ProvisionApplication(request);
    case RegenerateToken => reply := layer.RegenerateToken(request);
    case RegisterHealthCheck => reply := layer.RegisterHealthCheck(request);
  }

  /** setUp: building the facade makes no call on either collaborator. */
  method TestSetUp(apiVersion: real) returns (delegateCalls: seq<Interaction>, verifyCalls: seq<Option<string>>)
    ensures delegateCalls == [] && verifyCalls == []
  {
    var authenticationService := new AuthenticationService(_ => false);
    var delegate := new BananaService((_, _) => Returned(Response("")), apiVersion);
    var instance := new AuthenticationLayer(delegate, authenticationService);
    delegateCalls := instance.delegate.interactions;
    verifyCalls := instance.authenticationService.verified;
  }

  /** testConstructor: a missing delegate or a missing authentication service is an illegal argument. */
  method TestConstructor() returns (withoutDelegate: Reply<AuthenticationLayer>,
                                    withoutAuthentication: Reply<AuthenticationLayer>)
    ensures withoutDelegate == Thrown(IllegalArgument)
    ensures withoutAuthentication == Thrown(IllegalArgument)
  {
    var authenticationService := new AuthenticationService(_ => false);
    var delegate := new BananaService((_, _) => Returned(Response("")), 0.0);
    withoutDelegate := AuthenticationLayer.Create(null, authenticationService);
    withoutAuthentication := AuthenticationLayer.Create(delegate, null);
  }

  /** testGetApiVersion: the delegate is asked once, the authentication service not at all. */
  method TestGetApiVersion(apiVersion: real)
    returns (result: real, delegateCalls: seq<Interaction>, verifyCalls: seq<Option<string>>)
    ensures result == apiVersion
    ensures delegateCalls == [ApiVersionAsked]
    ensures verifyCalls == []
  {
    var authenticationService := new AuthenticationService(_ => false);
    var delegate := new BananaService((_, _) => Returned(Response("")), apiVersion);
    var instance := new AuthenticationLayer(delegate, authenticationService);
    result := instance.GetApiVersion();
    delegateCalls := delegate.interactions;
    verifyCalls := authenticationService.verified;
  }

  /**
   * testProvisionApplication, testRegenerateToken, testRegisterHealthCheck: with a
   * token the verifier accepts, the result is the delegate's response, the delegate
   * got the same request, and the verifier got the request's token id.
   */
  method TestSuccessfulCall(rpc: Rpc, request: Request, expected: Response)
    returns (result: Reply<Response>, delegateCalls: seq<Interaction>, verifyCalls: seq<Option<string>>)
    requires request.token.Some?
    ensures result == Returned(expected)
    ensures delegateCalls == [Invoked(rpc, request)]
    ensures verifyCalls == [request.token.value.tokenId]
  {
    var authenticationService := new AuthenticationService(_ => false);
    var delegate := new BananaService(Stubbed(rpc, request, expected), 0.0);
    var instance := new AuthenticationLayer(delegate, authenticationService);
    result := CallGuarded(instance, rpc, Some(request));
    delegateCalls := delegate.interactions;
    verifyCalls := authenticationService.verified;
  }

  /**
   * The *WithBadRequest tests: a missing request is an invalid argument, a request
   * without a token an invalid token, and the delegate is never called.
   */
  method TestBadRequest(rpc: Rpc, body: string)
    returns (missing: Reply<Response>, tokenless: Reply<Response>, delegateCalls: seq<Interaction>)
    ensures missing == Thrown(InvalidArgument)
    ensures tokenless == Thrown(InvalidToken)
    ensures delegateCalls == []
  {
    var authenticationService := new AuthenticationService(_ => false);
    var delegate := new BananaService((_, _) => Returned(Response("")), 0.0);
    var instance := new AuthenticationLayer(delegate, authenticationService);
    missing := CallGuarded(instance, rpc, None);
    tokenless := CallGuarded(instance, rpc, Some(Request(None, body)));
    delegateCalls := delegate.interactions;
  }

  /**
   * The *WithBadToken tests: when verifyToken throws for the request's token id, the
   * call is an invalid token and the delegate is never called.
   */
  method TestBadToken(rpc: Rpc, request: Request, expected: Response)
    returns (result: Reply<Response>, delegateCalls: seq<Interaction>)
    requires request.token.Some?
    ensures result == Thrown(InvalidToken)
    ensures delegateCalls == []
  {
    var tokenId := request.token.value.tokenId;
    var authenticationService := new AuthenticationService(id => id == tokenId);
    var delegate := new BananaService(Stubbed(rpc, request, expected), 0.0);
    var instance := new AuthenticationLayer(delegate, authenticationService);
    result := CallGuarded(instance, rpc, Some(request));
    delegateCalls := delegate.interactions;
  }
}
