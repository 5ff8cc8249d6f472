/** `GrantCheck` of pkg/auth/oauth/handlers/grant.go: the authorize-flow step
    that confirms an already-authorized request against the user's prior
    grants, and otherwise asks a grant handler what to do. */
module Authorize {
  import opened Errors
  import opened Types
  import opened GrantHandlers

  /** What `GrantChecker.HasAuthorizedClient` answers. */
  datatype CheckResult = CheckResult(authorized: bool, err: Option<Error>)

  /** The `(handled, err)` pair returned by `HandleAuthorize` and by
      `GrantErrorHandler.GrantError`. */
  datatype Reply = Reply(handled: bool, err: Option<Error>)

  /** A call the step makes to one of its collaborators. */
  datatype Call =
    | CheckerCalled(user: User, grant: Grant)
    | HandlerCalled(user: User, grant: Grant)
    | ErrorHandlerCalled(err: Error)

  /** The net effect of one decision: the final `Authorized` flag, the reply,
      the collaborators consulted in order, and the redirects written. */
  datatype Decision = Decision(authorized: bool, reply: Reply, calls: seq<Call>, redirects: seq<Location>)

  /** The `Grant` snapshot of a request: a verbatim copy of its client, scope,
      expiry (widened from 32 to 64 bits without change) and redirect URI. */
  function NewGrant(ar: AuthorizeRequest): (g: Grant)
    ensures g.client == ar.client && g.scope == ar.scope && g.redirectUri == ar.redirectUri
    ensures g.expiration as int == ar.expiration as int
  {
    Grant(ar.client, ar.scope, ar.expiration as int64, ar.redirectUri)
  }

  /** The decision `HandleAuthorize` reaches for a request whose flag is
      `entry` on arrival, given any checker, any grant handler (`need`) and
      any error handler. */
  function Decide(entry: bool, ar: AuthorizeRequest,
                  check: (User, Grant) -> CheckResult,
                  need: (User, Grant) -> Outcome,
                  onError: (Error, HttpRequest) -> Reply): (d: Decision)
    // A request that is not yet authorized is left alone.
    ensures !entry ==> d == Decision(false, Reply(false, None), [], [])
    // Without a usable user.Info the error handler decides the reply.
    ensures entry && !ar.userData.UserInfo? ==>
              && !d.authorized
              && d.reply == onError(UserDataNotUserInfo, ar.httpRequest)
              && d.calls == [ErrorHandlerCalled(UserDataNotUserInfo)] && d.redirects == []
    // Otherwise the checker is asked first, about the request's own grant.
    ensures entry && ar.userData.UserInfo? ==>
              |d.calls| >= 1 && d.calls[0] == CheckerCalled(ar.userData.info, NewGrant(ar))
    // A checker error goes to the error handler, whose reply is returned as is.
    ensures entry && ar.userData.UserInfo? ==>
              var c := check(ar.userData.info, NewGrant(ar));
              c.err.Some? ==>
                && !d.authorized
                && d.reply == onError(c.err.value, ar.httpRequest)
                && d.calls == [CheckerCalled(ar.userData.info, NewGrant(ar)), ErrorHandlerCalled(c.err.value)]
                && d.redirects == []
    // A prior grant authorizes the request; nothing is written.
    ensures entry && ar.userData.UserInfo? ==>
              var c := check(ar.userData.info, NewGrant(ar));
              c.err.None? && c.authorized ==>
                && d.authorized && d.reply == Reply(false, None)
                && d.calls == [CheckerCalled(ar.userData.info, NewGrant(ar))] && d.redirects == []
    // Without one, the handler's verdict and reply are taken over unchanged.
    ensures entry && ar.userData.UserInfo? ==>
              var u, g := ar.userData.info, NewGrant(ar);
              var c := check(u, g);
              c.err.None? && !c.authorized ==>
                && d.authorized == need(u, g).authorized
                && d.reply == Reply(need(u, g).handled, need(u, g).err)
                && d.calls == [CheckerCalled(u, g), HandlerCalled(u, g)]
                && d.redirects == Written(need(u, g))
    // Fail closed: the request ends authorized only on a prior grant or the handler's approval.
    ensures d.authorized ==>
              && entry && ar.userData.UserInfo?
              && var c := check(ar.userData.info, NewGrant(ar));
              && c.err.None?
              && (c.authorized || need(ar.userData.info, NewGrant(ar)).authorized)
    // Only the grant handler writes a redirect.
    ensures d.redirects != [] ==> HandlerCalled(ar.userData.info, NewGrant(ar)) in d.calls
  {
    if !entry then
      Decision(false, Reply(false, None), [], [])
    else if !ar.userData.UserInfo? then
      Decision(false, onError(UserDataNotUserInfo, ar.httpRequest), [ErrorHandlerCalled(UserDataNotUserInfo)], [])
    else
      var user, grant := ar.userData.info, NewGrant(ar);
      var c := check(user, grant);
      if c.err.Some? then
        Decision(false, onError(c.err.value, ar.httpRequest),
                 [CheckerCalled(user, grant), ErrorHandlerCalled(c.err.value)], [])
      else if c.authorized then
        Decision(true, Reply(false, None), [CheckerCalled(user, grant)], [])
      else
        var o := need(user, grant);
        Decision(o.authorized, Reply(o.handled, o.err),
                 [CheckerCalled(user, grant), HandlerCalled(user, grant)], Written(o))
  }

  /** A decision is settled: deciding again from the flag it left, with the
      same collaborators, leaves the flag as it is. */
  lemma DecideSettles(entry: bool, ar: AuthorizeRequest,
                      check: (User, Grant) -> CheckResult,
                      need: (User, Grant) -> Outcome,
                      onError: (Error, HttpRequest) -> Reply)
    ensures var d := Decide(entry, ar, check, need, onError);
            Decide(d.authorized, ar, check, need, onError).authorized == d.authorized
  {
  }

  /** With a checker that finds no prior grant and no error, the automatic
      handler authorizes the request and the empty handler leaves it
      unauthorized; either way nothing is written and no error returned.
      With a checker that finds one, the handler does not matter. */
  lemma FixedHandlerDecisions(ar: AuthorizeRequest, check: (User, Grant) -> CheckResult,
                              onError: (Error, HttpRequest) -> Reply, other: Handler,
                              parse: string -> Result<Url>)
    requires ar.userData.UserInfo?
    ensures var u, g := ar.userData.info, NewGrant(ar);
            var auto := (u: User, g: Grant) => Need(Auto, u, g, ar.httpRequest, parse);
            var empty := (u: User, g: Grant) => Need(Empty, u, g, ar.httpRequest, parse);
            var any := (u: User, g: Grant) => Need(other, u, g, ar.httpRequest, parse);
            && (check(u, g) == CheckResult(false, None) ==>
                  && Decide(true, ar, check, auto, onError).authorized
                  && Decide(true, ar, check, auto, onError).reply == Reply(false, None)
                  && !Decide(true, ar, check, empty, onError).authorized
                  && Decide(true, ar, check, empty, onError).reply == Reply(false, None))
            && (check(u, g) == CheckResult(true, None) ==>
                  && Decide(true, ar, check, any, onError).authorized
                  && Decide(true, ar, check, any, onError).reply == Reply(false, None)
                  && HandlerCalled(u, g) !in Decide(true, ar, check, any, onError).calls)
  {
  }

  /** `GrantCheck`: a checker, a grant handler and an error handler. */
  class GrantCheck {
    const check: (User, Grant) -> CheckResult
    const handler: Handler
    const errorHandler: (Error, HttpRequest) -> Reply

    /** `NewGrantCheck`. */
    constructor (check: (User, Grant) -> CheckResult, handler: Handler,
                 errorHandler: (Error, HttpRequest) -> Reply)
      ensures this.check == check && this.handler == handler && this.errorHandler == errorHandler
    {
      this.check := check;
      this.handler := handler;
      this.errorHandler := errorHandler;
    }

    /** The decision this grant check reaches, with `parse` standing for `url.Parse`. */
    function Decided(entry: bool, ar: AuthorizeRequest, parse: string -> Result<Url>): Decision
    {
      Decide(entry, ar, check, (u: User, g: Grant) => Need(handler, u, g, ar.httpRequest, parse), errorHandler)
    }

    /** With the handlers of this file, a request that ends authorized comes
        with neither a written response nor an error. */
    lemma ApprovalIsQuiet(entry: bool, ar: AuthorizeRequest, parse: string -> Result<Url>)
      ensures var d := Decided(entry, ar, parse);
              d.authorized ==> d.reply == Reply(false, None) && d.redirects == []
    {
    }

    /** Unless the error handler was consulted (its writes are its own), the
        returned `handled` is true exactly when a response was written. */
    lemma HandledMeansWritten(entry: bool, ar: AuthorizeRequest, parse: string -> Result<Url>)
      ensures var d := Decided(entry, ar, parse);
              (forall e :: ErrorHandlerCalled(e) !in d.calls) ==> (d.reply.handled <==> d.redirects != [])
    {
    }

    /** `HandleAuthorize`: updates `ar.authorized` step by step, returns
        `(handled, err)`, and writes only what the grant handler writes. */
    method HandleAuthorize(ar: AuthorizeRequest, w: ResponseWriter, parse: string -> Result<Url>)
      returns (handled: bool, err: Option<Error>, ghost calls: seq<Call>)
      modifies ar, w
      ensures var d := Decided(old(ar.authorized), ar, parse);
              && ar.authorized == d.authorized
              && Reply(handled, err) == d.reply
              && calls == d.calls
              && w.redirects == old(w.redirects) + d.redirects
    {
      calls := [];
      if !ar.authorized {
        return false, None, calls;
      }
      ar.authorized := false;

      if !ar.userData.UserInfo? {
        calls := [ErrorHandlerCalled(UserDataNotUserInfo)];
        var reply := errorHandler(UserDataNotUserInfo, ar.httpRequest);
        return reply.handled, reply.err, calls;
      }
      var user := ar.userData.info;
      var grant := NewGrant(ar);

      var c := check(user, grant);
      calls := [CheckerCalled(user, grant)];
      if c.err.Some? {
        calls := calls + [ErrorHandlerCalled(c.err.value)];
        var reply := errorHandler(c.err.value, ar.httpRequest);
        return reply.handled, reply.err, calls;
      }
      if c.authorized {
        ar.authorized := true;
        return false, None, calls;
      }

      var authorized;
      calls := calls + [HandlerCalled(user, grant)];
      authorized, handled, err := GrantNeeded(handler, user, grant, w, ar.httpRequest, parse);
      if authorized {
        ar.authorized := true;
      }
    }
  }
}
