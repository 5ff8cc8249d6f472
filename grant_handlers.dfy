/** The `GrantHandler` strategies of pkg/auth/oauth/handlers/grant.go: what
    to do when the user has not yet authorized a client's grant. */
module GrantHandlers {
  import opened Errors
  import opened Types

  /** The `oauthapi.GrantHandlerType` values a client or the server may configure. */
  const GrantHandlerAuto: string := "auto"
  const GrantHandlerPrompt: string := "prompt"
  const GrantHandlerDeny: string := "deny"

  /** The four handlers: silently deny, silently approve, redirect to a
      consent page at `url`, or choose per client among three sub-handlers. */
  datatype Handler =
    | Empty
    | Auto
    | Redirect(url: string)
    | PerClient(auto: Handler, prompt: Handler, deny: Handler, defaultMethod: string)

  /** What `GrantNeeded` returns, `(authorized, handled, err)`, together with
      the redirect it wrote to the response, if any. */
  datatype Outcome = Outcome(authorized: bool, handled: bool, err: Option<Error>, redirect: Option<Location>)

  /** `NewPerClientGrant`: automatic approval for `auto`, the caller's
      `prompt` handler for `prompt`, silent denial for `deny`. */
  function NewPerClientGrant(prompt: Handler, defaultMethod: string): (h: Handler)
    ensures h.PerClient? && h.prompt == prompt && h.defaultMethod == defaultMethod
    ensures h.auto == Auto && h.deny == Empty
  {
    PerClient(Auto, prompt, Empty, defaultMethod)
  }

  /** The query of the consent redirect: the original request URL to resume
      with, and the client, scope and redirect URI being asked for. */
  function RedirectQuery(grant: Grant, req: HttpRequest): (q: map<string, seq<string>>)
    ensures q.Keys == {"then", "client_id", "scopes", "redirect_uri"}
    ensures forall k :: k in q ==> |q[k]| == 1
    ensures q["then"][0] == req.url && q["client_id"][0] == grant.client.id
    ensures q["scopes"][0] == grant.scope && q["redirect_uri"][0] == grant.redirectUri
  {
    map["then" := [req.url],
        "client_id" := [grant.client.id],
        "scopes" := [grant.scope],
        "redirect_uri" := [grant.redirectUri]]
  }

  /** The grant method a per-client handler acts on: the client's own, or the
      configured default when the client's is empty. */
  function ResolvedMethod(clientMethod: string, defaultMethod: string): (m: string)
    ensures clientMethod != [] ==> m == clientMethod
    ensures clientMethod == [] ==> m == defaultMethod
  {
    if |clientMethod| == 0 then defaultMethod else clientMethod
  }

  /** `GrantNeeded`, as a function of the handler and its inputs; `parse`
      stands for `url.Parse`. Whatever the handler, approving excludes an
      error and a written response, and a response is written exactly when
      `handled` is reported, always to the four-parameter consent query. */
  function Need(h: Handler, user: User, grant: Grant, req: HttpRequest,
                parse: string -> Result<Url>): (r: Outcome)
    decreases h
    ensures r.handled <==> r.redirect.Some?
    ensures r.authorized ==> !r.handled && r.err == None
    ensures r.err.Some? ==> !r.authorized && !r.handled
    ensures r.redirect.Some? ==> r.redirect.value.query == RedirectQuery(grant, req)
  {
    match h
    case Empty => Outcome(false, false, None, None)
    case Auto => Outcome(true, false, None, None)
    case Redirect(url) =>
      (match parse(url)
       case Err(e) => Outcome(false, false, Some(e), None)
       case Ok(u) => Outcome(false, true, None, Some(Location(u.withoutQuery, RedirectQuery(grant, req)))))
    case PerClient(auto, prompt, deny, defaultMethod) =>
      match grant.client.userData
      case OtherClientData => Outcome(false, false, Some(UnrecognizedClientType), None)
      case OAuthClient(clientMethod) =>
        var m := ResolvedMethod(clientMethod, defaultMethod);
        if m == GrantHandlerAuto then Need(auto, user, grant, req, parse)
        else if m == GrantHandlerPrompt then Need(prompt, user, grant, req, parse)
        else if m == GrantHandlerDeny then Need(deny, user, grant, req, parse)
        else Outcome(false, false, Some(UnrecognizedGrantMethod(m)), None)
  }

  /** The redirects an outcome wrote, in order. */
  function Written(r: Outcome): (ws: seq<Location>)
    ensures |ws| <= 1 && (ws == [] <==> r.redirect == None)
  {
    if r.redirect.Some? then [r.redirect.value] else []
  }

  /** `GrantNeeded` as it runs: the Redirect handler writes its redirect to `w`. */
  method GrantNeeded(h: Handler, user: User, grant: Grant, w: ResponseWriter, req: HttpRequest,
                     parse: string -> Result<Url>)
    returns (authorized: bool, handled: bool, err: Option<Error>)
    modifies w
    decreases h
    ensures var r := Need(h, user, grant, req, parse);
            authorized == r.authorized && handled == r.handled && err == r.err
            && w.redirects == old(w.redirects) + Written(r)
  {
    match h
    case Empty =>
      return false, false, None;
    case Auto =>
      return true, false, None;
    case Redirect(url) =>
      var parsed := parse(url);
      if parsed.Err? {
        return false, false, Some(parsed.error);
      }
      var location := Location(parsed.value.withoutQuery, RedirectQuery(grant, req));
      w.redirects := w.redirects + [location];
      return false, true, None;
    case PerClient(auto, prompt, deny, defaultMethod) =>
      if !grant.client.userData.OAuthClient? {
        return false, false, Some(UnrecognizedClientType);
      }
      var m := grant.client.userData.grantMethod;
      if |m| == 0 {
        m := defaultMethod;
      }
      if m == GrantHandlerAuto {
        authorized, handled, err := GrantNeeded(auto, user, grant, w, req, parse);
      } else if m == GrantHandlerPrompt {
        authorized, handled, err := GrantNeeded(prompt, user, grant, w, req, parse);
      } else if m == GrantHandlerDeny {
        authorized, handled, err := GrantNeeded(deny, user, grant, w, req, parse);
      } else {
        return false, false, Some(UnrecognizedGrantMethod(m));
      }
  }

  /** The empty handler denies without writing anything. */
  lemma EmptyDenies(user: User, grant: Grant, req: HttpRequest, parse: string -> Result<Url>)
    ensures Need(Empty, user, grant, req, parse) == Outcome(false, false, None, None)
  {
  }

  /** The automatic handler approves without writing anything. */
  lemma AutoApproves(user: User, grant: Grant, req: HttpRequest, parse: string -> Result<Url>)
    ensures Need(Auto, user, grant, req, parse) == Outcome(true, false, None, None)
  {
  }

  /** The redirect handler fails with the parse error when its URL does not
      parse; otherwise it writes one redirect that keeps the base URL but
      replaces its query with the consent query, and reports it handled. */
  lemma RedirectDefers(url: string, user: User, grant: Grant, req: HttpRequest,
                       parse: string -> Result<Url>)
    ensures var r := Need(Redirect(url), user, grant, req, parse);
            match parse(url)
            case Err(e) => r == Outcome(false, false, Some(e), None)
            case Ok(u) => !r.authorized && r.handled && r.err == None
                          && r.redirect == Some(Location(u.withoutQuery, RedirectQuery(grant, req)))
  {
  }

  /** A per-client handler rejects a client that is not an `OAuthClient`,
      otherwise acts exactly as the sub-handler the resolved method names,
      and rejects any other method with an error naming it. */
  lemma PerClientDispatch(h: Handler, user: User, grant: Grant, req: HttpRequest,
                          parse: string -> Result<Url>)
    requires h.PerClient?
    ensures var r := Need(h, user, grant, req, parse);
            match grant.client.userData
            case OtherClientData => r == Outcome(false, false, Some(UnrecognizedClientType), None)
            case OAuthClient(cm) =>
              var m := ResolvedMethod(cm, h.defaultMethod);
              && (m == GrantHandlerAuto ==> r == Need(h.auto, user, grant, req, parse))
              && (m == GrantHandlerPrompt ==> r == Need(h.prompt, user, grant, req, parse))
              && (m == GrantHandlerDeny ==> r == Need(h.deny, user, grant, req, parse))
              && (m !in {GrantHandlerAuto, GrantHandlerPrompt, GrantHandlerDeny} ==>
                    r == Outcome(false, false, Some(UnrecognizedGrantMethod(m)), None))
  {
  }

  /** With the handler `NewPerClientGrant` builds: `auto` approves, `deny`
      denies, `prompt` defers to the caller's handler, and a client's own
      method wins over the default whenever it is set. */
  lemma NewPerClientGrantDispatch(prompt: Handler, defaultMethod: string, user: User, grant: Grant,
                                  req: HttpRequest, parse: string -> Result<Url>)
    requires grant.client.userData.OAuthClient?
    ensures var r := Need(NewPerClientGrant(prompt, defaultMethod), user, grant, req, parse);
            var m := ResolvedMethod(grant.client.userData.grantMethod, defaultMethod);
            && (m == GrantHandlerAuto ==> r == Outcome(true, false, None, None))
            && (m == GrantHandlerPrompt ==> r == Need(prompt, user, grant, req, parse))
            && (m == GrantHandlerDeny ==> r == Outcome(false, false, None, None))
  {
  }

  /** A client configured with the unknown method "bogus" is rejected, and
      the error's message carries "bogus" right after the opening quote. */
  lemma BogusMethodRejected(prompt: Handler, defaultMethod: string, user: User, grant: Grant,
                            req: HttpRequest, parse: string -> Result<Url>)
    requires grant.client.userData == OAuthClient("bogus")
    ensures var r := Need(NewPerClientGrant(prompt, defaultMethod), user, grant, req, parse);
            && !r.authorized && !r.handled && r.redirect == None
            && r.err == Some(UnrecognizedGrantMethod("bogus"))
            && Message(r.err.value)[27..32] == "bogus"
  {
    GrantMethodMessage("bogus", "bogus");
  }
}
