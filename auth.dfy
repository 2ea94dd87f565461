/**
 * `api/common/verifyAuthToken.js`: the check of the bearer token on the
 * bot's internal routes against `INTERNAL_ACCESS_TOKEN`.
 */
module InternalAuth {
  import opened Wrappers
  import opened Seqs
  import opened JsText
  import opened Express
  import TwitchApi

  const MissingTokenError := HttpError(401, "No authorization token")
  const InvalidTokenError := HttpError(403, "Invalid authorization token")

  /**
   * `authHeader && authHeader.split(" ")[1]`: undefined without a header,
   * the empty header itself when it is empty (it is falsy), otherwise the
   * second space-separated field, undefined when there is none.
   */
  function BearerToken(header: Option<string>): (token: Option<string>)
    ensures header.None? ==> token.None?
    ensures header == Some("") ==> token == Some("")
    ensures header.Some? && header.value != "" ==> (token.Some? <==> ' ' in header.value)
    ensures token.Some? ==> ' ' !in token.value
  {
    match header
    case None => None
    case Some(h) =>
      if h == "" then Some("")
      else
        var fields := Split(h, ' ');
        SplitFieldsFree(h, ' ');
        SpaceInSplit(h);
        if |fields| > 1 then Some(fields[1]) else None
  }

  /** A string splits on spaces into more than one field exactly when it holds a space. */
  lemma {:induction false} SpaceInSplit(s: string)
    ensures |Split(s, ' ')| > 1 <==> ' ' in s
  {
    if |s| > 0 {
      SpaceInSplit(s[1..]);
      assert s == [s[0]] + s[1..];
    }
  }

  /**
   * Whatever word comes first (the scheme is not checked), a header
   * "<word> <token>" yields the token, as long as neither holds a space.
   */
  lemma AnySchemeAccepted(scheme: string, token: string)
    requires ' ' !in scheme && ' ' !in token
    ensures BearerToken(Some(scheme + " " + token)) == Some(token)
  {
    SplitWithoutSeparator(token, ' ');
    SplitFirstField(scheme, ' ', token);
  }

  /**
   * `verifyInternalToken`: 401 when there is no token, 403 when it differs
   * from the configured one (an unset variable is undefined), and since it
   * returns after neither, `next()` always follows.
   */
  function VerifyInternalToken(header: Option<string>, internalToken: Option<string>): (actions: seq<Action>)
    ensures |actions| >= 1 && actions[|actions| - 1] == Next
    ensures Count(actions, Next) == 1
    ensures NextError(MissingTokenError) in actions <==> BearerToken(header).None?
    ensures NextError(InvalidTokenError) in actions <==> BearerToken(header) != internalToken
    ensures actions == [Next] <==> BearerToken(header).Some? && BearerToken(header) == internalToken
    ensures !Responds(actions)
    ensures forall k :: 0 <= k < |actions| ==> actions[k].Next? || actions[k].NextError?
  {
    var token := BearerToken(header);
    TwoChecks(token.None?, MissingTokenError, token != internalToken, InvalidTokenError)
  }

  /**
   * Without a header, a configured token gets both the 401 and the 403; when
   * the variable is unset too, undefined equals undefined and only the 401
   * is raised.
   */
  lemma MissingHeader(internalToken: Option<string>)
    ensures internalToken.Some? ==>
      VerifyInternalToken(None, internalToken) == [NextError(MissingTokenError), NextError(InvalidTokenError), Next]
    ensures internalToken.None? ==> VerifyInternalToken(None, internalToken) == [NextError(MissingTokenError), Next]
  {
  }

  /**
   * The bot's own `logSubscription` request gets through when both sides
   * share a configured token without spaces; when the variable is unset on
   * both sides, the header reads "Bearer undefined" and the request is
   * rejected with 403.
   */
  lemma LogSubscriptionAuthorization(cfg: TwitchApi.Config, guildId: string, broadcasterId: Option<string>, serverToken: Option<string>)
    ensures var header := TwitchApi.Render(cfg, TwitchApi.LogSubscription(guildId, broadcasterId)).authorization;
      && (cfg.internalToken.Some? && ' ' !in cfg.internalToken.value && serverToken == cfg.internalToken ==>
            VerifyInternalToken(header, serverToken) == [Next])
      && (cfg.internalToken.None? && serverToken.None? ==>
            NextError(InvalidTokenError) in VerifyInternalToken(header, serverToken))
  {
    var header := TwitchApi.Render(cfg, TwitchApi.LogSubscription(guildId, broadcasterId)).authorization;
    assert header == Some("Bearer " + Interpolate(cfg.internalToken));
    if cfg.internalToken.Some? && ' ' !in cfg.internalToken.value {
      AnySchemeAccepted("Bearer", cfg.internalToken.value);
      assert "Bearer " + cfg.internalToken.value == "Bearer" + " " + cfg.internalToken.value;
    }
    if cfg.internalToken.None? {
      AnySchemeAccepted("Bearer", "undefined");
      assert "Bearer " + "undefined" == "Bearer" + " " + "undefined";
    }
  }
}
