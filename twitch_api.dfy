/**
 * The upstream protocol of `api/twitch/twitchAPI.js`: the OAuth 2.0
 * client-credentials token (section 4.4 of RFC 6749), the user lookup, the
 * EventSub subscription request and its clean-up. Every HTTP call is an
 * outbound event appended to a trace; what the network answers is an oracle
 * value handed to the operation as a parameter.
 */
module TwitchApi {
  import opened Wrappers
  import opened Seqs
  import opened JsText

  const EventSubUrl := "https://api.twitch.tv/helix/eventsub/subscriptions"
  const AuthUrl := "https://id.twitch.tv/oauth2/token"
  const RevokeUrl := "https://id.twitch.tv/oauth2/revoke"
  const UserUrl := "https://api.twitch.tv/helix/"
  const ChannelUrl := "https://api.twitch.tv/helix/channels"

  /**
   * The environment the module reads: `TWITCH_CLIENT_ID`, `TWITCH_SECRET`,
   * the base URL picked by `NODE_ENV` and `INTERNAL_ACCESS_TOKEN`; each may
   * be unset.
   */
  datatype Config = Config(
    clientId: Option<string>,
    secret: Option<string>,
    baseUrl: Option<string>,
    internalToken: Option<string>)

  /** The `transport` object of an EventSub subscription request. */
  datatype Transport = Transport(delivery: string, callback: string, secret: Option<string>)

  /** The JSON body of the EventSub POST; an undefined user id leaves the condition empty. */
  datatype EventSubRequest = EventSubRequest(
    version: string,
    kind: string,
    broadcasterUserId: Option<string>,
    transport: Transport)

  /** One outbound HTTP call. A `token` is the access token put after "Bearer " (or in the revoke URL). */
  datatype Call =
    | TokenGrant
    | Revoke(token: Option<string>)
    | UserLookup(login: string, token: Option<string>)
    | ChannelLookup(channelOwner: string, token: Option<string>)
    | CreateEventSub(body: EventSubRequest, token: Option<string>)
    | LogSubscription(guildId: string, subscribedId: Option<string>)
    | ListEventSubs(token: Option<string>)
    | DeleteEventSub(id: string, token: Option<string>)

  datatype Verb = Get | Post | Delete

  /** What goes on the wire: the verb, the URL and the `Authorization` header, if any. */
  datatype HttpRequest = HttpRequest(verb: Verb, url: string, authorization: Option<string>)

  /** The callback Twitch is told to deliver notifications to. */
  function CallbackUrl(cfg: Config): (url: string)
    ensures StartsWith(url, Interpolate(cfg.baseUrl)) && EndsWith(url, "twitch/callback")
  {
    Interpolate(cfg.baseUrl) + "twitch/callback"
  }

  /**
   * The query of the token request: the client authenticates with its id and
   * secret as request parameters (section 2.3.1 of RFC 6749) and asks for the
   * `client_credentials` grant (section 4.4.2 of RFC 6749).
   */
  function TokenQuery(cfg: Config): string {
    "client_id=" + Interpolate(cfg.clientId) + "&client_secret=" + Interpolate(cfg.secret)
    + "&grant_type=client_credentials"
  }

  /**
   * When neither the client id nor the secret contains `&`, the token query
   * carries exactly three parameters, in order: the id, the secret and the
   * grant type.
   */
  lemma TokenQueryParameters(cfg: Config)
    requires '&' !in Interpolate(cfg.clientId) && '&' !in Interpolate(cfg.secret)
    ensures Split(TokenQuery(cfg), '&') ==
      ["client_id=" + Interpolate(cfg.clientId),
       "client_secret=" + Interpolate(cfg.secret),
       "grant_type=client_credentials"]
  {
    var id := "client_id=" + Interpolate(cfg.clientId);
    var secret := "client_secret=" + Interpolate(cfg.secret);
    var grant := "grant_type=client_credentials";
    FreeOfAmpersand("client_id=", Interpolate(cfg.clientId));
    FreeOfAmpersand("client_secret=", Interpolate(cfg.secret));
    assert '&' !in grant;
    calc {
      Split(TokenQuery(cfg), '&');
      == { TokenQueryFields(cfg); }
      Split(id + ['&'] + secret + ['&'] + grant, '&');
      == { ThreeFields(id, secret, grant, '&'); }
      [id, secret, grant];
    }
  }

  lemma FreeOfAmpersand(key: string, value: string)
    requires '&' !in key && '&' !in value
    ensures '&' !in key + value
  {
  }

  /** The token query is its three parameters separated by `&`. */
  lemma TokenQueryFields(cfg: Config)
    ensures TokenQuery(cfg) ==
      ("client_id=" + Interpolate(cfg.clientId)) + ['&'] + ("client_secret=" + Interpolate(cfg.secret)) + ['&']
      + "grant_type=client_credentials"
  {
    assert "&client_secret=" == ['&'] + "client_secret=";
    assert "&grant_type=client_credentials" == ['&'] + "grant_type=client_credentials";
  }

  /** The verb, URL and authorisation of each call, as `twitchAPI.js` builds them. */
  function Render(cfg: Config, call: Call): (r: HttpRequest)
    ensures r.verb == Post <==> call.TokenGrant? || call.Revoke? || call.CreateEventSub? || call.LogSubscription?
    ensures r.verb == Delete <==> call.DeleteEventSub?
    ensures r.authorization.None? <==> call.TokenGrant? || call.Revoke?
    ensures call.LogSubscription? ==>
      r.authorization == Some("Bearer " + Interpolate(cfg.internalToken)) && StartsWith(r.url, Interpolate(cfg.baseUrl))
    ensures call.CreateEventSub? || call.ListEventSubs? || call.DeleteEventSub? ==> StartsWith(r.url, EventSubUrl)
  {
    match call
    case TokenGrant =>
      HttpRequest(Post, AuthUrl + "?" + TokenQuery(cfg), None)
    case Revoke(token) =>
      HttpRequest(Post, RevokeUrl + "?client_id=" + Interpolate(cfg.clientId) + "&token=" + Interpolate(token), None)
    case UserLookup(login, token) =>
      HttpRequest(Get, UserUrl + "users?login=" + login, Some("Bearer " + Interpolate(token)))
    case ChannelLookup(id, token) =>
      HttpRequest(Get, ChannelUrl + "?broadcaster_id=" + id, Some("Bearer " + Interpolate(token)))
    case CreateEventSub(_, token) =>
      HttpRequest(Post, EventSubUrl, Some("Bearer " + Interpolate(token)))
    case LogSubscription(guildId, broadcasterId) =>
      HttpRequest(Post, Interpolate(cfg.baseUrl) + "twitch/subscriptions/" + guildId + "?broadcaster_id=" + Interpolate(broadcasterId),
        Some("Bearer " + Interpolate(cfg.internalToken)))
    case ListEventSubs(token) =>
      HttpRequest(Get, EventSubUrl, Some("Bearer " + Interpolate(token)))
    case DeleteEventSub(id, token) =>
      HttpRequest(Delete, EventSubUrl + "?id=" + id, Some("Bearer " + Interpolate(token)))
  }

  /** The token request goes to the token endpoint and asks for the client-credentials grant. */
  lemma TokenRequestShape(cfg: Config)
    ensures Render(cfg, TokenGrant).verb == Post
    ensures StartsWith(Render(cfg, TokenGrant).url, AuthUrl + "?client_id=")
    ensures EndsWith(Render(cfg, TokenGrant).url, "&grant_type=client_credentials")
  {
    var url := Render(cfg, TokenGrant).url;
    var tail := "&grant_type=client_credentials";
    assert url == AuthUrl + "?client_id=" + Interpolate(cfg.clientId) + "&client_secret=" + Interpolate(cfg.secret) + tail;
    assert url[|url| - |tail|..] == tail;
  }

  /** The subscription request for a resolved user id (a `stream.online` webhook). */
  function EventSubBody(cfg: Config, userId: Option<string>): (body: EventSubRequest)
    ensures body.version == "1" && body.kind == "stream.online"
    ensures body.broadcasterUserId == userId
    ensures body.transport == Transport("webhook", CallbackUrl(cfg), cfg.secret)
  {
    EventSubRequest("1", "stream.online", userId, Transport("webhook", CallbackUrl(cfg), cfg.secret))
  }

  /** What the token endpoint answers: a body whose `access_token` may be missing, or a failure. */
  datatype TokenReply = TokenGranted(accessToken: Option<string>) | TokenFailed

  /** What the users endpoint answers: the `id` of each user in `data`, or a failure. */
  datatype UsersReply = UsersFound(ids: seq<Option<string>>) | UsersFailed

  /** What the channels endpoint answers: the `broadcaster_login` of each entry, or a failure. */
  datatype ChannelsReply = ChannelsFound(logins: seq<Option<string>>) | ChannelsFailed

  /** One active EventSub subscription as listed by Twitch. */
  datatype UpstreamSub = UpstreamSub(id: string, status: string, kind: string)

  datatype SubsReply = SubsListed(subs: seq<UpstreamSub>) | SubsFailed

  /** `retrieveAccessToken`'s result: the granted token, or "" on any failure. */
  function AccessToken(reply: TokenReply): (token: Option<string>)
    ensures reply.TokenFailed? ==> token == Some("")
    ensures reply.TokenGranted? ==> token == reply.accessToken
  {
    match reply
    case TokenGranted(t) => t
    case TokenFailed => Some("")
  }

  /**
   * `retrieveUserID`'s result: the first user's id; "" when the request
   * fails or when the list is empty (reading `data[0].id` then throws and
   * the error is caught).
   */
  function UserId(reply: UsersReply): (id: Option<string>)
    ensures reply.UsersFailed? ==> id == Some("")
    ensures reply.UsersFound? && reply.ids == [] ==> id == Some("")
    ensures reply.UsersFound? && reply.ids != [] ==> id == reply.ids[0]
  {
    match reply
    case UsersFound(ids) => if ids == [] then Some("") else ids[0]
    case UsersFailed => Some("")
  }

  /** `fetchBroadcasterName`'s result: the first login, or undefined on any failure. */
  function BroadcasterLogin(reply: ChannelsReply): (login: Option<string>)
    ensures reply.ChannelsFailed? ==> login == None
    ensures reply.ChannelsFound? && reply.logins == [] ==> login == None
    ensures reply.ChannelsFound? && reply.logins != [] ==> login == reply.logins[0]
  {
    match reply
    case ChannelsFound(logins) => if logins == [] then None else logins[0]
    case ChannelsFailed => None
  }

  /**
   * The calls `subscribeToTwitchEvents` issues. `logSubscription` and
   * `revokeAccessToken` are evaluated as the arguments of `.then` and
   * `.finally`, so both are issued right after the POST, whatever it answers.
   */
  function SubscribeCalls(cfg: Config, name: string, guildId: string, tokenReply: TokenReply, usersReply: UsersReply): seq<Call> {
    var token := AccessToken(tokenReply);
    var userId := UserId(usersReply);
    if token == Some("") then [TokenGrant]
    else if userId == Some("") then [TokenGrant, UserLookup(name, token), Revoke(token)]
    else [TokenGrant, UserLookup(name, token), CreateEventSub(EventSubBody(cfg, userId), token),
          LogSubscription(guildId, userId), Revoke(token)]
  }

  predicate Posts(calls: seq<Call>) {
    exists k :: 0 <= k < |calls| && calls[k].CreateEventSub?
  }

  predicate RevokesAny(calls: seq<Call>) {
    exists k :: 0 <= k < |calls| && calls[k].Revoke?
  }

  /**
   * The protocol of `subscribeToTwitchEvents`: without a token nothing
   * follows the token request; a token is revoked exactly once, as the last
   * call; the EventSub POST and the logging request are issued exactly when
   * both the token and the user id were obtained, the POST carrying the
   * `stream.online` body for that id and the logging request following it.
   */
  predicate SubscribeProtocolHolds(cfg: Config, name: string, guildId: string, tokenReply: TokenReply, usersReply: UsersReply) {
    var calls := SubscribeCalls(cfg, name, guildId, tokenReply, usersReply);
    var token := AccessToken(tokenReply);
    var userId := UserId(usersReply);
    && calls[0] == TokenGrant
    && (token == Some("") ==> calls == [TokenGrant])
    && (token != Some("") ==> Count(calls, Revoke(token)) == 1 && calls[|calls| - 1] == Revoke(token))
    && (RevokesAny(calls) <==> token != Some(""))
    && (Posts(calls) <==> token != Some("") && userId != Some(""))
    && (LogSubscription(guildId, userId) in calls <==> Posts(calls))
    && (Posts(calls) ==> |calls| > 3 && calls[2] == CreateEventSub(EventSubBody(cfg, userId), token) && calls[3] == LogSubscription(guildId, userId))
  }

  lemma SubscribeWithoutToken(cfg: Config, name: string, guildId: string, tokenReply: TokenReply, usersReply: UsersReply)
    requires AccessToken(tokenReply) == Some("")
    ensures SubscribeProtocolHolds(cfg, name, guildId, tokenReply, usersReply)
  {
    assert !RevokesAny(SubscribeCalls(cfg, name, guildId, tokenReply, usersReply));
  }

  lemma SubscribeWithoutUser(cfg: Config, name: string, guildId: string, tokenReply: TokenReply, usersReply: UsersReply)
    requires AccessToken(tokenReply) != Some("") && UserId(usersReply) == Some("")
    ensures SubscribeProtocolHolds(cfg, name, guildId, tokenReply, usersReply)
  {
    var token := AccessToken(tokenReply);
    var calls := SubscribeCalls(cfg, name, guildId, tokenReply, usersReply);
    CountAppend([TokenGrant, UserLookup(name, token)], [Revoke(token)], Revoke(token));
    assert calls == [TokenGrant, UserLookup(name, token)] + [Revoke(token)];
    assert calls[2].Revoke?;
  }

  lemma SubscribeComplete(cfg: Config, name: string, guildId: string, tokenReply: TokenReply, usersReply: UsersReply)
    requires AccessToken(tokenReply) != Some("") && UserId(usersReply) != Some("")
    ensures SubscribeProtocolHolds(cfg, name, guildId, tokenReply, usersReply)
  {
    var token := AccessToken(tokenReply);
    var userId := UserId(usersReply);
    var calls := SubscribeCalls(cfg, name, guildId, tokenReply, usersReply);
    var head := [TokenGrant, UserLookup(name, token), CreateEventSub(EventSubBody(cfg, userId), token), LogSubscription(guildId, userId)];
    CountAppend(head, [Revoke(token)], Revoke(token));
    assert calls == head + [Revoke(token)];
    assert Revoke(token) !in head;
    assert calls[2].CreateEventSub? && calls[4].Revoke?;
  }

  /** Whatever Twitch answers, `subscribeToTwitchEvents` keeps to its protocol. */
  lemma SubscribeProtocol(cfg: Config, name: string, guildId: string, tokenReply: TokenReply, usersReply: UsersReply)
    ensures SubscribeProtocolHolds(cfg, name, guildId, tokenReply, usersReply)
  {
    if AccessToken(tokenReply) == Some("") {
      SubscribeWithoutToken(cfg, name, guildId, tokenReply, usersReply);
    } else if UserId(usersReply) == Some("") {
      SubscribeWithoutUser(cfg, name, guildId, tokenReply, usersReply);
    } else {
      SubscribeComplete(cfg, name, guildId, tokenReply, usersReply);
    }
  }

  /** The calls `cancelSubscriptions` issues per id: a DELETE, then (eagerly, in `.finally`) a revoke. */
  function CancelCalls(ids: seq<string>, token: Option<string>): (calls: seq<Call>)
    ensures |calls| == 2 * |ids|
  {
    if ids == [] then []
    else [DeleteEventSub(ids[0], token), Revoke(token)] + CancelCalls(ids[1..], token)
  }

  lemma {:induction false} CancelCallsAppend(ids: seq<string>, id: string, token: Option<string>)
    ensures CancelCalls(ids + [id], token) == CancelCalls(ids, token) + [DeleteEventSub(id, token), Revoke(token)]
  {
    if ids != [] {
      assert (ids + [id])[1..] == ids[1..] + [id];
      CancelCallsAppend(ids[1..], id, token);
    } else {
      assert CancelCalls([id], token) == [DeleteEventSub(id, token), Revoke(token)] + CancelCalls([], token);
    }
  }

  /** The DELETE of the k-th id sits at position 2k of the calls, and a revoke right after it. */
  lemma {:induction false} CancelCallsOrder(ids: seq<string>, token: Option<string>)
    ensures forall k :: 0 <= k < |ids| ==>
      CancelCalls(ids, token)[2 * k] == DeleteEventSub(ids[k], token) && CancelCalls(ids, token)[2 * k + 1] == Revoke(token)
  {
    if ids != [] {
      var rest := CancelCalls(ids[1..], token);
      CancelCallsOrder(ids[1..], token);
      assert CancelCalls(ids, token) == [DeleteEventSub(ids[0], token), Revoke(token)] + rest;
      forall k | 1 <= k < |ids|
        ensures CancelCalls(ids, token)[2 * k] == DeleteEventSub(ids[k], token)
        ensures CancelCalls(ids, token)[2 * k + 1] == Revoke(token)
      {
        assert CancelCalls(ids, token)[2 * k] == rest[2 * (k - 1)];
        assert CancelCalls(ids, token)[2 * k + 1] == rest[2 * (k - 1) + 1];
      }
    }
  }

  /** One revoke per id: with no id, no revoke at all. */
  lemma {:induction false} CancelCallsRevokes(ids: seq<string>, token: Option<string>)
    ensures Count(CancelCalls(ids, token), Revoke(token)) == |ids|
  {
    if ids != [] {
      var pair := [DeleteEventSub(ids[0], token), Revoke(token)];
      CancelCallsRevokes(ids[1..], token);
      CountAppend(pair, CancelCalls(ids[1..], token), Revoke(token));
      assert pair[1..] == [Revoke(token)];
    }
  }

  /** An id listed n times is deleted n times; an id not listed is never deleted. */
  lemma {:induction false} CancelCallsDeletes(ids: seq<string>, token: Option<string>, id: string)
    ensures Count(CancelCalls(ids, token), DeleteEventSub(id, token)) == Count(ids, id)
  {
    if ids != [] {
      var pair := [DeleteEventSub(ids[0], token), Revoke(token)];
      CancelCallsDeletes(ids[1..], token, id);
      CountAppend(pair, CancelCalls(ids[1..], token), DeleteEventSub(id, token));
      assert pair[1..] == [Revoke(token)];
    }
  }

  /**
   * `getSubIDs`' `forEach`: pushes the id of each listed subscription, in
   * the order Twitch listed them.
   */
  method PushIds(subs: seq<UpstreamSub>) returns (ids: seq<string>)
    ensures |ids| == |subs|
    ensures forall k :: 0 <= k < |subs| ==> ids[k] == subs[k].id
  {
    ids := [];
    var i := 0;
    while i < |subs|
      invariant 0 <= i <= |subs|
      invariant |ids| == i
      invariant forall k :: 0 <= k < i ==> ids[k] == subs[k].id
    {
      ids := ids + [subs[i].id];
      i := i + 1;
    }
  }

  /** The ids `getSubIDs` returns: those listed, or none when the listing fails. */
  function SubIds(reply: SubsReply): (ids: seq<string>)
    ensures reply.SubsFailed? ==> ids == []
    ensures reply.SubsListed? ==> |ids| == |reply.subs| && forall k :: 0 <= k < |ids| ==> ids[k] == reply.subs[k].id
  {
    match reply
    case SubsListed(subs) => seq(|subs|, k requires 0 <= k < |subs| => subs[k].id)
    case SubsFailed => []
  }

  /** The outbound side of `twitchAPI.js`: the trace of every call issued so far. */
  class Upstream {
    var trace: seq<Call>

    constructor ()
      ensures trace == []
    {
      trace := [];
    }

    /** `retrieveAccessToken` */
    method RetrieveAccessToken(reply: TokenReply) returns (token: Option<string>)
      modifies this
      ensures trace == old(trace) + [TokenGrant]
      ensures token == AccessToken(reply)
    {
      trace := trace + [TokenGrant];
      token := AccessToken(reply);
    }

    /** `revokeAccessToken`: fire and forget, its outcome is only logged. */
    method RevokeAccessToken(token: Option<string>)
      modifies this
      ensures trace == old(trace) + [Revoke(token)]
    {
      trace := trace + [Revoke(token)];
    }

    /** `retrieveUserID` */
    method RetrieveUserId(name: string, token: Option<string>, reply: UsersReply) returns (id: Option<string>)
      modifies this
      ensures trace == old(trace) + [UserLookup(name, token)]
      ensures id == UserId(reply)
    {
      trace := trace + [UserLookup(name, token)];
      id := UserId(reply);
    }

    /** `logSubscription`: asks the bot's own API to store the subscription. */
    method LogSubscription(guildId: string, broadcasterId: Option<string>)
      modifies this
      ensures trace == old(trace) + [Call.LogSubscription(guildId, broadcasterId)]
    {
      trace := trace + [Call.LogSubscription(guildId, broadcasterId)];
    }

    /** `subscribeToTwitchEvents` */
    method SubscribeToTwitchEvents(cfg: Config, name: string, guildId: string, tokenReply: TokenReply, usersReply: UsersReply)
      modifies this
      ensures trace == old(trace) + SubscribeCalls(cfg, name, guildId, tokenReply, usersReply)
    {
      var token := RetrieveAccessToken(tokenReply);
      if token != Some("") {
        var userId := RetrieveUserId(name, token, usersReply);
        if userId != Some("") {
          trace := trace + [CreateEventSub(EventSubBody(cfg, userId), token)];
          LogSubscription(guildId, userId);
          RevokeAccessToken(token);
        } else {
          RevokeAccessToken(token);
        }
      }
    }

    /** `fetchBroadcasterID`: looks the user up even without a token, and never revokes it. */
    method FetchBroadcasterId(username: string, tokenReply: TokenReply, usersReply: UsersReply) returns (id: Option<string>)
      modifies this
      ensures trace == old(trace) + [TokenGrant, UserLookup(username, AccessToken(tokenReply))]
      ensures id == UserId(usersReply)
    {
      var token := RetrieveAccessToken(tokenReply);
      id := RetrieveUserId(username, token, usersReply);
    }

    /** `fetchBroadcasterName`: the revoke is issued eagerly, right after the lookup. */
    method FetchBroadcasterName(broadcasterId: string, tokenReply: TokenReply, reply: ChannelsReply) returns (login: Option<string>)
      modifies this
      ensures trace == old(trace) + [TokenGrant, ChannelLookup(broadcasterId, AccessToken(tokenReply)), Revoke(AccessToken(tokenReply))]
      ensures login == BroadcasterLogin(reply)
    {
      var token := RetrieveAccessToken(tokenReply);
      trace := trace + [ChannelLookup(broadcasterId, token)];
      login := BroadcasterLogin(reply);
      RevokeAccessToken(token);
    }

    /** `debugSubs`: lists the active subscriptions (only to log them) and revokes the token. */
    method DebugSubs(tokenReply: TokenReply)
      modifies this
      ensures trace == old(trace) + [TokenGrant, ListEventSubs(AccessToken(tokenReply)), Revoke(AccessToken(tokenReply))]
    {
      var token := RetrieveAccessToken(tokenReply);
      trace := trace + [ListEventSubs(token)];
      RevokeAccessToken(token);
    }

    /** `getSubIDs` */
    method GetSubIds(token: Option<string>, reply: SubsReply) returns (ids: seq<string>)
      modifies this
      ensures trace == old(trace) + [ListEventSubs(token)]
      ensures ids == SubIds(reply)
    {
      trace := trace + [ListEventSubs(token)];
      ids := [];
      if reply.SubsListed? {
        ids := PushIds(reply.subs);
      }
    }

    /** `cancelSubscriptions`: no check of the token; one DELETE and one revoke per listed id. */
    method CancelSubscriptions(tokenReply: TokenReply, subsReply: SubsReply)
      modifies this
      ensures trace == old(trace) + [TokenGrant, ListEventSubs(AccessToken(tokenReply))]
        + CancelCalls(SubIds(subsReply), AccessToken(tokenReply))
    {
      var token := RetrieveAccessToken(tokenReply);
      var ids := GetSubIds(token, subsReply);
      ghost var start := trace;
      var i := 0;
      while i < |ids|
        invariant 0 <= i <= |ids|
        invariant trace == start + CancelCalls(ids[..i], token)
      {
        CancelCallsAppend(ids[..i], ids[i], token);
        assert ids[..i + 1] == ids[..i] + [ids[i]];
        trace := trace + [DeleteEventSub(ids[i], token)];
        RevokeAccessToken(token);
        i := i + 1;
      }
      assert ids[..i] == ids;
    }
  }
}
