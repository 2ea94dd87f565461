/**
 * The route table of `api/twitch/twitch.router.js`, mounted under
 * `/twitch`: which handler a request reaches, by path and method. Every
 * path ends with `.all(methodNotAllowed)`, so a known path with an
 * unregistered method gets a 405; an unknown path leaves the router.
 */
module TwitchRouter {
  import opened Wrappers
  import opened JsText

  datatype Handler =
    | Eventsub | ListSubs | CreateSub | DestroySub | GetAnnounce | SetAnnounce | GetChannels
    | NotAllowed   // methodNotAllowed
    | NoRoute      // the router calls next() and the app's notFound takes over

  /** The four paths, with the `:guild_id` parameter where there is one. */
  datatype Route =
    | CallbackRoute
    | SubscriptionsRoute(guildId: string)
    | AnnouncementRoute(guildId: string)
    | AnnouncementsRoute

  const SubscriptionsPrefix := "/subscriptions/"
  const AnnouncementPrefix := "/announcements/"

  /** A value `:guild_id` can take: a non-empty path segment. */
  predicate IsSegment(s: string) {
    s != [] && '/' !in s
  }

  /** The path of a route, with its parameter filled in. */
  function PathOf(route: Route): (path: string)
    ensures route.SubscriptionsRoute? ==> StartsWith(path, SubscriptionsPrefix)
    ensures route.AnnouncementRoute? ==> StartsWith(path, AnnouncementPrefix)
  {
    match route
    case CallbackRoute => "/callback"
    case SubscriptionsRoute(g) => SubscriptionsPrefix + g
    case AnnouncementRoute(g) => AnnouncementPrefix + g
    case AnnouncementsRoute => "/announcements"
  }

  /** Matching a path (below the `/twitch` mount point) against the four routes. */
  function ParsePath(path: string): (r: Option<Route>)
    ensures r.Some? && (r.value.SubscriptionsRoute? || r.value.AnnouncementRoute?) ==> IsSegment(r.value.guildId)
  {
    if path == "/callback" then Some(CallbackRoute)
    else if path == "/announcements" then Some(AnnouncementsRoute)
    else if StartsWith(path, SubscriptionsPrefix) && IsSegment(path[|SubscriptionsPrefix|..]) then
      Some(SubscriptionsRoute(path[|SubscriptionsPrefix|..]))
    else if StartsWith(path, AnnouncementPrefix) && IsSegment(path[|AnnouncementPrefix|..]) then
      Some(AnnouncementRoute(path[|AnnouncementPrefix|..]))
    else None
  }

  /** A route's path is matched by that route, with the same parameter. */
  lemma ParsePathOf(route: Route)
    requires (route.SubscriptionsRoute? || route.AnnouncementRoute?) ==> IsSegment(route.guildId)
    ensures ParsePath(PathOf(route)) == Some(route)
  {
    match route
    case CallbackRoute =>
    case AnnouncementsRoute =>
    case SubscriptionsRoute(g) =>
      var path := PathOf(route);
      assert path[|SubscriptionsPrefix|..] == g;
      assert path != "/callback" && path != "/announcements" by {
        assert path[1] == 's';
      }
    case AnnouncementRoute(g) =>
      var path := PathOf(route);
      assert path[|AnnouncementPrefix|..] == g;
      assert path != "/callback" by {
        assert path[1] == 'a';
      }
      assert path != "/announcements" by {
        assert |path| > |"/announcements"|;
      }
      assert !StartsWith(path, SubscriptionsPrefix) by {
        assert path[1] != SubscriptionsPrefix[1];
      }
  }

  /** Every matched path is the path of the route it matched. */
  lemma PathOfParse(path: string)
    requires ParsePath(path).Some?
    ensures PathOf(ParsePath(path).value) == path
  {
    var route := ParsePath(path).value;
    if route.SubscriptionsRoute? {
      assert path == path[..|SubscriptionsPrefix|] + path[|SubscriptionsPrefix|..];
    } else if route.AnnouncementRoute? {
      assert path == path[..|AnnouncementPrefix|] + path[|AnnouncementPrefix|..];
    }
  }

  /** Express serves HEAD with the GET handler of a route that has no HEAD handler (none here has). */
  function EffectiveMethod(verb: string): string {
    if verb == "HEAD" then "GET" else verb
  }

  /** The handlers each route registers, by method; every other method falls to `.all`. */
  function Dispatch(route: Route, verb: string): (h: Handler)
    ensures h != NoRoute
  {
    var m := EffectiveMethod(verb);
    match route
    case CallbackRoute => if m == "POST" then Eventsub else NotAllowed
    case SubscriptionsRoute(_) =>
      if m == "GET" then ListSubs else if m == "POST" then CreateSub
      else if m == "DELETE" then DestroySub else NotAllowed
    case AnnouncementRoute(_) =>
      if m == "GET" then GetAnnounce else if m == "PUT" then SetAnnounce else NotAllowed
    case AnnouncementsRoute => if m == "GET" then GetChannels else NotAllowed
  }

  /** The handler a request to `/twitch<path>` reaches. */
  function RouteRequest(verb: string, path: string): (h: Handler)
    ensures h == NoRoute <==> ParsePath(path).None?
    ensures h == NotAllowed ==> ParsePath(path).Some?
  {
    match ParsePath(path)
    case None => NoRoute
    case Some(route) => Dispatch(route, verb)
  }

  /** The methods the doc comment above each route lists as valid. */
  function DocumentedMethods(route: Route): set<string> {
    match route
    case CallbackRoute => {"GET", "POST"}
    case SubscriptionsRoute(_) => {"GET", "POST", "DELETE"}
    case AnnouncementRoute(_) => {"GET", "PUT"}
    case AnnouncementsRoute => {"GET"}
  }

  /**
   * The registered handlers agree with the documented methods on every
   * route but one: the callback documents GET, yet only POST is registered,
   * so a GET there reaches the 405 handler.
   */
  lemma DocumentedVersusRegistered(route: Route, verb: string)
    requires verb != "HEAD"
    ensures !route.CallbackRoute? ==> (Dispatch(route, verb) != NotAllowed <==> verb in DocumentedMethods(route))
    ensures route.CallbackRoute? ==> (Dispatch(route, verb) != NotAllowed <==> verb == "POST")
    ensures "GET" in DocumentedMethods(CallbackRoute) && Dispatch(CallbackRoute, "GET") == NotAllowed
  {
  }

  /** At `/twitch/callback`, POST reaches the EventSub handler and every other method the 405. */
  lemma CallbackOnlyPost(verb: string)
    ensures RouteRequest(verb, "/callback") == (if verb == "POST" then Eventsub else NotAllowed)
  {
  }

  /** The guild routes hand every method they do not register to the 405 handler. */
  lemma GuildRoutes(verb: string, guildId: string)
    requires IsSegment(guildId)
    ensures RouteRequest(verb, SubscriptionsPrefix + guildId) ==
      (match EffectiveMethod(verb)
       case "GET" => ListSubs
       case "POST" => CreateSub
       case "DELETE" => DestroySub
       case _ => NotAllowed)
    ensures RouteRequest(verb, AnnouncementPrefix + guildId) ==
      (match EffectiveMethod(verb)
       case "GET" => GetAnnounce
       case "PUT" => SetAnnounce
       case _ => NotAllowed)
  {
    ParsePathOf(SubscriptionsRoute(guildId));
    ParsePathOf(AnnouncementRoute(guildId));
  }
}
