/** The proxy's routes (server/index.js), each a function from the
    configuration, the request and the answers of the upstream services to
    the calls it makes and the response it sends. An upstream answer is an
    input: the request threw, or a status with a body that parsed as JSON
    or did not. */
module Routes {
  import opened Wrappers
  import opened JsonData
  import opened Validators
  import opened ReviewsDb

  /** The environment; a variable counts as set when it is non-empty. */
  datatype Config = Config(
    publicToken: Option<string>, serverSecret: Option<string>, frontendUrl: Option<string>,
    discordClientId: Option<string>, discordClientSecret: Option<string>, discordRedirectUri: Option<string>,
    discordBotToken: Option<string>, discordGuildId: Option<string>)

  predicate Configured(v: Option<string>)
  {
    v.Some? && v.value != ""
  }

  /** A variable as a template literal prints it: unset prints "undefined". */
  function EnvText(v: Option<string>): string
  {
    if v.Some? then v.value else "undefined"
  }

  /** An upstream answer; `body` is `None` when it is not valid JSON. */
  datatype Upstream = Threw | Answered(status: int, body: Option<Json>)

  predicate IsOk(status: int)
  {
    200 <= status <= 299
  }

  /** The calls the proxy makes, with the data each one carries. */
  datatype Call =
    | FetchCategories(token: string)
    | FetchPackages(token: string)
    | FetchPackage(token: string, packageId: string)
    | FetchPayments(secret: string, limit: string)
    | PostBasket(token: string, payload: Json)
    | PostPackage(ident: string, value: Json)
    | FetchBasketAuth(token: string, ident: string, returnUrl: string)
    | FetchBasket(token: string, ident: string)
    | ExchangeCode(clientId: string, clientSecret: string, code: Json, redirectUri: string)
    | FetchDiscordUser(accessToken: Json)
    | AddGuildMember(guildId: string, userId: Option<Json>, botToken: string, accessToken: Json)

  datatype Response = Response(status: int, body: Json)

  datatype Exchange = Exchange(calls: seq<Call>, response: Response)

  const InternalError: Response := Response(500, ErrorBody("Internal server error"))
  const TokenMissing: Response := Response(500, ErrorBody("Tebex token not configured"))
  const SecretMissing: Response := Response(500, ErrorBody("Tebex server secret not configured"))

  /** `{error: failure, details: body}` with an unparsable body as `{}`. */
  function FailureBody(failure: string, body: Option<Json>): Json
  {
    Obj2("error", JStr(failure), "details", body.GetOr(JObj(map[])))
  }

  /** The common tail of the relaying routes: a throw, or a good answer
      that is not JSON, is a 500; an answer outside 2xx is passed on with
      its own status; a good answer's body is sent with status 200. */
  function Relay(reply: Upstream, failure: string): (r: Response)
    ensures reply.Threw? ==> r == InternalError
    ensures reply.Answered? && !IsOk(reply.status) ==>
      r.status == reply.status && r.body == FailureBody(failure, reply.body)
    ensures reply.Answered? && IsOk(reply.status) && reply.body.Some? ==> r == Response(200, reply.body.value)
    ensures reply.Answered? && IsOk(reply.status) && reply.body.None? ==> r == InternalError
  {
    match reply
    case Threw => InternalError
    case Answered(status, body) =>
      if !IsOk(status) then Response(status, FailureBody(failure, body))
      else if body.None? then InternalError
      else Response(200, body.value)
  }

  /** Every relayed response either carries the upstream's own failing
      status, or is 200 with the upstream body, or is 500. */
  lemma RelayStatus(reply: Upstream, failure: string)
    ensures var r := Relay(reply, failure);
      (reply.Answered? && !IsOk(reply.status) && r.status == reply.status) ||
      (r.status == 200 && reply.Answered? && reply.body == Some(r.body)) ||
      r == InternalError
  {
  }

  // ---------------------------------------------------------------------
  // Catalogue routes

  function Categories(config: Config, reply: Upstream): (x: Exchange)
    ensures !Configured(config.publicToken) ==> x == Exchange([], TokenMissing)
    ensures Configured(config.publicToken) ==>
      x.calls == [FetchCategories(config.publicToken.value)] && x.response == Relay(reply, "Failed to fetch categories")
  {
    if !Configured(config.publicToken) then Exchange([], TokenMissing)
    else Exchange([FetchCategories(config.publicToken.value)], Relay(reply, "Failed to fetch categories"))
  }

  function Packages(config: Config, reply: Upstream): (x: Exchange)
    ensures !Configured(config.publicToken) ==> x == Exchange([], TokenMissing)
    ensures Configured(config.publicToken) ==>
      x.calls == [FetchPackages(config.publicToken.value)] && x.response == Relay(reply, "Failed to fetch packages")
  {
    if !Configured(config.publicToken) then Exchange([], TokenMissing)
    else Exchange([FetchPackages(config.publicToken.value)], Relay(reply, "Failed to fetch packages"))
  }

  function Package(config: Config, packageId: string, reply: Upstream): (x: Exchange)
    ensures !Configured(config.publicToken) ==> x == Exchange([], TokenMissing)
    ensures Configured(config.publicToken) ==>
      x.calls == [FetchPackage(config.publicToken.value, packageId)] && x.response == Relay(reply, "Failed to fetch package")
  {
    if !Configured(config.publicToken) then Exchange([], TokenMissing)
    else Exchange([FetchPackage(config.publicToken.value, packageId)], Relay(reply, "Failed to fetch package"))
  }

  // ---------------------------------------------------------------------
  // Recent payments

  /** The page size asked of the upstream: the query's `limit`, or 10. */
  function PaymentsLimit(limit: Option<string>): string
  {
    if limit.Some? && limit.value != "" then limit.value else "10"
  }

  /** The payments route: a good answer that is not a list is sent as an
      empty list. */
  function RecentPayments(config: Config, limit: Option<string>, reply: Upstream): (x: Exchange)
    ensures !Configured(config.serverSecret) ==> x == Exchange([], SecretMissing)
    ensures Configured(config.serverSecret) ==> x.calls == [FetchPayments(config.serverSecret.value, PaymentsLimit(limit))]
    ensures Configured(config.serverSecret) && x.response.status == 200 ==> x.response.body.JArr?
    ensures Configured(config.serverSecret) && reply.Answered? && IsOk(reply.status) && reply.body.Some? ==>
      x.response == Response(200, if reply.body.value.JArr? then reply.body.value else JArr([]))
  {
    if !Configured(config.serverSecret) then Exchange([], SecretMissing)
    else
      var call := FetchPayments(config.serverSecret.value, PaymentsLimit(limit));
      var r := Relay(reply, "Failed to fetch payments");
      if r.status == 200 && reply.Answered? && IsOk(reply.status) then
        Exchange([call], Response(200, if r.body.JArr? then r.body else JArr([])))
      else Exchange([call], r)
  }

  // ---------------------------------------------------------------------
  // Baskets

  /** A request member, or the default when it is missing or falsy. */
  function MemberOr(body: Json, k: string, default: Json): Json
  {
    if TruthyMember(body, k) then Member(body, k).value else default
  }

  /** The basket the proxy asks for: the caller's addresses, or addresses on
      the storefront's own origin; never an automatic redirect on completion;
      the caller's custom data, or an empty object. */
  function BasketPayload(config: Config, body: Json): (p: Json)
    ensures p.JObj? && p.fields.Keys == {"complete_url", "cancel_url", "complete_auto_redirect", "custom"}
    ensures p.fields["complete_auto_redirect"] == JBool(false)
    ensures TruthyMember(body, "complete_url") ==> p.fields["complete_url"] == Member(body, "complete_url").value
    ensures !TruthyMember(body, "complete_url") ==> p.fields["complete_url"] == JStr(EnvText(config.frontendUrl) + "/checkout/complete")
    ensures TruthyMember(body, "cancel_url") ==> p.fields["cancel_url"] == Member(body, "cancel_url").value
    ensures !TruthyMember(body, "cancel_url") ==> p.fields["cancel_url"] == JStr(EnvText(config.frontendUrl) + "/products")
    ensures TruthyMember(body, "custom") ==> p.fields["custom"] == Member(body, "custom").value
    ensures !TruthyMember(body, "custom") ==> p.fields["custom"] == JObj(map[])
  {
    JObj(map[
      "complete_url" := MemberOr(body, "complete_url", JStr(EnvText(config.frontendUrl) + "/checkout/complete")),
      "cancel_url" := MemberOr(body, "cancel_url", JStr(EnvText(config.frontendUrl) + "/products")),
      "complete_auto_redirect" := JBool(false),
      "custom" := MemberOr(body, "custom", JObj(map[]))])
  }

  function CreateBasket(config: Config, body: Json, reply: Upstream): (x: Exchange)
    ensures !Configured(config.publicToken) ==> x == Exchange([], TokenMissing)
    ensures Configured(config.publicToken) ==>
      x.calls == [PostBasket(config.publicToken.value, BasketPayload(config, body))] &&
      x.response == Relay(reply, "Failed to create basket")
  {
    if !Configured(config.publicToken) then Exchange([], TokenMissing)
    else Exchange([PostBasket(config.publicToken.value, BasketPayload(config, body))], Relay(reply, "Failed to create basket"))
  }

  const InvalidIdent: Response := Response(400, ErrorBody("Invalid basket identifier"))

  function InvalidInput(message: string): Response
  {
    Response(400, Obj2("error", JStr("Invalid input"), "details", JStr(message)))
  }

  /** Adding a package to a basket: the identifier is checked first, then
      the body; only a valid request reaches the upstream, and then with the
      validated value, defaults included. This route needs no token. */
  function AttachPackage(ident: string, body: Json, reply: Upstream): (x: Exchange)
    ensures !ValidBasketIdent(ident) ==> x == Exchange([], InvalidIdent)
    ensures ValidBasketIdent(ident) && ValidatePackage(body).Err? ==>
      x == Exchange([], InvalidInput(ValidatePackage(body).error))
    ensures ValidBasketIdent(ident) && ValidatePackage(body).Ok? ==>
      x.calls == [PostPackage(ident, JObj(ValidatePackage(body).value))] &&
      x.response == Relay(reply, "Failed to add package")
  {
    if !ValidBasketIdent(ident) then Exchange([], InvalidIdent)
    else match ValidatePackage(body)
      case Err(message) => Exchange([], InvalidInput(message))
      case Ok(value) => Exchange([PostPackage(ident, JObj(value))], Relay(reply, "Failed to add package"))
  }

  /** A request reaches the upstream exactly when the identifier and the body
      are both acceptable, and the forwarded quantity and type are the
      caller's or the defaults 1 and "single". */
  lemma AttachPackageForwards(ident: string, body: Json, reply: Upstream)
    ensures |AttachPackage(ident, body, reply).calls| > 0 <==>
      10 <= |ident| <= 100 && (forall i :: 0 <= i < |ident| ==> IdentChar(ident[i])) && PackageAcceptable(body)
    ensures ValidBasketIdent(ident) && PackageAcceptable(body) ==>
      var sent := AttachPackage(ident, body, reply).calls[0].value.fields;
      sent["quantity"] == (if "quantity" in body.fields then body.fields["quantity"] else JNum(1.0)) &&
      sent["type"] == (if "type" in body.fields then body.fields["type"] else JStr("single")) &&
      sent["package_id"] == body.fields["package_id"]
  {
    BasketIdentAccepts(ident);
    ValidatePackageAccepts(body);
    if ValidBasketIdent(ident) && PackageAcceptable(body) {
      ValidatePackageValue(body);
    }
  }

  function BasketAuth(config: Config, ident: string, returnUrl: Option<string>, reply: Upstream): (x: Exchange)
    ensures !Configured(config.publicToken) ==> x == Exchange([], TokenMissing)
    ensures Configured(config.publicToken) ==>
      x.calls == [FetchBasketAuth(config.publicToken.value, ident, EnvText(returnUrl))] &&
      x.response == Relay(reply, "Failed to get auth URL")
  {
    if !Configured(config.publicToken) then Exchange([], TokenMissing)
    else Exchange([FetchBasketAuth(config.publicToken.value, ident, EnvText(returnUrl))], Relay(reply, "Failed to get auth URL"))
  }

  function GetBasket(config: Config, ident: string, reply: Upstream): (x: Exchange)
    ensures !Configured(config.publicToken) ==> x == Exchange([], TokenMissing)
    ensures Configured(config.publicToken) ==>
      x.calls == [FetchBasket(config.publicToken.value, ident)] && x.response == Relay(reply, "Failed to get basket")
  {
    if !Configured(config.publicToken) then Exchange([], TokenMissing)
    else Exchange([FetchBasket(config.publicToken.value, ident)], Relay(reply, "Failed to get basket"))
  }

  /** Without the public token none of the routes that use it calls out, and
      all of them answer 500 alike; whatever the upstream would have said
      makes no difference. */
  lemma NoTokenNoCalls(config: Config, body: Json, id: string, ident: string, returnUrl: Option<string>, reply: Upstream)
    requires !Configured(config.publicToken)
    ensures Categories(config, reply) == Packages(config, reply) == Package(config, id, reply) ==
            CreateBasket(config, body, reply) == BasketAuth(config, ident, returnUrl, reply) ==
            GetBasket(config, ident, reply) == Exchange([], TokenMissing)
  {
  }

  // ---------------------------------------------------------------------
  // The Discord token exchange

  const CodeRequired: Response := Response(400, ErrorBody("Authorization code required"))
  const OAuthMissing: Response := Response(500, ErrorBody("Discord OAuth not configured"))
  const ExchangeFailed: string := "Failed to exchange code for token"

  /** The best-effort guild join: look the user up with the new access
      token, then ask to add them to the guild. The answers only decide
      which calls are made; a `null` profile throws when its id is read, and
      the join stops there. */
  function JoinGuildCalls(config: Config, accessToken: Json, userReply: Upstream): (calls: seq<Call>)
    requires Configured(config.discordBotToken) && Configured(config.discordGuildId)
    ensures 1 <= |calls| <= 2 && calls[0] == FetchDiscordUser(accessToken)
    ensures |calls| == 2 <==> ProfileReadable(userReply)
    ensures |calls| == 2 ==>
      calls[1] == AddGuildMember(config.discordGuildId.value, Member(userReply.body.value, "id"),
                                 config.discordBotToken.value, accessToken)
  {
    var lookup := FetchDiscordUser(accessToken);
    match userReply
    case Answered(status, Some(user)) =>
      if IsOk(status) && !user.JNull? then
        [lookup, AddGuildMember(config.discordGuildId.value, Member(user, "id"), config.discordBotToken.value, accessToken)]
      else [lookup]
    case _ => [lookup]
  }

  /** The profile lookup succeeded with a JSON body whose `id` can be read. */
  predicate ProfileReadable(userReply: Upstream)
  {
    userReply.Answered? && IsOk(userReply.status) && userReply.body.Some? && !userReply.body.value.JNull?
  }

  /** Both guild settings are present, so the exchange reads `access_token`. */
  predicate BotConfigured(config: Config)
  {
    Configured(config.discordBotToken) && Configured(config.discordGuildId)
  }

  /** Whether the exchange goes on to the guild join. */
  predicate JoinsGuild(config: Config, tokenData: Json)
  {
    BotConfigured(config) && TruthyMember(tokenData, "access_token")
  }

  /** The provider accepted the code with a `null` body. */
  predicate NullTokenData(tokenReply: Upstream)
  {
    tokenReply.Answered? && IsOk(tokenReply.status) && tokenReply.body == Some(JNull)
  }

  /** POST /api/discord/token: the code is checked before the credentials;
      a code the provider accepts is answered with the provider's token data,
      unless reading `access_token` of a `null` body throws, which only
      happens once both guild settings are present. */
  function DiscordToken(config: Config, body: Json, tokenReply: Upstream, userReply: Upstream): (x: Exchange)
    ensures !TruthyMember(body, "code") ==> x == Exchange([], CodeRequired)
    ensures TruthyMember(body, "code") && !(Configured(config.discordClientId) && Configured(config.discordClientSecret)) ==>
      x == Exchange([], OAuthMissing)
    ensures TruthyMember(body, "code") && Configured(config.discordClientId) && Configured(config.discordClientSecret) ==>
      |x.calls| > 0 &&
      x.calls[0] == ExchangeCode(config.discordClientId.value, config.discordClientSecret.value,
                                 Member(body, "code").value, EnvText(config.discordRedirectUri))
    ensures tokenReply.Answered? && IsOk(tokenReply.status) && tokenReply.body.Some? &&
            !(NullTokenData(tokenReply) && BotConfigured(config)) &&
            TruthyMember(body, "code") && Configured(config.discordClientId) && Configured(config.discordClientSecret) ==>
      x.response == Response(200, tokenReply.body.value)
    ensures NullTokenData(tokenReply) && BotConfigured(config) &&
            TruthyMember(body, "code") && Configured(config.discordClientId) && Configured(config.discordClientSecret) ==>
      x == Exchange([x.calls[0]], InternalError)
  {
    if !TruthyMember(body, "code") then Exchange([], CodeRequired)
    else if !(Configured(config.discordClientId) && Configured(config.discordClientSecret)) then Exchange([], OAuthMissing)
    else
      var exchange := ExchangeCode(config.discordClientId.value, config.discordClientSecret.value,
                                   Member(body, "code").value, EnvText(config.discordRedirectUri));
      var r := Relay(tokenReply, ExchangeFailed);
      if r.status != 200 then Exchange([exchange], r)
      else
        var tokenData := r.body;
        if BotConfigured(config) && tokenData.JNull? then Exchange([exchange], InternalError)
        else if JoinsGuild(config, tokenData) then
          Exchange([exchange] + JoinGuildCalls(config, Member(tokenData, "access_token").value, userReply), Response(200, tokenData))
        else Exchange([exchange], Response(200, tokenData))
  }

  /** The response never depends on how the user lookup goes. */
  lemma DiscordLookupNeverMatters(config: Config, body: Json, tokenReply: Upstream, userReply: Upstream, otherReply: Upstream)
    ensures DiscordToken(config, body, tokenReply, userReply).response == DiscordToken(config, body, tokenReply, otherReply).response
  {
  }

  /** The guild settings change the response only for a `null` token body:
      for any other answer the response is the same with or without them.
      The join is attempted exactly when the bot token, the guild and an
      access token are all there, and the member is added exactly when the
      profile can be read. */
  lemma DiscordJoinNeverMatters(config: Config, body: Json, tokenReply: Upstream, userReply: Upstream,
                                bot: Option<string>, guild: Option<string>)
    requires !NullTokenData(tokenReply)
    ensures var other := config.(discordBotToken := bot, discordGuildId := guild);
      DiscordToken(config, body, tokenReply, userReply).response == DiscordToken(other, body, tokenReply, userReply).response
    ensures |DiscordToken(config, body, tokenReply, userReply).calls| > 1 <==>
      TruthyMember(body, "code") && Configured(config.discordClientId) && Configured(config.discordClientSecret) &&
      tokenReply.Answered? && IsOk(tokenReply.status) && tokenReply.body.Some? && JoinsGuild(config, tokenReply.body.value)
    ensures |DiscordToken(config, body, tokenReply, userReply).calls| == 3 <==>
      |DiscordToken(config, body, tokenReply, userReply).calls| > 1 && ProfileReadable(userReply)
  {
  }

  /** A `null` token body is answered as it is without the guild settings,
      and with a 500 once both are present. */
  lemma DiscordNullTokenData(config: Config, body: Json, tokenReply: Upstream, userReply: Upstream)
    requires NullTokenData(tokenReply)
    requires TruthyMember(body, "code") && Configured(config.discordClientId) && Configured(config.discordClientSecret)
    ensures DiscordToken(config, body, tokenReply, userReply).response ==
      if BotConfigured(config) then InternalError else Response(200, JNull)
    ensures |DiscordToken(config, body, tokenReply, userReply).calls| == 1
  {
  }

  // ---------------------------------------------------------------------
  // Reviews

  /** The reviews answer: the product's reviews with their statistics, or
      the failure shape with no reviews and zero statistics. */
  datatype ReviewsBody = Listed(product: string, stats: Stats, reviews: seq<Review>)
                       | ListFailed(error: string, stats: Stats, reviews: seq<Review>)

  /** GET /api/reviews/product/:name; `decoded` is the name after
      percent-decoding, `None` when decoding throws. Each query's success is
      an input; their failures are absorbed by the store. */
  function ReviewsRoute(db: ReviewDatabase, coll: Collation, decoded: Option<string>, table: seq<Review>, listOk: bool, statsOk: bool): (r: (int, ReviewsBody))
    reads db
    ensures decoded.None? ==> r == (500, ListFailed("Failed to fetch reviews", FallbackStats, []))
    ensures decoded.Some? ==> r.0 == 200 && r.1.Listed? && r.1.product == decoded.value
  {
    match decoded
    case None => (500, ListFailed("Failed to fetch reviews", FallbackStats, []))
    case Some(name) =>
      (200, Listed(name, db.ProductReviewStats(coll, table, name, statsOk), db.ReviewsByProductName(coll, table, name, listOk)))
  }

  /** A listed answer holds exactly the product's reviews, newest first,
      and counts them, when the store is connected and both queries succeed;
      otherwise the empty list and the zero statistics. */
  lemma ReviewsRouteContents(db: ReviewDatabase, coll: Collation, name: string, table: seq<Review>, listOk: bool, statsOk: bool)
    ensures var r := ReviewsRoute(db, coll, Some(name), table, listOk, statsOk).1;
      (db.hasPool && listOk ==> r.reviews == Matching(coll, table, name)) &&
      (!db.hasPool ==> r.reviews == [] && r.stats == FallbackStats) &&
      (db.hasPool && listOk && statsOk ==> r.stats.total == |r.reviews|)
  {
    StatsCountListed(db, coll, table, name, true);
  }
}
