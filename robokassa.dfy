/**
 * The payment aggregator: the redirect is signed with MD5 over colon-joined
 * fields under the first password; the callback with MD5 over other
 * colon-joined fields under the second password, compared without regard
 * to case. Every verified callback is a success.
 */
module Robokassa {
  import opened Wrappers
  import opened PhpStrings
  import opened Primitives
  import opened Store
  import opened GatewayBase

  // ------------------------------------------------------- the redirect

  /** The `$parameters` array of the redirect. */
  datatype Form = Form(merchantLogin: string, outSum: string, invId: string, invDesc: string,
                       encoding: string, shpMarketName: string, signatureValue: string)

  /** The custom parameter both signatures end with. */
  function MarketPart(marketName: string): string {
    "Shp_marketName=" + marketName
  }

  /** `$value == null` on a stored parameter: it is missing or empty. */
  predicate MissingCredential(parameters: map<string, string>, name: string) {
    LooseEqualsNull(Config(parameters, name))
  }

  /** The amount the aggregator is asked for: the total, converted to roubles unless already in them. */
  function RoubleSum(order: OrderSnapshot, ctx: RequestContext): Result<string> {
    if order.currency == "RUB" then Ok(order.totalSum)
    else if ctx.exchangeRates.Some? then Ok(ctx.exchangeRates.value(order.totalSum, order.currency, "RUB"))
    else Err(NoExchangeRatesSource)
  }

  /** For roubles the sum is the total itself; otherwise it needs an exchange-rate source. */
  lemma RoubleSumCases(order: OrderSnapshot, ctx: RequestContext)
    ensures order.currency == "RUB" ==> RoubleSum(order, ctx) == Ok(order.totalSum)
    ensures order.currency != "RUB" ==> (RoubleSum(order, ctx).Err? <==> ctx.exchangeRates.None?)
    ensures RoubleSum(order, ctx).Err? ==> RoubleSum(order, ctx).failure == NoExchangeRatesSource
  {
  }

  /**
   * generateRequestParameters: fails first when the login or the first
   * password is missing, then when a non-rouble order has no exchange-rate
   * source; otherwise fills the form and signs it with MD5 of
   * "login:sum:invId:firstPassword:Shp_marketName=market", built from the
   * very values placed in the form.
   */
  method GenerateRequestParameters(parameters: map<string, string>, order: OrderSnapshot, ctx: RequestContext)
    returns (r: Result<Form>)
    ensures MissingCredential(parameters, "gateway.login") || MissingCredential(parameters, "gateway.firstPassword")
            ==> r == Err(MissingCredentials)
    ensures !MissingCredential(parameters, "gateway.login") && !MissingCredential(parameters, "gateway.firstPassword")
            ==> (r.Ok? <==> RoubleSum(order, ctx).Ok?) && (r.Err? ==> r.failure == NoExchangeRatesSource)
    ensures r.Ok? ==>
      var f := r.value;
      && f.merchantLogin == Config(parameters, "gateway.login").value
      && f.outSum == RoubleSum(order, ctx).value
      && f.invId == PadLeft(order.id, 5)
      && f.invDesc == ctx.liteFormat(Text(Config(parameters, "gateway.bill.comment")), order.siteName)
      && f.encoding == "utf-8"
      && f.shpMarketName == order.marketName
      && f.signatureValue
         == ctx.crypto.md5Hex(Implode([f.merchantLogin, f.outSum, f.invId,
                                       Config(parameters, "gateway.firstPassword").value,
                                       MarketPart(f.shpMarketName)], ':'))
  {
    var orderId := PadLeft(order.id, 5);
    var gatewayLogin := Config(parameters, "gateway.login");
    var gatewayFirstPassword := Config(parameters, "gateway.firstPassword");
    if LooseEqualsNull(gatewayLogin) || LooseEqualsNull(gatewayFirstPassword) {
      return Err(MissingCredentials);
    }
    var orderSum := order.totalSum;
    if order.currency != "RUB" {
      if ctx.exchangeRates.Some? {
        orderSum := ctx.exchangeRates.value(order.totalSum, order.currency, "RUB");
      } else {
        return Err(NoExchangeRatesSource);
      }
    }
    var login, password := gatewayLogin.value, gatewayFirstPassword.value;
    var f := Form("", "", "", "", "", "", "");
    f := f.(merchantLogin := login);
    f := f.(outSum := orderSum);
    f := f.(invId := orderId);
    f := f.(invDesc := ctx.liteFormat(Text(Config(parameters, "gateway.bill.comment")), order.siteName));
    f := f.(encoding := "utf-8");
    var marketName := order.marketName;
    f := f.(shpMarketName := marketName);
    f := f.(signatureValue := ctx.crypto.md5Hex(login + ":" + orderSum + ":" + orderId + ":" + password
                                                + ":Shp_marketName=" + marketName));
    InterpolationIsImplode(login, orderSum, orderId, password, marketName);
    r := Ok(f);
  }

  /** The interpolated string of the redirect signature is the colon-join of its five parts. */
  lemma InterpolationIsImplode(login: string, sum: string, invId: string, password: string, market: string)
    ensures login + ":" + sum + ":" + invId + ":" + password + ":Shp_marketName=" + market
         == Implode([login, sum, invId, password, MarketPart(market)], ':')
  {
    var parts := [login, sum, invId, password, MarketPart(market)];
    assert parts[1..][1..][1..][1..] == [MarketPart(market)];
    assert Implode(parts[1..][1..][1..], ':') == password + [':'] + MarketPart(market);
    assert Implode(parts[1..][1..], ':') == invId + [':'] + (password + [':'] + MarketPart(market));
    assert Implode(parts[1..], ':') == sum + [':'] + (invId + [':'] + (password + [':'] + MarketPart(market)));
    assert ":Shp_marketName=" + market == [':'] + MarketPart(market);
  }

  // -------------------------------------------------------- the callback

  /** `$keyParameters` of the callback: OutSum, InvId, the second password and the market part. */
  function SignedParts(parameters: map<string, string>, env: map<string, string>): (parts: seq<string>)
    ensures |parts| == 4
  {
    [Text(Param(env, "OutSum")), Text(Param(env, "InvId")), Text(Config(parameters, "gateway.secondPassword")),
     MarketPart(Text(Param(env, "Shp_marketName")))]
  }

  /** md5(implode(':', $keyParameters)) */
  function ExpectedSignature(parameters: map<string, string>, crypto: Crypto, env: map<string, string>): string {
    crypto.md5Hex(Implode(SignedParts(parameters, env), ':'))
  }

  /** strcasecmp(expected, SignatureValue) == 0, a missing SignatureValue reading as "". */
  predicate Verified(parameters: map<string, string>, crypto: Crypto, env: map<string, string>) {
    CaseEquals(ExpectedSignature(parameters, crypto, env), Text(Param(env, "SignatureValue")))
  }

  /**
   * processResponse as a transition: a signature that does not match fails
   * before the order lookup; a verified callback records status "Ok" under
   * InvId + uniqid suffix, always calls the success handler, and answers
   * "OK" + InvId + newline as plain text.
   */
  function Respond(parameters: map<string, string>, env: map<string, string>, langs: seq<Lang>,
                   ctx: ResponseContext, w: World): Step
  {
    if !Verified(parameters, ctx.crypto, env) then Step(Err(WrongSignature), w)
    else
      var order := Text(Param(env, "InvId"));
      if order !in w.orders then Step(Err(OrderLookupFailed), w)
      else
        Step(Ok(Reply("OK" + order + "\n", "text/plain")),
             Accept(w, order, langs, order + ctx.uniqueSuffix, ctx.localNow, "Ok", None, true))
  }

  /** processResponse on the real objects. */
  method ProcessResponse(ps: PaymentSystem, env: map<string, string>, db: Database, ctx: ResponseContext)
    returns (out: Result<Reply>)
    modifies db, ps
    ensures Step(out, WorldOf(db, ps)) == Respond(ps.parameters, env, db.languages, ctx, old(WorldOf(db, ps)))
  {
    var gatewaySecondPassword := Text(Config(ps.parameters, "gateway.secondPassword"));
    var gatewaySignature := Text(Param(env, "SignatureValue"));
    var gatewayOrderId := Text(Param(env, "InvId"));
    var keyParameters := [Text(Param(env, "OutSum")), gatewayOrderId, gatewaySecondPassword,
                          "Shp_marketName=" + Text(Param(env, "Shp_marketName"))];
    var signature := ctx.crypto.md5Hex(Implode(keyParameters, ':'));
    if ToLower(signature) != ToLower(gatewaySignature) {
      return Err(WrongSignature);
    }
    if gatewayOrderId !in db.orders {
      return Err(OrderLookupFailed);
    }
    var operationStatus := "Ok";
    var operationCode := gatewayOrderId + ctx.uniqueSuffix;
    var operationDatetime := ctx.localNow;
    Record(db, ps, gatewayOrderId, db.languages, operationCode, operationDatetime, operationStatus, None, true);
    out := Ok(Reply("OK" + gatewayOrderId + "\n", "text/plain"));
  }

  /** A signature that does not match fails with no write, whatever the store holds. */
  lemma RejectionChangesNothing(parameters: map<string, string>, env: map<string, string>, langs: seq<Lang>,
                                ctx: ResponseContext, w: World)
    requires !Verified(parameters, ctx.crypto, env)
    ensures Respond(parameters, env, langs, ctx, w) == Step(Err(WrongSignature), w)
  {
  }

  /**
   * A verified callback for a known order records status "Ok" under the
   * new code, writes code and time under every language, calls the success
   * handler and never the error handler, and answers "OK" + InvId.
   */
  lemma VerifiedCallbackSucceeds(parameters: map<string, string>, env: map<string, string>, langs: seq<Lang>,
                                 ctx: ResponseContext, w: World)
    requires Verified(parameters, ctx.crypto, env)
    requires Text(Param(env, "InvId")) in w.orders
    ensures var order := Text(Param(env, "InvId"));
      var code := order + ctx.uniqueSuffix;
      var s := Respond(parameters, env, langs, ctx, w);
      && s.out == Ok(Reply("OK" + order + "\n", "text/plain"))
      && s.world.operations.Keys == w.operations.Keys + {code}
      && s.world.operations[code].status == "Ok" && s.world.operations[code].order == order
      && (forall l | l in langs ::
            && AttrKey(l, CodeAttr) in s.world.orders[order] && s.world.orders[order][AttrKey(l, CodeAttr)] == code
            && AttrKey(l, DateAttr) in s.world.orders[order]
            && s.world.orders[order][AttrKey(l, DateAttr)] == ctx.localNow)
      && (forall c | c in w.operations && c != code :: s.world.operations[c] == w.operations[c])
      && (forall o | o in w.orders && o != order :: o in s.world.orders && s.world.orders[o] == w.orders[o])
      && (forall k: AttrKey | !(k.lang in langs && (k.name == CodeAttr || k.name == DateAttr)) ::
            (k in s.world.orders[order] <==> k in w.orders[order])
            && (k in w.orders[order] ==> s.world.orders[order][k] == w.orders[order][k]))
      && s.world.notifications == w.notifications + [PaymentSucceeded(order)]
  {
    var order := Text(Param(env, "InvId"));
    AcceptEffect(w, order, langs, order + ctx.uniqueSuffix, ctx.localNow, "Ok", None, true);
  }

  /** No callback ever adds a failure notification. */
  lemma NeverPaymentFailed(parameters: map<string, string>, env: map<string, string>, langs: seq<Lang>,
                           ctx: ResponseContext, w: World)
    ensures var s := Respond(parameters, env, langs, ctx, w);
      forall i | |w.notifications| <= i < |s.world.notifications| :: s.world.notifications[i].PaymentSucceeded?
    ensures |Respond(parameters, env, langs, ctx, w).world.notifications| <= |w.notifications| + 1
  {
    var order := Text(Param(env, "InvId"));
    if Verified(parameters, ctx.crypto, env) && order in w.orders {
      AcceptEffect(w, order, langs, order + ctx.uniqueSuffix, ctx.localNow, "Ok", None, true);
    }
  }

  /** The comparison ignores case: the digest sent in upper case is accepted too. */
  lemma UpperCaseSignatureAccepted(parameters: map<string, string>, crypto: Crypto, env: map<string, string>)
    requires Param(env, "SignatureValue") == Some(ToUpper(ExpectedSignature(parameters, crypto, env)))
    ensures Verified(parameters, crypto, env)
  {
    CaseEqualsUpper(ExpectedSignature(parameters, crypto, env));
  }

  /** The callback never reads the first password: changing it changes no outcome. */
  lemma FirstPasswordIrrelevant(parameters: map<string, string>, password: string, env: map<string, string>,
                                langs: seq<Lang>, ctx: ResponseContext, w: World)
    ensures Respond(parameters["gateway.firstPassword" := password], env, langs, ctx, w)
         == Respond(parameters, env, langs, ctx, w)
  {
    assert "gateway.firstPassword"[8] != "gateway.secondPassword"[8];
    assert Config(parameters["gateway.firstPassword" := password], "gateway.secondPassword")
        == Config(parameters, "gateway.secondPassword");
  }

  /**
   * Both signatures end with the market part, but the redirect's covers the
   * login and the first password while the callback's covers the second
   * password in third place: the join of the callback's parts splits back
   * into exactly those four when none contains ':'.
   */
  lemma CallbackPartsSplit(parameters: map<string, string>, env: map<string, string>)
    requires forall i | 0 <= i < 4 :: Free(SignedParts(parameters, env)[i], ':')
    ensures Explode(Implode(SignedParts(parameters, env), ':'), ':') == SignedParts(parameters, env)
    ensures SignedParts(parameters, env)[2] == Text(Config(parameters, "gateway.secondPassword"))
  {
    ExplodeImplode(SignedParts(parameters, env), ':');
  }
}
