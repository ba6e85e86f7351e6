/**
 * The e-wallet gateway: a bill is created for the customer's phone number
 * before the redirect, and the wallet's callback is signed with a
 * base64-encoded HMAC-SHA1 over nine parameters joined by '|', carried in
 * the X-Api-Signature header.
 */
module Qiwi {
  import opened Wrappers
  import opened PhpStrings
  import opened Primitives
  import opened Store
  import opened GatewayBase

  // ------------------------------------------------------------ the bill

  /** The two headers of the bill request. */
  const BillHeaders: seq<string> :=
    ["Accept: application/json", "Content-Type: application/x-www-form-urlencoded; charset=utf-8"]

  /**
   * bill(): the PUT request that creates the bill. The URL is the
   * configured base, the shop id, "/bills/" and the order id padded to five
   * characters; the customer's phone is prefixed with "tel:", and a
   * customer without one leaves the variable unset, so "tel:" alone is sent.
   */
  function Bill(parameters: map<string, string>, order: OrderSnapshot, ctx: RequestContext): (b: BillRequest)
    ensures b.httpMethod == "PUT" && b.headers == BillHeaders
    ensures b.url == Text(Config(parameters, "gateway.bill.url")) + Text(Config(parameters, "gateway.shop.id"))
                     + "/bills/" + PadLeft(order.id, 5)
    ensures b.credentials == Text(Config(parameters, "gateway.application.id")) + ":"
                             + Text(Config(parameters, "gateway.application.password"))
    ensures |b.fields| == 5
    ensures b.fields[0] == ("user", "tel:" + order.customerPhone.GetOr(""))
    ensures b.fields[1] == ("amount", order.totalSum)
    ensures b.fields[2] == ("ccy", GatewayBase.TranslateCurrency(order.currency))
    ensures b.fields[3] == ("comment", ctx.liteFormat(Text(Config(parameters, "gateway.bill.comment")), order.siteName))
    ensures b.fields[4] == ("lifetime", ctx.expiry(Text(Config(parameters, "orders.lifetime"))))
  {
    var orderId := PadLeft(order.id, 5);
    var shopId := Text(Config(parameters, "gateway.shop.id"));
    var appId := Text(Config(parameters, "gateway.application.id"));
    var appPassword := Text(Config(parameters, "gateway.application.password"));
    var billUrl := Text(Config(parameters, "gateway.bill.url")) + shopId + "/bills/" + orderId;
    var customerPhone := order.customerPhone.GetOr("");
    var lifetime := ctx.expiry(Text(Config(parameters, "orders.lifetime")));
    BillRequest(billUrl, "PUT", BillHeaders, appId + ":" + appPassword,
                [("user", "tel:" + customerPhone),
                 ("amount", order.totalSum),
                 ("ccy", GatewayBase.TranslateCurrency(order.currency)),
                 ("comment", ctx.liteFormat(Text(Config(parameters, "gateway.bill.comment")), order.siteName)),
                 ("lifetime", lifetime)])
  }

  /** The wallet gateway does not translate currencies: the bill's ccy is the order's own code. */
  lemma BillCurrencyIsOrderCurrency(parameters: map<string, string>, order: OrderSnapshot, ctx: RequestContext)
    ensures Bill(parameters, order, ctx).fields[2].1 == order.currency
  {
  }

  // ------------------------------------------------------- the redirect

  /** The flag the failure URL adds to the success URL. */
  const ErrorFlag: string := "&page.content.order.payment.error=1"

  /** The `$parameters` array of the redirect. */
  datatype Form = Form(shop: string, transaction: string, successUrl: string, failUrl: string)

  /**
   * generateRequestParameters: creates the bill, then fills the redirect
   * form. The transaction is the order id padded to five characters (the
   * same id as in the bill's URL), and the failure URL is the success URL
   * with the error flag appended.
   */
  method GenerateRequestParameters(parameters: map<string, string>, order: OrderSnapshot, ctx: RequestContext)
    returns (bill: BillRequest, r: Form)
    ensures bill == Bill(parameters, order, ctx)
    ensures r.shop == Text(Config(parameters, "gateway.shop.id"))
    ensures r.transaction == PadLeft(order.id, 5)
    ensures r.successUrl == InfoPageUrl(ctx.rootHostName, order.publishedPath)
    ensures r.failUrl == r.successUrl + ErrorFlag
  {
    bill := Bill(parameters, order, ctx);
    var orderId := PadLeft(order.id, 5);
    var shopId := Text(Config(parameters, "gateway.shop.id"));
    var hostName := ctx.rootHostName;
    r := Form("", "", "", "");
    r := r.(shop := shopId);
    r := r.(transaction := orderId);
    r := r.(successUrl := "http://" + hostName + order.publishedPath + InfoQuery);
    r := r.(failUrl := "http://" + hostName + order.publishedPath + InfoQuery + ErrorFlag);
  }

  /**
   * The transaction id has at least five bytes, ends with the order id,
   * is padded with '0' only, and is the id the bill's URL ends with.
   */
  lemma TransactionMatchesBill(parameters: map<string, string>, order: OrderSnapshot, ctx: RequestContext)
    ensures var t := PadLeft(order.id, 5);
      && ByteLength(t) >= 5
      && |t| >= |order.id| && t[|t| - |order.id|..] == order.id
      && (forall i | 0 <= i < |t| - |order.id| :: t[i] == '0')
      && var url := Bill(parameters, order, ctx).url;
         |url| >= |t| && url[|url| - |t|..] == t
  {
    var t := PadLeft(order.id, 5);
    var url := Bill(parameters, order, ctx).url;
    var prefix := Text(Config(parameters, "gateway.bill.url")) + Text(Config(parameters, "gateway.shop.id")) + "/bills/";
    assert url == prefix + t;
    assert url[|prefix|..] == t;
  }

  // -------------------------------------------------------- the callback

  /** The signed callback parameters, in signing order. */
  const SignedParams: seq<string> := ["amount", "bill_id", "ccy", "command", "comment", "error", "prv_name", "status", "user"]

  /** `$keyParameters`: each signed parameter's value, null as "". */
  function SignedValues(env: map<string, string>): (vs: seq<string>)
    ensures |vs| == |SignedParams|
    ensures forall i | 0 <= i < |vs| :: vs[i] == Text(Param(env, SignedParams[i]))
  {
    seq(|SignedParams|, i requires 0 <= i < |SignedParams| => Text(Param(env, SignedParams[i])))
  }

  /** implode('|', $keyParameters) */
  function SignedString(env: map<string, string>): string {
    Implode(SignedValues(env), '|')
  }

  /** The signature a genuine callback carries: base64 of the raw HMAC-SHA1 under the configured key. */
  function ExpectedSignature(parameters: map<string, string>, crypto: Crypto, env: map<string, string>): string {
    crypto.base64(crypto.hmacSha1Raw(SignedString(env), Text(Config(parameters, "gateway.key"))))
  }

  /** The acknowledgement the wallet expects, whatever the payment's status. */
  const AckXml: string := "<?xml version=\"1.0\"?> <result><result_code>0</result_code></result>"

  /**
   * processResponse as a transition: the header must be present, then
   * strcmp-equal to the expected signature; only then is the bill's order
   * looked up and one operation recorded under bill_id + uniqid suffix.
   */
  function Respond(parameters: map<string, string>, env: map<string, string>, header: Option<string>,
                   langs: seq<Lang>, ctx: ResponseContext, w: World): Step
  {
    if header.None? then Step(Err(MissingSignatureHeader), w)
    else if header.value != ExpectedSignature(parameters, ctx.crypto, env) then Step(Err(WrongSignature), w)
    else
      var order := Text(Param(env, "bill_id"));
      if order !in w.orders then Step(Err(OrderLookupFailed), w)
      else
        var paid := Param(env, "status") == Some("paid");
        Step(Ok(Reply(AckXml, "text/xml")),
             Accept(w, order, langs, order + ctx.uniqueSuffix, ctx.localNow, if paid then "0" else "1", None, paid))
  }

  /** processResponse on the real objects; `header` is $_SERVER['HTTP_X_API_SIGNATURE'], None when unset. */
  method ProcessResponse(ps: PaymentSystem, env: map<string, string>, header: Option<string>,
                         db: Database, ctx: ResponseContext) returns (out: Result<Reply>)
    modifies db, ps
    ensures Step(out, WorldOf(db, ps)) == Respond(ps.parameters, env, header, db.languages, ctx, old(WorldOf(db, ps)))
  {
    var keyParameters := SignedValues(env);
    var key := Text(Config(ps.parameters, "gateway.key"));
    if header.None? {
      return Err(MissingSignatureHeader);
    }
    var sign := header.value;
    var s := Implode(keyParameters, '|');
    var hash := ctx.crypto.base64(ctx.crypto.hmacSha1Raw(s, key));
    if sign != hash {
      return Err(WrongSignature);
    }
    var orderId := Text(Param(env, "bill_id"));
    if orderId !in db.orders {
      return Err(OrderLookupFailed);
    }
    var operationStatus := Param(env, "status");
    var operationCode := orderId + ctx.uniqueSuffix;
    var operationDatetime := ctx.localNow;
    var paid := operationStatus == Some("paid");
    Record(db, ps, orderId, db.languages, operationCode, operationDatetime, if paid then "0" else "1", None, paid);
    out := Ok(Reply(AckXml, "text/xml"));
  }

  /**
   * Without the header the callback fails before anything else, whatever
   * the key, the parameters, the hash functions or the store hold.
   */
  lemma MissingHeaderFailsFirst(parameters: map<string, string>, env: map<string, string>, langs: seq<Lang>,
                                ctx: ResponseContext, w: World)
    ensures Respond(parameters, env, None, langs, ctx, w) == Step(Err(MissingSignatureHeader), w)
  {
  }

  /** A present header that differs from the expected signature fails with no write. */
  lemma WrongSignatureChangesNothing(parameters: map<string, string>, env: map<string, string>, sign: string,
                                     langs: seq<Lang>, ctx: ResponseContext, w: World)
    requires sign != ExpectedSignature(parameters, ctx.crypto, env)
    ensures Respond(parameters, env, Some(sign), langs, ctx, w) == Step(Err(WrongSignature), w)
  {
  }

  /**
   * A verified callback for a known bill acknowledges with the fixed XML,
   * writes the new code and the time under every language, records status
   * 0 exactly when the status is "paid" (1 otherwise) under the new code,
   * and calls exactly one handler: the success handler iff "paid".
   */
  lemma VerifiedCallbackRecords(parameters: map<string, string>, env: map<string, string>, langs: seq<Lang>,
                                ctx: ResponseContext, w: World)
    requires Text(Param(env, "bill_id")) in w.orders
    ensures var order := Text(Param(env, "bill_id"));
      var code := order + ctx.uniqueSuffix;
      var paid := Param(env, "status") == Some("paid");
      var s := Respond(parameters, env, Some(ExpectedSignature(parameters, ctx.crypto, env)), langs, ctx, w);
      && s.out == Ok(Reply(AckXml, "text/xml"))
      && s.world.operations.Keys == w.operations.Keys + {code}
      && (s.world.operations[code].status == "0" <==> paid)
      && (!paid ==> s.world.operations[code].status == "1")
      && s.world.operations[code].order == order
      && (forall l | l in langs ::
            && AttrKey(l, CodeAttr) in s.world.orders[order] && s.world.orders[order][AttrKey(l, CodeAttr)] == code
            && AttrKey(l, DateAttr) in s.world.orders[order]
            && s.world.orders[order][AttrKey(l, DateAttr)] == ctx.localNow)
      && (forall c | c in w.operations && c != code :: s.world.operations[c] == w.operations[c])
      && (forall o | o in w.orders && o != order :: o in s.world.orders && s.world.orders[o] == w.orders[o])
      && (forall k: AttrKey | !(k.lang in langs && (k.name == CodeAttr || k.name == DateAttr)) ::
            (k in s.world.orders[order] <==> k in w.orders[order])
            && (k in w.orders[order] ==> s.world.orders[order][k] == w.orders[order][k]))
      && s.world.notifications == w.notifications + [if paid then PaymentSucceeded(order) else PaymentFailed(order)]
  {
    var order := Text(Param(env, "bill_id"));
    var paid := Param(env, "status") == Some("paid");
    AcceptEffect(w, order, langs, order + ctx.uniqueSuffix, ctx.localNow, if paid then "0" else "1", None, paid);
  }

  /**
   * Every code starts with the order id, and two deliveries of one callback
   * with different uniqid suffixes post two different records.
   */
  lemma RedeliveryAddsSecondRecord(parameters: map<string, string>, env: map<string, string>, langs: seq<Lang>,
                                   ctx1: ResponseContext, ctx2: ResponseContext, w: World)
    requires ctx2.crypto == ctx1.crypto && ctx1.uniqueSuffix != ctx2.uniqueSuffix
    requires Text(Param(env, "bill_id")) in w.orders
    ensures var sign := Some(ExpectedSignature(parameters, ctx1.crypto, env));
      var order := Text(Param(env, "bill_id"));
      var s1 := Respond(parameters, env, sign, langs, ctx1, w);
      var s2 := Respond(parameters, env, sign, langs, ctx2, s1.world);
      && s2.world.operations.Keys == w.operations.Keys + {order + ctx1.uniqueSuffix, order + ctx2.uniqueSuffix}
      && order + ctx1.uniqueSuffix != order + ctx2.uniqueSuffix
  {
    var order := Text(Param(env, "bill_id"));
    var paid := Param(env, "status") == Some("paid");
    var status := if paid then "0" else "1";
    var w1 := Accept(w, order, langs, order + ctx1.uniqueSuffix, ctx1.localNow, status, None, paid);
    AcceptEffect(w, order, langs, order + ctx1.uniqueSuffix, ctx1.localNow, status, None, paid);
    AcceptEffect(w1, order, langs, order + ctx2.uniqueSuffix, ctx2.localNow, status, None, paid);
    assert (order + ctx1.uniqueSuffix)[|order|..] == ctx1.uniqueSuffix;
    assert (order + ctx2.uniqueSuffix)[|order|..] == ctx2.uniqueSuffix;
  }

  /**
   * The signed string keeps every slot in its place: when no value contains
   * '|', splitting it at '|' gives back the nine values in signing order.
   */
  lemma SignedStringSplits(env: map<string, string>)
    requires forall i | 0 <= i < |SignedParams| :: Free(Text(Param(env, SignedParams[i])), '|')
    ensures Explode(SignedString(env), '|') == SignedValues(env)
  {
    var vs := SignedValues(env);
    forall i | 0 <= i < |vs| ensures Free(vs[i], '|') {
    }
    ExplodeImplode(vs, '|');
  }

  /**
   * So two callbacks whose values contain no '|' sign the same string
   * exactly when they agree on all nine signed parameters, slot by slot:
   * moving a value to another parameter changes the string.
   */
  lemma SignedStringInjective(env1: map<string, string>, env2: map<string, string>)
    requires forall i | 0 <= i < |SignedParams| :: Free(Text(Param(env1, SignedParams[i])), '|')
    requires forall i | 0 <= i < |SignedParams| :: Free(Text(Param(env2, SignedParams[i])), '|')
    ensures SignedString(env1) == SignedString(env2)
        <==> forall i | 0 <= i < |SignedParams| :: Text(Param(env1, SignedParams[i])) == Text(Param(env2, SignedParams[i]))
  {
    if forall i | 0 <= i < |SignedParams| :: Text(Param(env1, SignedParams[i])) == Text(Param(env2, SignedParams[i])) {
      assert SignedValues(env1) == SignedValues(env2);
    }
    if SignedString(env1) == SignedString(env2) {
      SignedStringSplits(env1);
      SignedStringSplits(env2);
    }
  }

  /** Parameters outside the signed nine do not change the signed string. */
  lemma UnsignedParamsIgnored(env: map<string, string>, k: string, v: string)
    requires k !in SignedParams
    ensures SignedString(env[k := v]) == SignedString(env)
  {
    forall i | 0 <= i < |SignedParams| ensures Param(env[k := v], SignedParams[i]) == Param(env, SignedParams[i]) {
      assert SignedParams[i] != k;
    }
    assert SignedValues(env[k := v]) == SignedValues(env);
  }
}
