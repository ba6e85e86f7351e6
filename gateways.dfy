/**
 * The abstract payment gateway and its three concrete subclasses as one
 * object: the payment system it is constructed with, the four operations
 * every gateway provides (request URL, request type, request parameters,
 * callback processing) and the currency translation, dispatched on which
 * gateway it is.
 */
module Gateways {
  import opened Wrappers
  import opened Store
  import opened GatewayBase
  import opened PhpStrings
  import opened Canonical
  import Psbank
  import Qiwi
  import Robokassa

  /** The concrete subclass. */
  datatype Kind = PsbankGateway | QiwiGateway | RobokassaGateway

  /** What generateRequestParameters produces for each subclass. */
  datatype Outbound =
    | BankForm(bankForm: Psbank.Form)
      /** the bill request sent before the redirect, and the redirect form */
    | WalletForm(bill: BillRequest, walletForm: Qiwi.Form)
    | AggregatorForm(aggregatorForm: Robokassa.Form)

  class Gateway {
    const kind: Kind
    /** `$paymentSystem`, set by the constructor */
    var paymentSystem: PaymentSystem
    /**
     * `$this->database`, which the bank gateway's callback reads. Neither
     * the base class nor any subclass declares or assigns it, so it stays
     * null.
     */
    var database: Database?

    /** The constructor stores the payment system and does nothing else. */
    constructor(kind: Kind, paymentSystem: PaymentSystem)
      ensures this.kind == kind && this.paymentSystem == paymentSystem && database == null
    {
      this.kind := kind;
      this.paymentSystem := paymentSystem;
      database := null;
    }

    /** translateCurrency: only the bank gateway overrides the identity. */
    function TranslateCurrency(currency: string): (r: string)
      reads this
      ensures kind != PsbankGateway ==> r == currency
      ensures kind == PsbankGateway ==> (r == "RUB" <==> currency == "RUR" || currency == "RUB")
      ensures kind == PsbankGateway && currency != "RUR" ==> r == currency
    {
      if kind == PsbankGateway then Psbank.TranslateCurrency(currency) else GatewayBase.TranslateCurrency(currency)
    }

    /** getRequestUrl: the configured 'query.url', null when it is not configured. */
    function GetRequestUrl(): (u: Option<string>)
      reads this
      ensures u.Some? <==> "query.url" in paymentSystem.parameters
      ensures u.Some? ==> u.value == paymentSystem.parameters["query.url"]
    {
      Config(paymentSystem.parameters, "query.url")
    }

    /** getRequestType: the configured 'query.type' (GET, POST or PUT), null when it is not configured. */
    function GetRequestType(): (t: Option<string>)
      reads this
      ensures t.Some? <==> "query.type" in paymentSystem.parameters
      ensures t.Some? ==> t.value == paymentSystem.parameters["query.type"]
    {
      Config(paymentSystem.parameters, "query.type")
    }

    /**
     * generateRequestParameters: the bank and the wallet gateways always
     * produce their form (the wallet's with its bill request); the
     * aggregator fails only for missing credentials or a missing
     * exchange-rate source.
     */
    method GenerateRequestParameters(order: OrderSnapshot, ctx: RequestContext) returns (r: Result<Outbound>)
      ensures kind == PsbankGateway ==>
        && r.Ok? && r.value.BankForm?
        && var f := r.value.bankForm;
        && f.order == PadLeft(order.id, 6)
        && f.currency == Psbank.TranslateCurrency(order.currency)
        && f.trtype == "1"
        && f.nonce == Psbank.Nonce(ctx.draws)
        && f.data == Some(LengthPrefixed(Psbank.RequestKeys, f.Array()))
        && f.pSign == Some(ctx.crypto.hmacSha1Hex(f.data.value, Psbank.SigningKey(paymentSystem.parameters, ctx.crypto)))
      ensures kind == QiwiGateway ==>
        && r.Ok? && r.value.WalletForm?
        && r.value.bill == Qiwi.Bill(paymentSystem.parameters, order, ctx)
        && var f := r.value.walletForm;
        && f.shop == Text(Config(paymentSystem.parameters, "gateway.shop.id"))
        && f.transaction == PadLeft(order.id, 5)
        && f.successUrl == InfoPageUrl(ctx.rootHostName, order.publishedPath)
        && f.failUrl == f.successUrl + Qiwi.ErrorFlag
      ensures kind == RobokassaGateway ==>
        && (r.Err? <==> Robokassa.MissingCredential(paymentSystem.parameters, "gateway.login")
                        || Robokassa.MissingCredential(paymentSystem.parameters, "gateway.firstPassword")
                        || Robokassa.RoubleSum(order, ctx).Err?)
        && (r.Err? ==> r.failure == MissingCredentials || r.failure == NoExchangeRatesSource)
        && (r.Ok? ==>
              && r.value.AggregatorForm?
              && var f := r.value.aggregatorForm;
              && f.invId == PadLeft(order.id, 5)
              && f.outSum == Robokassa.RoubleSum(order, ctx).value
              && f.signatureValue
                 == ctx.crypto.md5Hex(Implode([f.merchantLogin, f.outSum, f.invId,
                                               Config(paymentSystem.parameters, "gateway.firstPassword").value,
                                               Robokassa.MarketPart(f.shpMarketName)], ':')))
    {
      match kind
      case PsbankGateway =>
        var form := Psbank.GenerateRequestParameters(paymentSystem.parameters, order, ctx);
        r := Ok(BankForm(form));
      case QiwiGateway =>
        var bill, form := Qiwi.GenerateRequestParameters(paymentSystem.parameters, order, ctx);
        r := Ok(WalletForm(bill, form));
      case RobokassaGateway =>
        var form := Robokassa.GenerateRequestParameters(paymentSystem.parameters, order, ctx);
        if form.Ok? {
          r := Ok(AggregatorForm(form.value));
        } else {
          r := Err(form.failure);
        }
    }

    /**
     * processResponse, for each subclass the transition its module defines.
     * `header` is the X-Api-Signature header, which only the wallet reads.
     */
    method ProcessResponse(env: map<string, string>, header: Option<string>, db: Database, ctx: ResponseContext)
      returns (out: Result<Reply>)
      modifies db, paymentSystem
      ensures kind == PsbankGateway ==>
        Step(out, WorldOf(db, paymentSystem))
        == Psbank.Respond(paymentSystem.parameters, env, if database == null then None else Some(database.languages),
                          ctx, old(WorldOf(db, paymentSystem)))
      ensures kind == QiwiGateway ==>
        Step(out, WorldOf(db, paymentSystem))
        == Qiwi.Respond(paymentSystem.parameters, env, header, db.languages, ctx, old(WorldOf(db, paymentSystem)))
      ensures kind == RobokassaGateway ==>
        Step(out, WorldOf(db, paymentSystem))
        == Robokassa.Respond(paymentSystem.parameters, env, db.languages, ctx, old(WorldOf(db, paymentSystem)))
    {
      match kind
      case PsbankGateway =>
        out := Psbank.ProcessResponse(paymentSystem, database, env, db, ctx);
      case QiwiGateway =>
        out := Qiwi.ProcessResponse(paymentSystem, env, header, db, ctx);
      case RobokassaGateway =>
        out := Robokassa.ProcessResponse(paymentSystem, env, db, ctx);
    }
  }

  /**
   * A freshly constructed bank gateway fails every verified callback for a
   * known order before its first write, since `$this->database` is null.
   */
  method FreshBankGatewayCallback(ps: PaymentSystem, env: map<string, string>, db: Database, ctx: ResponseContext)
    returns (out: Result<Reply>)
    requires Psbank.Verified(ps.parameters, ctx.crypto, env)
    requires Text(Param(env, "ORDER")) in db.orders
    modifies db, ps
    ensures out == Err(CallOnNull)
    ensures WorldOf(db, ps) == old(WorldOf(db, ps))
  {
    var g := new Gateway(PsbankGateway, ps);
    out := g.ProcessResponse(env, None, db, ctx);
    Psbank.UnsetDatabasePropertyWritesNothing(ps.parameters, env, ctx, old(WorldOf(db, ps)));
  }
}
