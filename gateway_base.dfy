/**
 * What the abstract payment gateway class shares with its subclasses: the
 * default currency translation, the shape of a request and of a callback's
 * outcome, and the inputs that come from outside the gateway (clock,
 * randomness, host name, library functions).
 */
module GatewayBase {
  import opened Wrappers
  import opened Primitives
  import opened Store
  import opened Canonical

  /** The default translateCurrency: the gateway's code is the standard code. */
  function TranslateCurrency(currency: string): (r: string)
    ensures r == currency
  {
    currency
  }

  /** getParameterByName(name)->value; a name that is not configured reads as null. */
  function Config(parameters: map<string, string>, name: string): Option<string> {
    Lookup(parameters, name)
  }

  /** $env->getParameter(name)->getValue(); a parameter the callback lacks reads as null. */
  function Param(env: map<string, string>, name: string): Option<string> {
    Lookup(env, name)
  }

  /** A PHP value used as a string: null becomes "". */
  function Text(v: Option<string>): (s: string)
    ensures v.Some? ==> s == v.value
    ensures v.None? ==> s == ""
  {
    v.GetOr("")
  }

  /** The order as the outbound path reads it. */
  datatype OrderSnapshot = OrderSnapshot(
    /** (string)$order, the order number */
    id: string,
    /** getTotalSum(), already formatted */
    totalSum: string,
    currency: string,
    siteName: string,
    marketName: string,
    publishedPath: string,
    /** the market owner's value of the group's 'email' special-role attribute, if any */
    ownerEmail: Option<string>,
    /** the customer's value of the group's 'phone' special-role attribute, if any */
    customerPhone: Option<string>)

  /** One value of rand(4096, 39321). */
  type NonceDraw = n: int | 4096 <= n <= 39321 witness 4096

  /** Everything the outbound path takes from outside the gateway. */
  datatype RequestContext = RequestContext(
    crypto: Crypto,
    /** $_SERVER['HTTP_HOST'] */
    httpHost: string,
    /** $env->getRoot()->hostName */
    rootHostName: string,
    /** gmdate('YmdHis') */
    gmtNow: string,
    /** the four rand(4096, 39321) draws */
    draws: (NonceDraw, NonceDraw, NonceDraw, NonceDraw),
    /** now + lifetime, formatted as ISO 8601, for a configured lifetime */
    expiry: string -> string,
    /** str::liteFormat(template, ['siteName' => name]) */
    liteFormat: (string, string) -> string,
    /** $order->market->exchangeRatesSource->convertValue(sum, from, to), if a source is set */
    exchangeRates: Option<(string, string, string) -> string>)

  /** Everything the callback path takes from outside the gateway. */
  datatype ResponseContext = ResponseContext(
    crypto: Crypto,
    /** what uniqid($prefix) appends to its prefix */
    uniqueSuffix: string,
    /** (new DateTime('NOW'))->format('Y-m-d H:i:s') */
    localNow: string,
    /** the bank gateway's private convertFromGMT */
    convertFromGmt: string -> string)

  /** The side call that creates a bill before the redirect (e-wallet only). */
  datatype BillRequest = BillRequest(
    url: string,
    httpMethod: string,
    headers: seq<string>,
    /** the basic-auth "user:password" */
    credentials: string,
    /** the query fields in http_build_query order */
    fields: seq<(string, string)>)

  /** The failures a gateway raises. */
  datatype Failure =
      /** the wallet's exception for a callback without X-Api-Signature (qiwi.php:165) */
    | MissingSignatureHeader
      /** a signature that does not match (qiwi.php:173, robokassa.php:123) */
    | WrongSignature
      /** the database's own exception from getOrderById, not caught by the gateway */
    | OrderLookupFailed
      /** httpStatusException with OBJECT_NOT_FOUND */
    | ObjectNotFound
      /** a method called on the null that an undefined property reads as */
    | CallOnNull
      /** login or first password not set (robokassa.php:54) */
    | MissingCredentials
      /** a non-rouble order and no exchange-rate source (robokassa.php:68) */
    | NoExchangeRatesSource

  datatype Result<+T> = Ok(value: T) | Err(failure: Failure)

  /** What processResponse returns for the HTTP response: nothing, or a body and its type. */
  datatype Reply = NoReply | Reply(body: string, contentType: string)

  /** A callback's outcome and the state after it. */
  datatype Step = Step(out: Result<Reply>, world: World)

  /** The query that opens an order's payment information page. */
  const InfoQuery: string := "?page.content.order.payment.info.display=1"

  /** The URL of the page the customer returns to after paying. */
  function InfoPageUrl(host: string, path: string): string {
    "http://" + host + path + InfoQuery
  }
}
