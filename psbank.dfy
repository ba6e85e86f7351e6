/**
 * The bank acquiring gateway: HMAC-SHA1 over the length-prefixed canonical
 * string, under the hex-decoded terminal key.
 */
module Psbank {
  import opened Wrappers
  import opened PhpStrings
  import opened Primitives
  import opened Canonical
  import opened Store
  import opened GatewayBase

  /** The gateway's own currency code for roubles is "RUR"; the standard code is "RUB". */
  function TranslateCurrency(currency: string): (r: string)
    ensures currency == "RUR" ==> r == "RUB"
    ensures currency != "RUR" ==> r == currency
  {
    if currency == "RUR" then "RUB" else currency
  }

  /** Translating never produces "RUR", so translating twice is translating once. */
  lemma TranslateCurrencyIdempotent(currency: string)
    ensures TranslateCurrency(currency) != "RUR"
    ensures TranslateCurrency(TranslateCurrency(currency)) == TranslateCurrency(currency)
  {
  }

  /** The fields of the redirect form the gateway builds. */
  datatype Field = AMOUNT | CURRENCY | ORDER | DESC | TERMINAL | TRTYPE | MERCH_NAME | MERCHANT
                 | EMAIL | TIMESTAMP | NONCE | BACKREF | DATA | P_SIGN
  {
    /** The field's name in the form, which is also its name in the callback. */
    function Name(): string {
      match this
      case AMOUNT => "AMOUNT"
      case CURRENCY => "CURRENCY"
      case ORDER => "ORDER"
      case DESC => "DESC"
      case TERMINAL => "TERMINAL"
      case TRTYPE => "TRTYPE"
      case MERCH_NAME => "MERCH_NAME"
      case MERCHANT => "MERCHANT"
      case EMAIL => "EMAIL"
      case TIMESTAMP => "TIMESTAMP"
      case NONCE => "NONCE"
      case BACKREF => "BACKREF"
      case DATA => "DATA"
      case P_SIGN => "P_SIGN"
    }
  }

  /** Every field the form can hold. */
  const AllFields: set<Field> :=
    {AMOUNT, CURRENCY, ORDER, DESC, TERMINAL, TRTYPE, MERCH_NAME, MERCHANT, EMAIL, TIMESTAMP, NONCE, BACKREF, DATA, P_SIGN}

  lemma FieldListed(f: Field)
    ensures f in AllFields
  {
  }

  /**
   * The `$parameters` array generateRequestParameters fills in. EMAIL is
   * set only for some orders, and DATA and P_SIGN only once the form is
   * signed; every other field is always set.
   */
  datatype Form = Form(amount: string, currency: string, order: string, desc: string, terminal: string,
                       trtype: string, merchName: string, merchant: string, email: Option<string>,
                       timestamp: string, nonce: string, backref: string,
                       data: Option<string>, pSign: Option<string>)
  {
    /** `$parameters[f]`, null when unset. */
    function Get(f: Field): Option<string> {
      match f
      case AMOUNT => Some(amount)
      case CURRENCY => Some(currency)
      case ORDER => Some(order)
      case DESC => Some(desc)
      case TERMINAL => Some(terminal)
      case TRTYPE => Some(trtype)
      case MERCH_NAME => Some(merchName)
      case MERCHANT => Some(merchant)
      case EMAIL => email
      case TIMESTAMP => Some(timestamp)
      case NONCE => Some(nonce)
      case BACKREF => Some(backref)
      case DATA => data
      case P_SIGN => pSign
    }

    /** The array itself: the set fields and their values. */
    function Array(): (m: map<Field, string>)
      ensures forall f :: Lookup(m, f) == Get(f)
    {
      var m := map f | f in AllFields && Get(f).Some? :: Get(f).value;
      forall f ensures f in AllFields {
        FieldListed(f);
      }
      m
    }
  }

  /** The signed fields of a request, in signing order. */
  const RequestKeys: seq<Field> :=
    [AMOUNT, CURRENCY, ORDER, MERCH_NAME, MERCHANT, TERMINAL, EMAIL, TRTYPE, TIMESTAMP, NONCE, BACKREF]

  /** The names of a list of fields. */
  function Names(fields: seq<Field>): seq<string> {
    seq(|fields|, i requires 0 <= i < |fields| => fields[i].Name())
  }

  /** The signed fields of a callback, in signing order: the request's, then the bank's verdict. */
  const ResponseKeys: seq<string> :=
    Names(RequestKeys) + ["RESULT", "RC", "RCTEXT", "AUTHCODE", "RRN", "INT_REF"]

  /** The text of DESC before the site name ("Order on the site "). */
  const DescPrefix: string := "Заказ на сайте "

  /**
   * NONCE: four rand(4096, 39321) draws, each in "%X". Every draw lies in
   * 0x1000..0x9999, so each chunk is four upper-case hex digits that read
   * back as the draw, and the NONCE is sixteen of them.
   */
  function Nonce(d: (NonceDraw, NonceDraw, NonceDraw, NonceDraw)): (n: string)
    ensures |n| == 16 && IsUpperHex(n)
    ensures HexValue(n[0..4]) == d.0 && HexValue(n[4..8]) == d.1
    ensures HexValue(n[8..12]) == d.2 && HexValue(n[12..16]) == d.3
  {
    var a, b, c, e := UpperHex(d.0), UpperHex(d.1), UpperHex(d.2), UpperHex(d.3);
    FourHexDigits(d.0); FourHexDigits(d.1); FourHexDigits(d.2); FourHexDigits(d.3);
    UpperHexRoundTrip(d.0); UpperHexRoundTrip(d.1); UpperHexRoundTrip(d.2); UpperHexRoundTrip(d.3);
    var n := a + b + c + e;
    assert n[0..4] == a && n[4..8] == b && n[8..12] == c && n[12..16] == e;
    n
  }

  /** The key the HMAC is computed under: pack('H*', gateway.key). */
  function SigningKey(parameters: map<string, string>, crypto: Crypto): string {
    crypto.packHex(Text(Config(parameters, "gateway.key")))
  }

  /**
   * generateRequestParameters: the redirect form, built field by field.
   * EMAIL is set only when the market owner has an e-mail attribute; DATA
   * is the canonical string of the signed fields of the finished array and
   * P_SIGN its lower-case HMAC-SHA1 under the hex-decoded key.
   */
  method GenerateRequestParameters(parameters: map<string, string>, order: OrderSnapshot, ctx: RequestContext)
    returns (r: Form)
    ensures r.amount == order.totalSum
    ensures r.currency == TranslateCurrency(order.currency)
    ensures r.order == PadLeft(order.id, 6)
    ensures r.desc == DescPrefix + order.siteName
    ensures r.terminal == Text(Config(parameters, "gateway.terminal"))
    ensures r.trtype == "1"
    ensures r.merchName == order.siteName
    ensures r.merchant == Text(Config(parameters, "gateway.merchant"))
    ensures r.email == order.ownerEmail
    ensures r.timestamp == ctx.gmtNow
    ensures r.nonce == Nonce(ctx.draws)
    ensures r.backref == InfoPageUrl(ctx.httpHost, order.publishedPath)
    ensures r.data == Some(LengthPrefixed(RequestKeys, r.Array()))
    ensures r.pSign == Some(ctx.crypto.hmacSha1Hex(r.data.value, SigningKey(parameters, ctx.crypto)))
  {
    r := Form("", "", "", "", "", "", "", "", None, "", "", "", None, None);
    r := r.(amount := order.totalSum);
    r := r.(currency := TranslateCurrency(order.currency));
    r := r.(order := PadLeft(order.id, 6));
    r := r.(desc := DescPrefix + order.siteName);
    r := r.(terminal := Text(Config(parameters, "gateway.terminal")));
    r := r.(trtype := "1");
    r := r.(merchName := order.siteName);
    r := r.(merchant := Text(Config(parameters, "gateway.merchant")));
    if order.ownerEmail.Some? {
      r := r.(email := order.ownerEmail);
    }
    r := r.(timestamp := ctx.gmtNow);
    r := r.(nonce := Nonce(ctx.draws));
    r := r.(backref := InfoPageUrl(ctx.httpHost, order.publishedPath));
    r := Sign(r, SigningKey(parameters, ctx.crypto), ctx.crypto);
  }

  /**
   * The signing loop and the two fields after it: DATA becomes the
   * canonical string of the signed fields and P_SIGN the lower-case
   * HMAC-SHA1 of DATA; no other field changes, and since neither DATA nor
   * P_SIGN is signed, DATA is also the canonical string of the result.
   */
  method Sign(form: Form, key: string, crypto: Crypto) returns (r: Form)
    ensures r == form.(data := r.data, pSign := r.pSign)
    ensures r.data == Some(LengthPrefixed(RequestKeys, form.Array()))
    ensures r.data == Some(LengthPrefixed(RequestKeys, r.Array()))
    ensures r.pSign == Some(crypto.hmacSha1Hex(r.data.value, key))
  {
    var data := Encode(RequestKeys, form.Array());
    r := form.(data := Some(data));
    r := r.(pSign := Some(crypto.hmacSha1Hex(data, key)));
    SignedFieldsDecide(form, r);
  }

  /** Two forms that agree on the signed fields have the same canonical string. */
  lemma SignedFieldsDecide(a: Form, b: Form)
    requires forall i | 0 <= i < |RequestKeys| :: a.Get(RequestKeys[i]) == b.Get(RequestKeys[i])
    ensures LengthPrefixed(RequestKeys, a.Array()) == LengthPrefixed(RequestKeys, b.Array())
  {
    RenamedKeys(RequestKeys, a.Array(), RequestKeys, b.Array());
  }

  /** DESC, DATA and P_SIGN are not signed: changing them leaves the canonical string as it is. */
  lemma UnsignedFieldsIgnored(form: Form, desc: string, data: Option<string>, pSign: Option<string>)
    ensures LengthPrefixed(RequestKeys, form.(desc := desc, data := data, pSign := pSign).Array())
         == LengthPrefixed(RequestKeys, form.Array())
  {
    SignedFieldsDecide(form.(desc := desc, data := data, pSign := pSign), form);
  }

  /**
   * An order whose owner has no e-mail leaves EMAIL unset; its slot in DATA
   * is a single "-", and the fields before and after it keep their segments.
   */
  lemma MissingEmailIsDash(form: Form)
    requires form.email.None? || form.email == Some("")
    ensures LengthPrefixed(RequestKeys, form.Array())
         == LengthPrefixed(RequestKeys[..6], form.Array()) + "-" + LengthPrefixed(RequestKeys[7..], form.Array())
  {
    assert RequestKeys[6] == EMAIL;
    assert Lookup(form.Array(), EMAIL) == form.email;
    AbsentIsDash(RequestKeys, form.Array(), 6);
  }

  /**
   * A callback that echoes the request's signed fields under their names
   * signs the request's DATA followed by the bank's six verdict fields.
   */
  lemma EchoedCallbackExtendsData(form: Form, env: map<string, string>)
    requires forall f | f in RequestKeys :: Lookup(env, f.Name()) == form.Get(f)
    ensures LengthPrefixed(ResponseKeys, env)
         == LengthPrefixed(RequestKeys, form.Array())
          + LengthPrefixed(["RESULT", "RC", "RCTEXT", "AUTHCODE", "RRN", "INT_REF"], env)
  {
    var names := Names(RequestKeys);
    LengthPrefixedAppend(names, ["RESULT", "RC", "RCTEXT", "AUTHCODE", "RRN", "INT_REF"], env);
    forall j | 0 <= j < |names| ensures Lookup(env, names[j]) == Lookup(form.Array(), RequestKeys[j]) {
      assert RequestKeys[j] in RequestKeys;
    }
    RenamedKeys(names, env, RequestKeys, form.Array());
  }

  // ---------------------------------------------------------- the callback

  /** The digest a genuine callback carries: strtoupper of the HMAC over ResponseKeys. */
  function ExpectedSignature(parameters: map<string, string>, crypto: Crypto, env: map<string, string>): string {
    ToUpper(crypto.hmacSha1Hex(LengthPrefixed(ResponseKeys, env), SigningKey(parameters, crypto)))
  }

  /** P_SIGN is present and strcmp-equal to the expected digest. */
  predicate Verified(parameters: map<string, string>, crypto: Crypto, env: map<string, string>) {
    "P_SIGN" in env && env["P_SIGN"] == ExpectedSignature(parameters, crypto, env)
  }

  /**
   * processResponse as a transition. `thisLangs` is the language list of
   * `$this->database`, None while that property is unset.
   */
  function Respond(parameters: map<string, string>, env: map<string, string>, thisLangs: Option<seq<Lang>>,
                   ctx: ResponseContext, w: World): Step
  {
    if !Verified(parameters, ctx.crypto, env) then Step(Ok(NoReply), w)
    else
      var order := Text(Param(env, "ORDER"));
      if order !in w.orders then Step(Err(ObjectNotFound), w)
      else if thisLangs.None? then Step(Err(CallOnNull), w)
      else
        var result := Param(env, "RESULT");
        Step(Ok(NoReply),
             Accept(w, order, thisLangs.value, Text(Param(env, "AUTHCODE")), ctx.convertFromGmt(""),
                    Text(result), Some(Text(Param(env, "RCTEXT"))), LooseEqualsZero(result)))
  }

  /** processResponse on the real objects. */
  method ProcessResponse(ps: PaymentSystem, thisDatabase: Database?, env: map<string, string>,
                         db: Database, ctx: ResponseContext) returns (out: Result<Reply>)
    modifies db, ps
    ensures Step(out, WorldOf(db, ps))
         == Respond(ps.parameters, env, if thisDatabase == null then None else Some(thisDatabase.languages),
                    ctx, old(WorldOf(db, ps)))
  {
    var key := Text(Config(ps.parameters, "gateway.key"));
    var s := Encode(ResponseKeys, env);
    var hmac := ToUpper(ctx.crypto.hmacSha1Hex(s, ctx.crypto.packHex(key)));
    var psign := Param(env, "P_SIGN");
    if psign.None? || hmac != psign.value {
      return Ok(NoReply);
    }
    var order := Text(Param(env, "ORDER"));
    if order !in db.orders {
      return Err(ObjectNotFound);
    }
    var resultCode := Param(env, "RESULT");
    var resultText := Text(Param(env, "RCTEXT"));
    var operationCode := Text(Param(env, "AUTHCODE"));
    // the variable passed here is still unset, so the conversion sees null
    var operationDatetime := ctx.convertFromGmt("");
    if thisDatabase == null {
      return Err(CallOnNull);
    }
    Record(db, ps, order, thisDatabase.languages, operationCode, operationDatetime,
           Text(resultCode), Some(resultText), LooseEqualsZero(resultCode));
    out := Ok(NoReply);
  }

  /** A missing or wrong P_SIGN returns silently and changes nothing, whatever the store holds. */
  lemma RejectionChangesNothing(parameters: map<string, string>, env: map<string, string>,
                                thisLangs: Option<seq<Lang>>, ctx: ResponseContext, w: World)
    requires !Verified(parameters, ctx.crypto, env)
    ensures Respond(parameters, env, thisLangs, ctx, w) == Step(Ok(NoReply), w)
  {
  }

  /**
   * A verified callback for a known order writes AUTHCODE and the date under
   * every language, upserts one record keyed by AUTHCODE whose status is
   * RESULT and description RCTEXT, and calls exactly one handler: the
   * success handler iff RESULT == 0.
   */
  lemma VerifiedCallbackRecords(parameters: map<string, string>, env: map<string, string>,
                                langs: seq<Lang>, ctx: ResponseContext, w: World)
    requires Verified(parameters, ctx.crypto, env)
    requires Text(Param(env, "ORDER")) in w.orders
    ensures var order, code := Text(Param(env, "ORDER")), Text(Param(env, "AUTHCODE"));
      var s := Respond(parameters, env, Some(langs), ctx, w);
      && s.out == Ok(NoReply)
      && s.world.operations.Keys == w.operations.Keys + {code}
      && s.world.operations[code].status == Text(Param(env, "RESULT"))
      && s.world.operations[code].description == Text(Param(env, "RCTEXT"))
      && s.world.operations[code].order == order
      && (forall c | c in w.operations && c != code :: s.world.operations[c] == w.operations[c])
      && (forall l | l in langs ::
            && AttrKey(l, CodeAttr) in s.world.orders[order] && s.world.orders[order][AttrKey(l, CodeAttr)] == code
            && AttrKey(l, DateAttr) in s.world.orders[order]
            && s.world.orders[order][AttrKey(l, DateAttr)] == ctx.convertFromGmt(""))
      && (forall o | o in w.orders && o != order :: o in s.world.orders && s.world.orders[o] == w.orders[o])
      && (forall k: AttrKey | !(k.lang in langs && (k.name == CodeAttr || k.name == DateAttr)) ::
            (k in s.world.orders[order] <==> k in w.orders[order])
            && (k in w.orders[order] ==> s.world.orders[order][k] == w.orders[order][k]))
      && s.world.notifications
         == w.notifications + [if LooseEqualsZero(Param(env, "RESULT")) then PaymentSucceeded(order)
                               else PaymentFailed(order)]
  {
    var order, code := Text(Param(env, "ORDER")), Text(Param(env, "AUTHCODE"));
    var result := Param(env, "RESULT");
    AcceptEffect(w, order, langs, code, ctx.convertFromGmt(""), Text(result), Some(Text(Param(env, "RCTEXT"))),
                 LooseEqualsZero(result));
  }

  /**
   * As the base class constructs it, the gateway never sets `$this->database`,
   * so a verified callback for a known order fails before its first write.
   */
  lemma UnsetDatabasePropertyWritesNothing(parameters: map<string, string>, env: map<string, string>,
                                           ctx: ResponseContext, w: World)
    requires Verified(parameters, ctx.crypto, env)
    requires Text(Param(env, "ORDER")) in w.orders
    ensures Respond(parameters, env, None, ctx, w) == Step(Err(CallOnNull), w)
  {
  }

  /** The signature is compared with an upper-cased digest, so one with a lower-case letter never passes. */
  lemma LowerCaseSignatureRejected(parameters: map<string, string>, crypto: Crypto, env: map<string, string>)
    requires "P_SIGN" in env && HasAsciiLower(env["P_SIGN"])
    ensures !Verified(parameters, crypto, env)
  {
    UpperHasNoLower(crypto.hmacSha1Hex(LengthPrefixed(ResponseKeys, env), SigningKey(parameters, crypto)));
  }

  /**
   * Delivering the same verified callback twice leaves one record under its
   * AUTHCODE (the table's keys do not grow), but calls the handler twice.
   */
  lemma RedeliveryKeepsOneRecord(parameters: map<string, string>, env: map<string, string>, langs: seq<Lang>,
                                 ctx1: ResponseContext, ctx2: ResponseContext, w: World)
    requires Verified(parameters, ctx1.crypto, env) && ctx2.crypto == ctx1.crypto
    requires Text(Param(env, "ORDER")) in w.orders
    ensures var s1 := Respond(parameters, env, Some(langs), ctx1, w);
      var s2 := Respond(parameters, env, Some(langs), ctx2, s1.world);
      && s2.world.operations.Keys == s1.world.operations.Keys == w.operations.Keys + {Text(Param(env, "AUTHCODE"))}
      && |s2.world.notifications| == |w.notifications| + 2
      && s2.world.notifications[|w.notifications|] == s2.world.notifications[|w.notifications| + 1]
  {
    var order, code := Text(Param(env, "ORDER")), Text(Param(env, "AUTHCODE"));
    var result := Param(env, "RESULT");
    var desc := Some(Text(Param(env, "RCTEXT")));
    var s1 := Respond(parameters, env, Some(langs), ctx1, w);
    AcceptEffect(w, order, langs, code, ctx1.convertFromGmt(""), Text(result), desc, LooseEqualsZero(result));
    AcceptEffect(s1.world, order, langs, code, ctx2.convertFromGmt(""), Text(result), desc, LooseEqualsZero(result));
  }
}
