# Payment gateway signing and callback protocol, in Dafny

This project models the part of an e-commerce order system that talks to three
external payment gateways. For each gateway it models two things:

- how the outbound request that sends the customer to the gateway is built and signed;
- how the gateway's callback is checked and turned into a change to the order
  and the payment-operation table.

The three gateways are:

- **the bank acquiring gateway** (`psbank.php`). It signs with HMAC-SHA1, under
  the hex-decoded `gateway.key` parameter, over a length-prefixed canonical
  string of 11 request fields or 17 callback fields. A callback with a bad signature is
  ignored silently. The callback's `RESULT` decides between the success
  handler and the error handler.
- **the e-wallet** (`qiwi.php`). Before the redirect it creates a bill with a
  PUT request. Its callback is signed with base64 of HMAC-SHA1 over nine
  parameters joined by `|`, and the signature arrives in the
  `X-Api-Signature` header. It answers with a fixed XML document.
- **the payment aggregator** (`robokassa.php`). The redirect's signature is
  the MD5 of colon-joined fields whose fourth field is the first password.
  The callback's is the MD5 of other colon-joined fields whose third field is
  the second password. The signature a callback carries is compared with
  the expected one without regard to case. Every verified callback is a
  success, and the reply is `OK<InvId>` as plain text.

The abstract base class (`gateway.php`) provides:

- the constructor that stores the payment system;
- the identity currency translation;
- the four operations every gateway implements.

All of this is one class, `Gateways.Gateway`, that dispatches on its kind.

## Layout

| file | module | contents |
|---|---|---|
| `wrappers.dfy` | `Wrappers` | `Option`, with `None` for PHP's null |
| `php_strings.dfy` | `PhpStrings` | these PHP string operations: `strlen` (UTF-8 bytes), integer-to-string, `sprintf("%0Ns")`, `sprintf("%X")`, `implode`/`explode`, `strtoupper`, `strcasecmp`, PHP 8 `== 0` and `== null` |
| `primitives.dfy` | `Primitives` | HMAC-SHA1, MD5, base64 and `pack('H*')` as uninterpreted function values |
| `canonical.dfy` | `Canonical` | the length-prefixed canonical string and the loop that builds it |
| `store.dfy` | `Store` | see below |
| `gateway_base.dfy` | `GatewayBase` | what the gateways share: configuration and parameter reads, order snapshot, the outside inputs (clock, randomness, host, library calls), failures, replies |
| `psbank.dfy` | `Psbank` | the bank gateway |
| `qiwi.dfy` | `Qiwi` | the e-wallet gateway |
| `robokassa.dfy` | `Robokassa` | the aggregator gateway |
| `gateways.dfy` | `Gateways` | the gateway class: constructor, translation, four operations |

`store.dfy` holds what a callback changes. There are two classes:

- `Database`, which holds the orders' per-language attributes;
- `PaymentSystem`, which holds its configuration, the operation table keyed
  by code, and the handler calls.

The module also defines a value `World` that gathers all the state these two
classes hold.

Each `processResponse` is written twice:

- as a function `Respond` from the old `World` to a `Step`, which is the
  outcome plus the new `World`;
- as a method `ProcessResponse` on the objects, which follows the source
  statement by statement.

The method's postcondition is that its outcome and new state are what
`Respond` gives. The lemmas about `Respond` state the protocol's properties:

- a rejected callback changes nothing;
- a verified one performs exactly one upsert and one handler call;
- redelivery behaves as described in the lemmas below.

## Model

| member | source | states |
|---|---|---|
| PhpStrings.ByteLength | psbank.php:71-72 | strlen counts bytes: never fewer than the characters, and zero only for the empty string |
| PhpStrings.ByteLengthAppend | psbank.php:72 | strlen of a concatenation is the sum of the two strlens |
| PhpStrings.Decimal | psbank.php:72 | an integer used as a string is a non-empty run of digits with a leading '0' only for zero |
| PhpStrings.DecimalRoundTrip | psbank.php:72 | reading the decimal text back gives the number, so the length prefix determines the length |
| PhpStrings.PadLeft | psbank.php:41 | sprintf("%0Ns"): the result is max(N, strlen) bytes, ends with the input, and everything before the input is '0' |
| PhpStrings.UpperHex | psbank.php:66 | sprintf("%X"): non-empty upper-case hex digits, a leading '0' only for zero |
| PhpStrings.UpperHexRoundTrip | psbank.php:66 | reading the hex text back gives the number |
| PhpStrings.FourHexDigits | psbank.php:66 | every number from 0x1000 to 0xFFFF prints as exactly four hex digits |
| PhpStrings.ExplodeImplode | qiwi.php:168 | when no part contains the separator, splitting the join gives back exactly the parts, empty ones included |
| PhpStrings.ImplodeInjective | qiwi.php:168 | two separator-free part lists with the same join are equal |
| PhpStrings.ToUpper | psbank.php:97 | strtoupper keeps the length and upper-cases each ASCII letter in place |
| PhpStrings.UpperHasNoLower | psbank.php:97 | strtoupper never leaves a lower-case ASCII letter |
| PhpStrings.CaseEqualsUpper | robokassa.php:122 | strcasecmp sees an upper-cased string as equal to the original |
| PhpStrings.ZeroTextIsZero | psbank.php:145 | "0" is a numeric string whose value is zero |
| PhpStrings.LooseEqualsZeroAccepts | psbank.php:145 | null, "0" and " 0" are loosely equal to 0 |
| PhpStrings.LooseEqualsZeroFraction | psbank.php:145 | "0.0" is loosely equal to 0 |
| PhpStrings.LooseEqualsZeroRejects | psbank.php:145 | "1", "2", "3", "" and "paid" are not loosely equal to 0 (PHP 8) |
| PhpStrings.DecimalLooseEqualsZero | psbank.php:145 | for every integer n, its decimal text is loosely equal to 0 exactly when n is 0 |
| Canonical.Lookup | psbank.php:71 | an array read is present exactly when the key is set, and then it is the stored value |
| Canonical.SegmentCases | psbank.php:71-74 | a key contributes "-" exactly when its value is absent or empty; otherwise the decimal byte length and then the value, starting with a digit 1-9 |
| Canonical.Encode | psbank.php:70-74 | the signing loop returns the canonical string of the values under the keys, in key order |
| Canonical.LengthPrefixedAppend | psbank.php:70-74 | encoding a concatenated key list concatenates the two encodings |
| Canonical.LengthPrefixedSnoc | psbank.php:70-74 | one more key appends exactly its own segment |
| Canonical.LengthPrefixedAt | psbank.php:70-74 | key i contributes its segment at the position fixed by the keys before it |
| Canonical.AbsentIsDash | psbank.php:71-74 | an absent or empty value is one "-", the segments around it are unchanged, and removing the key gives the same string |
| Canonical.SegmentsDecide | psbank.php:70-74 | the encoding depends on the array only through the segments of the listed keys |
| Canonical.OtherKeysIgnored | psbank.php:35 | setting or unsetting a key outside the list leaves the canonical string unchanged |
| Canonical.LengthPrefixedLength | psbank.php:70-74 | every key contributes at least one character |
| Canonical.RenamedKeys | psbank.php:91-95 | two key lists that read the same values position by position encode the same |
| Canonical.DashesForAbsent | psbank.php:71-74 | keys none of which is set encode as one "-" each |
| Store.FanOutAt | psbank.php:129-132 | after the per-language write, every listed language holds the code and the date, and every other attribute is unchanged |
| Store.FanOutIdempotent | psbank.php:129-132 | writing the same code and date again changes nothing |
| Store.Upsert | psbank.php:135-142 | the table gains at most the one code, other records are untouched, and the record carries the code, status, order and date; its description is the new one when given, else the record's old one |
| Store.UpsertSameCode | psbank.php:135 | a second post under the same code replaces the one record and adds no key |
| Store.AcceptEffect | psbank.php:129-148 | a recorded callback writes the code and the date under every listed language of the one order and keeps every other attribute of it; the other orders are unchanged; the table gains the one code, with the status and the order, and every record under another code is unchanged; exactly one notification is appended |
| Store.Database.SetOperationAttributes | psbank.php:129-132 | the eachLanguage loop leaves the orders with the one order fanned out and every other order as it was |
| Store.PaymentSystem.PostOperation | psbank.php:135-142 | fetch-or-create, fill and post gives the upserted table; the notifications are unchanged |
| Store.PaymentSystem.OnPaymentSuccess | psbank.php:146 | appends one success notification for the order and leaves the table |
| Store.PaymentSystem.OnPaymentError | psbank.php:148 | appends one error notification for the order and leaves the table |
| Store.Record | psbank.php:129-148 | the shared tail of every callback: the fan-out write, the post and one handler call, as one state change |
| GatewayBase.TranslateCurrency | gateway.php:44-47 | the default translation returns its argument unchanged |
| GatewayBase.Text | qiwi.php:147-157 | null used as a string is "", and any other value is itself |
| Psbank.TranslateCurrency | psbank.php:16-23 | "RUR" becomes "RUB" and every other code is returned unchanged |
| Psbank.TranslateCurrencyIdempotent | psbank.php:16-23 | the translation never yields "RUR", so applying it twice is applying it once |
| Psbank.Form.Array | psbank.php:39-67 | the parameters array holds each field exactly when the form has it set, with its value |
| Psbank.Nonce | psbank.php:66 | NONCE is sixteen upper-case hex digits whose four 4-digit chunks read back as the four draws |
| Psbank.GenerateRequestParameters | psbank.php:32-80 | every field of the form as the source fills it (TRTYPE is "1", ORDER padded to six, EMAIL only when the owner has one); DATA is the canonical string of the 11 signed fields of the finished form; P_SIGN is HMAC-SHA1 of DATA under the hex-decoded key |
| Psbank.Sign | psbank.php:70-77 | only DATA and P_SIGN change; DATA is the canonical string both of the form before and of the form after; P_SIGN is the HMAC of DATA |
| Psbank.SignedFieldsDecide | psbank.php:35 | two forms that agree on the 11 signed fields have the same canonical string |
| Psbank.UnsignedFieldsIgnored | psbank.php:35-43 | DESC, DATA and P_SIGN do not affect the canonical string, so they affect neither DATA nor P_SIGN |
| Psbank.MissingEmailIsDash | psbank.php:53-74 | an order without an owner e-mail has a single "-" in EMAIL's slot, and the fields before and after it keep their segments |
| Psbank.EchoedCallbackExtendsData | psbank.php:85-95 | a callback that echoes the request's signed fields signs the request's DATA followed by the six verdict fields |
| Psbank.ProcessResponse | psbank.php:82-150 | the callback on the objects has exactly the outcome and state change of the transition Respond |
| Psbank.RejectionChangesNothing | psbank.php:97-101 | a missing P_SIGN, or one that differs from the upper-cased HMAC over the 17 response keys, returns with nothing changed |
| Psbank.VerifiedCallbackRecords | psbank.php:120-149 | a verified callback for a known order writes AUTHCODE and the date under every language, upserts one record keyed by AUTHCODE with status RESULT and description RCTEXT, leaves the other records, the other orders and the order's other attributes unchanged, and appends one handler call, which is the success handler iff RESULT == 0 |
| Psbank.UnsetDatabasePropertyWritesNothing | psbank.php:129 | with `$this->database` unset, a verified callback for a known order fails before its first write |
| Psbank.LowerCaseSignatureRejected | psbank.php:97-101 | a P_SIGN containing a lower-case letter never passes, because the digest is compared upper-cased |
| Psbank.RedeliveryKeepsOneRecord | psbank.php:135-148 | delivering one verified callback twice leaves one record under AUTHCODE but calls the same handler twice |
| Qiwi.Bill | qiwi.php:41-105 | the bill is a PUT with the two headers and basic-auth credentials "id:password"; its URL is base + shop id + "/bills/" + the order id padded to five; its fields are user "tel:" + phone, amount, ccy, comment and lifetime, in that order |
| Qiwi.BillCurrencyIsOrderCurrency | qiwi.php:82 | the wallet does not translate currencies, so ccy is the order's own code |
| Qiwi.GenerateRequestParameters | qiwi.php:114-134 | creates the bill, then the form: shop id, transaction = order id padded to five, success URL on the root host, and failure URL = success URL + "&page.content.order.payment.error=1" |
| Qiwi.TransactionMatchesBill | qiwi.php:120-127 | the transaction has at least five bytes, ends with the order id, is padded only with '0', and is the id the bill's URL ends with |
| Qiwi.SignedValues | qiwi.php:147-157 | the nine signed values are amount, bill_id, ccy, command, comment, error, prv_name, status and user, in that order, with null as "" |
| Qiwi.ProcessResponse | qiwi.php:144-225 | the callback on the objects has exactly the outcome and state change of the transition Respond |
| Qiwi.MissingHeaderFailsFirst | qiwi.php:163-165 | without the X-Api-Signature header the callback fails with nothing changed, whatever else holds |
| Qiwi.WrongSignatureChangesNothing | qiwi.php:169-173 | a header that differs in any way (case included) from base64(HMAC-SHA1) fails with nothing changed |
| Qiwi.VerifiedCallbackRecords | qiwi.php:188-224 | a verified callback for a known bill replies with the fixed XML as text/xml; it writes the new code and time under every language, records status 0 iff status is "paid" (else 1), leaves the other records, the other orders and the order's other attributes unchanged, and appends the success handler iff "paid", otherwise the error handler |
| Qiwi.RedeliveryAddsSecondRecord | qiwi.php:190-212 | redelivered with another uniqid suffix, one callback posts two distinct records |
| Qiwi.SignedStringSplits | qiwi.php:168 | when no value contains the pipe character, splitting the signed string gives back the nine values in order |
| Qiwi.SignedStringInjective | qiwi.php:147-168 | for values without the pipe character, two callbacks sign the same string iff they agree on all nine signed parameters slot by slot |
| Qiwi.UnsignedParamsIgnored | qiwi.php:147-157 | a parameter outside the nine does not change the signed string |
| Robokassa.RoubleSumCases | robokassa.php:57-71 | a rouble order keeps its sum; any other currency fails with the missing-source error exactly when no exchange-rate source is set |
| Robokassa.GenerateRequestParameters | robokassa.php:41-90 | a missing or empty login or first password fails first; then a missing exchange-rate source fails; otherwise the form is filled and SignatureValue is MD5 of login:sum:invId:firstPassword:Shp_marketName=market, built from the very values in the form, with InvId padded to five |
| Robokassa.InterpolationIsImplode | robokassa.php:85-87 | the interpolated signature string is the colon-join of its five parts |
| Robokassa.ProcessResponse | robokassa.php:100-166 | the callback on the objects has exactly the outcome and state change of the transition Respond |
| Robokassa.RejectionChangesNothing | robokassa.php:122-123 | a signature that does not match fails before the order lookup, with nothing changed |
| Robokassa.VerifiedCallbackSucceeds | robokassa.php:135-165 | a verified callback for a known order records status "Ok" under the new code, writes code and time under every language, leaves the other records, the other orders and the order's other attributes unchanged, appends a success notification, and replies "OK" + InvId + newline as text/plain |
| Robokassa.NeverPaymentFailed | robokassa.php:162 | no callback ever adds an error notification, and none adds more than one notification |
| Robokassa.UpperCaseSignatureAccepted | robokassa.php:122 | the comparison ignores case, so the digest sent upper-cased is accepted |
| Robokassa.FirstPasswordIrrelevant | robokassa.php:103-116 | the callback never reads the first password: changing it changes no outcome |
| Robokassa.CallbackPartsSplit | robokassa.php:111-119 | the callback's signed string splits back into OutSum, InvId, the second password and the market part, with the second password third |
| Gateways.Gateway.constructor | gateway.php:16-20 | the constructor stores the payment system and sets nothing else |
| Gateways.Gateway.TranslateCurrency | gateway.php:44-47 | the identity for the wallet and the aggregator; the bank's RUR to RUB |
| Gateways.Gateway.GetRequestUrl | psbank.php:6-9 | the configured 'query.url', null when it is not configured |
| Gateways.Gateway.GetRequestType | psbank.php:11-14 | the configured 'query.type', null when it is not configured |
| Gateways.Gateway.GenerateRequestParameters | gateway.php:36 | each kind produces its own form with its own guarantees. The bank's form always succeeds: ORDER is padded to six, the currency is translated, TRTYPE is "1", the NONCE is built from the draws, DATA is the canonical string of the form, and P_SIGN is DATA's HMAC. The wallet always succeeds: its bill, the shop id, the transaction padded to five, and the failure URL equal to the success URL plus the error flag. The aggregator fails exactly when a credential is missing or the sum cannot be converted, with one of those two failures; otherwise InvId is padded to five and SignatureValue is the MD5 of its form's own values |
| Gateways.Gateway.ProcessResponse | gateway.php:55 | each kind's callback has its own module's transition as outcome and state change |
| Gateways.FreshBankGatewayCallback | psbank.php:129 | a freshly constructed bank gateway fails every verified callback for a known order, with nothing changed |

## Source behaviour kept as written

These look unintended but are modelled as the code behaves:

- psbank.php:126 passes `$operationDatetime` to `convertFromGMT` before that
  variable is assigned. The conversion therefore sees null, which is read as
  "". The model stores `convertFromGmt("")` as the date.
- psbank.php:129 calls `$this->database`, not the `$database` parameter. No
  class declares or assigns that property, so it is null. A verified
  callback for a known order therefore fails with a call on null. It fails
  after the lookup and before any write. See
  `Psbank.UnsetDatabasePropertyWritesNothing` and
  `Gateways.FreshBankGatewayCallback`. `Psbank.Respond` takes the
  property's language list as an option, so the writing path is modelled as
  well.
- psbank.php:101 rejects a bad signature with a silent `return`, not an
  exception. `Psbank.Respond` replies `Ok(NoReply)` with the state unchanged.
- qiwi.php:80 reads `$customerPhone`, which is unset when the customer has
  no phone attribute. The bill's user is then `"tel:"` alone.
- The bank signs its outbound request with lower-case hex (psbank.php:77).
  It compares the callback's P_SIGN against an upper-cased digest
  (psbank.php:97). A lower-case callback signature never passes:
  `Psbank.LowerCaseSignatureRejected`.
- qiwi.php:183 and robokassa.php:130 catch `exception`. Inside the
  `paymentGateway` namespace that name means the wallet's own exception
  class, not the database's. So a lookup of an unknown order passes on the
  database's exception (`OrderLookupFailed`), and the gateways' "The
  requested order is not found" message is never raised.
- The wallet and the aggregator take the operation code from `uniqid`. A
  redelivered callback therefore creates a second record
  (`Qiwi.RedeliveryAddsSecondRecord`). The bank keys the record by AUTHCODE
  and keeps one (`Psbank.RedeliveryKeepsOneRecord`).

## Left out

- HTTP transport: the bill's curl PUT (qiwi.php:91-104) is modelled as the
  `BillRequest` value it would send. `http_build_query`'s URL-encoding of the
  fields is not modelled. `$_SERVER['HTTP_HOST']`, the root host name and the
  X-Api-Signature header are inputs.
- Hash and encoding internals: HMAC-SHA1, MD5, base64 and `pack('H*')` are
  uninterpreted function values. The model proves which string is hashed
  under which key and how the digest is compared, and nothing cryptographic.
- Time: `gmdate`, `new DateTime('NOW')`, the bill's lifetime arithmetic and
  the bank's `convertFromGMT` are given strings or functions, because they
  read the clock and the time zone.
- Randomness: the four `rand(4096, 39321)` draws and the `uniqid` suffix are
  inputs. Only the draws' range is constrained.
- Amounts: `getTotalSum()` is an already formatted string, and
  `exchangeRatesSource->convertValue` is an uninterpreted function. PHP's
  float-to-string formatting is not modelled.
- `str::liteFormat` is an uninterpreted function of the template and the
  site name.
- The ORM is reduced to a map from order id to per-language attributes, a
  language list, and an operation table keyed by code. The calls reduced
  this way are `getOrderById`, `eachLanguage`, `setAttributeValue`, `post()`
  and the special-role attribute lookups. The owner's e-mail and the
  customer's phone are optional fields of the order snapshot.
- An unknown order id is modelled as `getOrderById` throwing. psbank.php:120
  also tests for a null order. That test is reached only if `getOrderById`
  returns null, which this model does not represent.
- The forms are records with one field per array key. PHP's insertion order
  of the keys is not modelled. The signature never depends on that order,
  since each gateway signs a fixed key list.
- The `$env` argument of generateRequestParameters is used only by the
  wallet, for the root host name. It is an input there and omitted for the
  other two gateways.
- Callback parameters: `$env->getParameter(name)->getValue()` is modelled as
  null for a parameter the callback lacks. The source guards one read with
  `hasParameter` (psbank.php:92) and tests one for `=== null`
  (psbank.php:101), but reads the others unguarded. If `getParameter`
  returned null instead, a callback lacking P_SIGN, SignatureValue or one of
  the wallet's nine parameters would fail with a call on null. The model
  does not represent that failure.
- psbank.php:44 and psbank.php:50 store null in TERMINAL and MERCHANT when
  they are not configured. The model's form stores "" there. DATA is the same
  either way, since an empty value and a null value both give "-".
- Null callback values written to the store: the values a verified callback
  writes are read as strings, with null read as "". These are AUTHCODE,
  RESULT and RCTEXT in the bank gateway (psbank.php:123-125), `bill_id` in the
  wallet (qiwi.php:176) and `InvId` in the aggregator (robokassa.php:108). So
  a callback that lacks one of them gets "" in the operation record and the
  order attributes. The source would store null: a record under the code
  null and a status or description null. The model's record fields are
  plain strings, so it does not tell these two cases apart. Every lookup,
  comparison and branch is still modelled with null kept distinct where the
  source tests it (P_SIGN, RESULT == 0, the header).
- Byte strings: PHP strings are byte strings, and the model's strings are
  sequences of Unicode characters whose byte length is the UTF-8 encoding's.
  A PHP string that is not valid UTF-8 cannot be represented.
- qiwi.php:82 casts the translated currency with `(string)`. The value is
  already a string, so the cast has no effect in the model.
- The loose comparisons are PHP 8's. PHP 7 compared `"paid" == 0` and
  `"" == 0` as true. Numeric strings whose exponent is so small that the
  float underflows to zero (such as "1e-400") are not treated as zero.
- Timing: every signature comparison is modelled as string equality. Whether it
  runs in constant time is not modelled, and the source's `strcmp` makes no
  such promise.
