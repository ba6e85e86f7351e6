/**
 * What a gateway callback changes: the orders' per-language attributes (held
 * by the database), and the payment system's table of payment operations
 * keyed by operation code together with the success and error handler calls.
 */
module Store {
  import opened Wrappers

  type Lang = string

  /** An order attribute as seen under one language. */
  datatype AttrKey = AttrKey(lang: Lang, name: string)

  type Attributes = map<AttrKey, string>

  const CodeAttr: string := "paymentOperationCode"
  const DateAttr: string := "paymentOperationDate"

  /** A payment-operation record as the payment system stores it. */
  datatype PaymentOperation = PaymentOperation(
    creationTime: string,
    modificationTime: string,
    code: string,
    status: string,
    description: string,
    order: string)

  /** What createPaymentOperation() hands out before the gateway fills it. */
  const FreshOperation: PaymentOperation := PaymentOperation("", "", "", "", "", "")

  /** A call of the payment system's onPaymentSuccess or onPaymentError. */
  datatype Notification = PaymentSucceeded(order: string) | PaymentFailed(order: string)

  /** Everything a callback can change, as one value. */
  datatype World = World(
    orders: map<string, Attributes>,
    operations: map<string, PaymentOperation>,
    notifications: seq<Notification>)

  // ------------------------------------------------------ the fan-out write

  /** The attributes after the code and the date were set under each language of `langs`. */
  function FanOut(attrs: Attributes, langs: seq<Lang>, code: string, date: string): Attributes
  {
    if langs == [] then attrs
    else
      var l := langs[|langs| - 1];
      FanOut(attrs, langs[..|langs| - 1], code, date)[AttrKey(l, CodeAttr) := code][AttrKey(l, DateAttr) := date]
  }

  /**
   * Under every language of `langs` the order holds the same code and the
   * same date; every other attribute is as it was.
   */
  lemma {:induction false} FanOutAt(attrs: Attributes, langs: seq<Lang>, code: string, date: string, k: AttrKey)
    ensures var r := FanOut(attrs, langs, code, date);
      && (k.lang in langs && k.name == CodeAttr ==> k in r && r[k] == code)
      && (k.lang in langs && k.name == DateAttr ==> k in r && r[k] == date)
      && (!(k.lang in langs && (k.name == CodeAttr || k.name == DateAttr)) ==>
            (k in r <==> k in attrs) && (k in attrs ==> r[k] == attrs[k]))
    decreases |langs|
  {
    if langs != [] {
      var init := langs[..|langs| - 1];
      assert langs == init + [langs[|langs| - 1]];
      assert k.lang in langs <==> k.lang in init || k.lang == langs[|langs| - 1];
      assert CodeAttr != DateAttr by { assert CodeAttr[16] != DateAttr[16]; }
      FanOutAt(attrs, init, code, date, k);
    }
  }

  /** Writing the same code and date a second time changes nothing. */
  lemma FanOutIdempotent(attrs: Attributes, langs: seq<Lang>, code: string, date: string)
    ensures FanOut(FanOut(attrs, langs, code, date), langs, code, date) == FanOut(attrs, langs, code, date)
  {
    var once := FanOut(attrs, langs, code, date);
    var twice := FanOut(once, langs, code, date);
    forall k: AttrKey ensures (k in twice <==> k in once) && (k in once ==> twice[k] == once[k]) {
      FanOutAt(attrs, langs, code, date, k);
      FanOutAt(once, langs, code, date, k);
    }
  }

  // ----------------------------------------------- the operation-code table

  /**
   * hasPaymentOperationByCode ? getPaymentOperationByCode : create, then
   * the field assignments and post(). `description` is None when the
   * gateway leaves that field alone.
   */
  function Upsert(ops: map<string, PaymentOperation>, code: string, date: string, status: string,
                  description: Option<string>, order: string): (r: map<string, PaymentOperation>)
    ensures r.Keys == ops.Keys + {code}
    ensures forall c | c in ops && c != code :: r[c] == ops[c]
    ensures r[code].code == code && r[code].status == status && r[code].order == order
    ensures r[code].creationTime == date && r[code].modificationTime == date
    ensures r[code].description ==
      if description.Some? then description.value
      else if code in ops then ops[code].description else FreshOperation.description
  {
    var base := if code in ops then ops[code] else FreshOperation;
    var desc := if description.Some? then description.value else base.description;
    ops[code := base.(creationTime := date, modificationTime := date, code := code,
                      status := status, description := desc, order := order)]
  }

  /**
   * A second post under the same code updates the one record in place:
   * the table has the same keys as after the first, and the record is the
   * one a single post of the second values would give.
   */
  lemma UpsertSameCode(ops: map<string, PaymentOperation>, code: string,
                       date1: string, status1: string, desc1: Option<string>, order1: string,
                       date2: string, status2: string, desc2: Option<string>, order2: string)
    requires desc1.Some? ==> desc2.Some?
    ensures var first := Upsert(ops, code, date1, status1, desc1, order1);
      && Upsert(first, code, date2, status2, desc2, order2).Keys == first.Keys
      && Upsert(first, code, date2, status2, desc2, order2) == Upsert(ops, code, date2, status2, desc2, order2)
  {
  }

  // -------------------------------------------------------- a whole record

  /** A verified callback's effect: fan-out write, one upsert, one handler call. */
  function Accept(w: World, order: string, langs: seq<Lang>, code: string, date: string,
                  status: string, description: Option<string>, success: bool): World
    requires order in w.orders
  {
    World(w.orders[order := FanOut(w.orders[order], langs, code, date)],
          Upsert(w.operations, code, date, status, description, order),
          w.notifications + [if success then PaymentSucceeded(order) else PaymentFailed(order)])
  }

  /**
   * What Accept promises, spelled out: the one order gains the code and the
   * date under every listed language and keeps every other attribute, the
   * other orders and the records under other codes stay as they were, and
   * exactly one notification is appended.
   */
  lemma AcceptEffect(w: World, order: string, langs: seq<Lang>, code: string, date: string,
                     status: string, description: Option<string>, success: bool)
    requires order in w.orders
    ensures var w' := Accept(w, order, langs, code, date, status, description, success);
      && w'.orders.Keys == w.orders.Keys
      && (forall o | o in w.orders && o != order :: w'.orders[o] == w.orders[o])
      && (forall l | l in langs ::
            && AttrKey(l, CodeAttr) in w'.orders[order] && w'.orders[order][AttrKey(l, CodeAttr)] == code
            && AttrKey(l, DateAttr) in w'.orders[order] && w'.orders[order][AttrKey(l, DateAttr)] == date)
      && (forall k: AttrKey | !(k.lang in langs && (k.name == CodeAttr || k.name == DateAttr)) ::
            (k in w'.orders[order] <==> k in w.orders[order])
            && (k in w.orders[order] ==> w'.orders[order][k] == w.orders[order][k]))
      && w'.operations.Keys == w.operations.Keys + {code}
      && (forall c | c in w.operations && c != code :: w'.operations[c] == w.operations[c])
      && w'.operations[code].status == status && w'.operations[code].order == order
      && |w'.notifications| == |w.notifications| + 1
      && w'.notifications[..|w.notifications|] == w.notifications
      && w'.notifications[|w.notifications|] == (if success then PaymentSucceeded(order) else PaymentFailed(order))
  {
    var attrs := w.orders[order];
    forall l | l in langs
      ensures && AttrKey(l, CodeAttr) in FanOut(attrs, langs, code, date)
              && FanOut(attrs, langs, code, date)[AttrKey(l, CodeAttr)] == code
              && AttrKey(l, DateAttr) in FanOut(attrs, langs, code, date)
              && FanOut(attrs, langs, code, date)[AttrKey(l, DateAttr)] == date
    {
      FanOutAt(attrs, langs, code, date, AttrKey(l, CodeAttr));
      FanOutAt(attrs, langs, code, date, AttrKey(l, DateAttr));
    }
    forall k: AttrKey | !(k.lang in langs && (k.name == CodeAttr || k.name == DateAttr))
      ensures (k in FanOut(attrs, langs, code, date) <==> k in attrs)
              && (k in attrs ==> FanOut(attrs, langs, code, date)[k] == attrs[k])
    {
      FanOutAt(attrs, langs, code, date, k);
    }
  }

  // ------------------------------------------------------- mutable objects

  /** The database the callback receives: orders by id and its language list. */
  class Database {
    var orders: map<string, Attributes>
    const languages: seq<Lang>

    constructor (orders: map<string, Attributes>, languages: seq<Lang>)
      ensures this.orders == orders && this.languages == languages
    {
      this.orders := orders;
      this.languages := languages;
    }

    /**
     * eachLanguage(function() { setAttributeValue(code); setAttributeValue(date); })
     * on one order.
     */
    method SetOperationAttributes(order: string, langs: seq<Lang>, code: string, date: string)
      requires order in orders
      modifies this
      ensures orders == old(orders)[order := FanOut(old(orders)[order], langs, code, date)]
    {
      ghost var start := orders[order];
      for i := 0 to |langs|
        invariant order in orders
        invariant orders == old(orders)[order := FanOut(start, langs[..i], code, date)]
      {
        assert langs[..i + 1][..i] == langs[..i] && langs[..i + 1][i] == langs[i];
        var attrs := orders[order];
        attrs := attrs[AttrKey(langs[i], CodeAttr) := code];
        attrs := attrs[AttrKey(langs[i], DateAttr) := date];
        orders := orders[order := attrs];
      }
      assert langs[..|langs|] == langs;
    }
  }

  /** The payment system: configuration, the operation table and the handlers. */
  class PaymentSystem {
    /** getParameterByName(name)->value for every configured name. */
    const parameters: map<string, string>
    var operations: map<string, PaymentOperation>
    var notifications: seq<Notification>

    constructor (parameters: map<string, string>, operations: map<string, PaymentOperation>)
      ensures this.parameters == parameters && this.operations == operations && notifications == []
    {
      this.parameters := parameters;
      this.operations := operations;
      notifications := [];
    }

    /** Fetch or create the record for `code`, fill it and post it. */
    method PostOperation(code: string, date: string, status: string, description: Option<string>, order: string)
      modifies this
      ensures operations == Upsert(old(operations), code, date, status, description, order)
      ensures notifications == old(notifications)
    {
      var op := if code in operations then operations[code] else FreshOperation;
      op := op.(creationTime := date);
      op := op.(modificationTime := date);
      op := op.(code := code);
      op := op.(status := status);
      if description.Some? {
        op := op.(description := description.value);
      }
      op := op.(order := order);
      operations := operations[code := op];
    }

    method OnPaymentSuccess(order: string)
      modifies this
      ensures notifications == old(notifications) + [PaymentSucceeded(order)]
      ensures operations == old(operations)
    {
      notifications := notifications + [PaymentSucceeded(order)];
    }

    method OnPaymentError(order: string)
      modifies this
      ensures notifications == old(notifications) + [PaymentFailed(order)]
      ensures operations == old(operations)
    {
      notifications := notifications + [PaymentFailed(order)];
    }
  }

  function WorldOf(db: Database, ps: PaymentSystem): World
    reads db, ps
  {
    World(db.orders, ps.operations, ps.notifications)
  }

  /** The shared tail of every processResponse once the order is in hand. */
  method Record(db: Database, ps: PaymentSystem, order: string, langs: seq<Lang>, code: string, date: string,
                status: string, description: Option<string>, success: bool)
    requires order in db.orders
    modifies db, ps
    ensures WorldOf(db, ps) == Accept(old(WorldOf(db, ps)), order, langs, code, date, status, description, success)
  {
    db.SetOperationAttributes(order, langs, code, date);
    ps.PostOperation(code, date, status, description, order);
    if success {
      ps.OnPaymentSuccess(order);
    } else {
      ps.OnPaymentError(order);
    }
  }
}
