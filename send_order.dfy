/** `SendOrderTask`: the background task that exports a storefront order to
    TradeMaster. An order that already has an `external_id` is not sent
    again; otherwise the order's products that TradeMaster knows become line
    items, the order is posted to the anonymous-cart endpoint, and the ERP
    order number, when one comes back, is stored on the order.

    The order repository lookup is the `Order?` argument; the product
    repository is a list; `json_encode`, the transport and `json_decode` are
    parameters. */
module SendOrder {
  import opened Php
  import opened Catalog
  import Gateway

  /** The settings the export reads. */
  datatype Settings = Settings(
    storage: Value,
    legal: Value,
    checkout: Value,
    contractor: Value,
    scheme: Value,
    currency: Value,
    userId: Value,
    mailTemplate: string)

  /** The client mail task: its recipient. */
  datatype Mail = Mail(to: Value)

  /** A storefront order. `list` maps product uuids to quantities (integer
      stand-ins for PHP floats); `shipping` is the shipping date already
      formatted as 'Y-m-d H:i:s'; `externalId` is null until TradeMaster has
      the order. */
  class Order {
    const uuid: Uuid
    const list: seq<(Uuid, int)>
    const delivery: Value
    const phone: Value
    const email: Value
    const shipping: string
    const comment: Value
    var externalId: Value

    constructor (uuid: Uuid, list: seq<(Uuid, int)>, delivery: Value, phone: Value, email: Value,
                 shipping: string, comment: Value, externalId: Value)
      ensures this.uuid == uuid && this.list == list && this.delivery == delivery
      ensures this.phone == phone && this.email == email && this.shipping == shipping
      ensures this.comment == comment && this.externalId == externalId
    {
      this.uuid := uuid;
      this.list := list;
      this.delivery := delivery;
      this.phone := phone;
      this.email := email;
      this.shipping := shipping;
      this.comment := comment;
      this.externalId := externalId;
    }
  }

  // ============================================================ line items

  predicate Listed(list: seq<(Uuid, int)>, u: Uuid) {
    exists i :: 0 <= i < |list| && list[i].0 == u
  }

  /** `$order->list[$uuid]`: the first entry for the uuid; 0 when there is
      none, which the repository query rules out. */
  function Quantity(list: seq<(Uuid, int)>, u: Uuid): (q: int)
    ensures Listed(list, u) ==> exists i :: 0 <= i < |list| && list[i] == (u, q)
  {
    if list == [] then 0
    else if list[0].0 == u then list[0].1
    else
      var q := Quantity(list[1..], u);
      assert Listed(list, u) ==> Listed(list[1..], u) by {
        if Listed(list, u) {
          var i :| 0 <= i < |list| && list[i].0 == u;
          assert list[1..][i - 1].0 == u;
        }
      }
      assert Listed(list, u) ==> exists i :: 1 <= i < |list| && list[i] == (u, q) by {
        if Listed(list, u) {
          var i :| 0 <= i < |list[1..]| && list[1..][i] == (u, q);
          assert list[i + 1] == (u, q);
        }
      }
      q
  }

  /** `productRepository->findBy(['uuid' => array_keys($order->list)])`:
      the repository's products whose uuid is on the order, in repository
      order. */
  function FindBy(repo: seq<Product>, list: seq<(Uuid, int)>): (r: seq<Product>)
    ensures |r| <= |repo|
    ensures forall k :: 0 <= k < |r| ==> r[k] in repo && Listed(list, r[k].uuid)
    ensures forall p :: p in repo && Listed(list, p.uuid) ==> p in r
  {
    if repo == [] then []
    else
      var rest := FindBy(repo[1..], list);
      if Listed(list, repo[0].uuid) then [repo[0]] + rest else rest
  }

  /** A product is sent only with its TradeMaster id (line 53). */
  predicate Exported(p: Product) {
    StrTruthy(p.data.externalId)
  }

  /** The line item for one exported product (lines 54-60). */
  function LineFor(p: Product, list: seq<(Uuid, int)>): (line: LineItem)
    ensures line.id == p.data.externalId && line.name == p.data.title
    ensures line.quantity == Quantity(list, p.uuid)
    ensures line.price == p.data.price * Quantity(list, p.uuid)
  {
    LineItem(p.data.externalId, p.data.title, Quantity(list, p.uuid), p.data.price * Quantity(list, p.uuid))
  }

  /** The `$products` list after the loop over `found`. */
  function Lines(found: seq<Product>, list: seq<(Uuid, int)>): seq<LineItem> {
    if found == [] then []
    else
      var last := found[|found| - 1];
      Lines(found[..|found| - 1], list) + (if Exported(last) then [LineFor(last, list)] else [])
  }

  /** Every line is the line of an exported product, and every exported
      product has its line. */
  lemma {:induction false} LinesExact(found: seq<Product>, list: seq<(Uuid, int)>)
    ensures forall k :: 0 <= k < |Lines(found, list)| ==>
      exists i :: 0 <= i < |found| && Exported(found[i]) && Lines(found, list)[k] == LineFor(found[i], list)
    ensures forall i :: 0 <= i < |found| && Exported(found[i]) ==> LineFor(found[i], list) in Lines(found, list)
  {
    if found != [] {
      var front := found[..|found| - 1];
      var last := found[|found| - 1];
      LinesExact(front, list);
      var r := Lines(found, list);
      var rf := Lines(front, list);
      assert r == rf + (if Exported(last) then [LineFor(last, list)] else []);
      forall k | 0 <= k < |r|
        ensures exists i :: 0 <= i < |found| && Exported(found[i]) && r[k] == LineFor(found[i], list)
      {
        if k < |rf| {
          var i :| 0 <= i < |front| && Exported(front[i]) && rf[k] == LineFor(front[i], list);
          assert found[i] == front[i] && r[k] == rf[k];
          assert Exported(found[i]) && r[k] == LineFor(found[i], list);
        } else {
          var i := |found| - 1;
          assert Exported(found[i]) && r[k] == LineFor(found[i], list);
        }
      }
      forall i | 0 <= i < |found| && Exported(found[i])
        ensures LineFor(found[i], list) in r
      {
        if i < |front| {
          assert found[i] == front[i];
        }
      }
      assert forall k :: 0 <= k < |r| ==> exists i :: 0 <= i < |found| && Exported(found[i]) && r[k] == LineFor(found[i], list);
    } else {
      assert Lines(found, list) == [];
    }
  }

  /** No line goes out without a TradeMaster id. */
  lemma LinesHaveIds(found: seq<Product>, list: seq<(Uuid, int)>)
    ensures forall k :: 0 <= k < |Lines(found, list)| ==> StrTruthy(Lines(found, list)[k].id)
  {
    LinesExact(found, list);
  }

  /** The lines keep the repository order. */
  lemma {:induction false} LinesAppend(a: seq<Product>, b: seq<Product>, list: seq<(Uuid, int)>)
    ensures Lines(a + b, list) == Lines(a, list) + Lines(b, list)
    decreases |b|
  {
    if b != [] {
      assert (a + b)[..|a + b| - 1] == a + b[..|b| - 1];
      assert (a + b)[|a + b| - 1] == b[|b| - 1];
      LinesAppend(a, b[..|b| - 1], list);
    } else {
      assert a + b == a;
    }
  }

  /** The `foreach` at lines 52-62. */
  method BuildLines(found: seq<Product>, list: seq<(Uuid, int)>) returns (lines: seq<LineItem>)
    ensures lines == Lines(found, list)
  {
    lines := [];
    var i := 0;
    while i < |found|
      invariant 0 <= i <= |found|
      invariant lines == Lines(found[..i], list)
    {
      assert found[..i + 1][..i] == found[..i];
      if StrTruthy(found[i].data.externalId) {
        lines := lines + [LineFor(found[i], list)];
      }
      i := i + 1;
    }
    assert found[..i] == found;
  }

  // =============================================================== request

  /** The `params` of the API call (lines 67-82). */
  function OrderParams(st: Settings, delivery: Value, phone: Value, email: Value, shipping: string,
                       comment: Value, tovarJson: string): Gateway.Params {
    [ (StrKey("sklad"), st.storage),
      (StrKey("urlico"), st.legal),
      (StrKey("ds"), st.checkout),
      (StrKey("kontragent"), st.contractor),
      (StrKey("shema"), st.scheme),
      (StrKey("valuta"), st.currency),
      (StrKey("userID"), st.userId),
      (StrKey("nameKontakt"), Coalesce(delivery, StrKey("client"), Str(""))),
      (StrKey("adresKontakt"), Coalesce(delivery, StrKey("address"), Str(""))),
      (StrKey("telefonKontakt"), phone),
      (StrKey("other1Kontakt"), email),
      (StrKey("dateDost"), Str(shipping)),
      (StrKey("komment"), comment),
      (StrKey("tovarJson"), Str(tovarJson))
    ]
  }

  function SendArgs(params: Gateway.Params): Gateway.ApiArgs {
    Gateway.ApiArgs(Some("order/cart/anonym"), Some(params), Some("POST"))
  }

  /** Whatever the order, it goes to the anonymous-cart endpoint as a POST
      with the order in the form body. */
  lemma SendRequestShape(cfg: Gateway.Config, params: Gateway.Params)
    requires cfg.key.Some?
    ensures var r := Gateway.RequestFor(cfg, SendArgs(params));
      && r.Some? && r.value.verb == "POST"
      && r.value.url == cfg.host + "/v" + cfg.version + "/order/cart/anonym"
      && r.value.body == Some(params)
  {
    assert Gateway.MethodOf(SendArgs(params)) == "POST";
  }

  // ================================================================ result

  const NumberKey: Key := StrKey("nomerZakaza")

  /** Line 85: the ERP accepted the order. '-1' is not treated specially. */
  predicate Accepted(result: Value) {
    Truthy(result) && !EmptyAt(result, NumberKey)
  }

  /** Lines 91-102: the client mail, only to an order with an email and
      only when a template is configured. */
  function MailFor(st: Settings, email: Value): (m: Option<Mail>)
    ensures m.Some? <==> Truthy(email) && st.mailTemplate != ""
    ensures m.Some? ==> m.value.to == email
  {
    if Truthy(email) && st.mailTemplate != "" then Some(Mail(email)) else None
  }

  /** An accepted answer carries a non-empty number, which is then stored,
      and '-1' is accepted like any other number. */
  lemma AcceptedNumber(result: Value)
    ensures Accepted(result) ==> Truthy(Read(result, NumberKey))
    ensures Accepted(Arr([(NumberKey, Str("-1"))]))
    ensures !Accepted(Arr([(NumberKey, Str("0"))])) && !Accepted(Arr([])) && !Accepted(Str("ok"))
  {
  }

  /** `SendOrderTask::action` for the order the repository found (null when
      none): the status, the request sent and the mail queued. */
  method Send(order: Order?, repo: seq<Product>, st: Settings, cfg: Gateway.Config,
              encode: seq<LineItem> -> string, transport: Gateway.Request -> Option<string>,
              decode: string -> Value)
    returns (status: TaskStatus, sent: Option<Gateway.Request>, result: Value, mail: Option<Mail>)
    modifies if order != null then {order} else {}
    ensures order == null ==> status == Fail && sent.None? && mail.None?
    ensures order != null && Truthy(old(order.externalId)) ==>
      status == Cancel && sent.None? && mail.None? && order.externalId == old(order.externalId)
    ensures order != null && !Truthy(old(order.externalId)) ==>
      var lines := Lines(FindBy(repo, order.list), order.list);
      var params := OrderParams(st, order.delivery, order.phone, order.email, order.shipping, order.comment, encode(lines));
      && sent == Gateway.RequestFor(cfg, SendArgs(params))
      && (sent.None? ==> result == Arr([]))
      && (sent.Some? ==> result == Gateway.Answer(transport(sent.value), decode))
      && (Accepted(result) ==> status == Done && order.externalId == Read(result, NumberKey) && mail == MailFor(st, order.email))
      && (!Accepted(result) ==> status == Fail && order.externalId == old(order.externalId) && mail.None?)
  {
    sent, result, mail := None, Null, None;
    if order == null {
      return Fail, sent, result, mail;
    }
    if Truthy(order.externalId) {
      return Cancel, sent, result, mail;
    }
    var found := FindBy(repo, order.list);
    var lines := BuildLines(found, order.list);
    var params := OrderParams(st, order.delivery, order.phone, order.email, order.shipping, order.comment, encode(lines));
    result, sent := Gateway.Api(cfg, SendArgs(params), transport, decode);
    if Truthy(result) && !EmptyAt(result, NumberKey) {
      order.externalId := Read(result, NumberKey);
      mail := MailFor(st, order.email);
      status := Done;
    } else {
      status := Fail;
    }
  }
}
