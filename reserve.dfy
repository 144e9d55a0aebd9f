/** `CartReserve::action`: the storefront checkout that places an order
    directly in TradeMaster. It joins a multi-line delivery address, picks
    the ERP endpoint from the order type, builds one line item per product
    the catalog knows, sets the `nalich` stock-check flag, posts the order
    and classifies the ERP answer into a created order, an `exception`
    answer or an internal error.

    The reCAPTCHA verdict, the catalog product service, `json_encode`, the
    transport and `json_decode` are parameters; the redirect headers and the
    notification and mail bodies are left to the caller. */
module CartReserve {
  import opened Php
  import opened Catalog
  import Gateway

  /** The plugin and platform settings the action reads, with their
      defaults already applied ('off' for the price and address switches,
      'on' for the stock check, 'yes' for notifications, '' for the mail
      template and the sender address). */
  datatype Settings = Settings(
    storage: Value,
    legal: Value,
    scheme: Value,
    currency: Value,
    userId: Value,
    checkout: Value,
    contractor: Value,
    priceSelect: string,
    checkStock: string,
    orderAddress: string,
    notifications: string,
    mailTemplate: string,
    mailFrom: string)

  /** The signed-in user, when there is one. */
  datatype User = User(uuid: Uuid, additional: string)

  /** The request parameters (lines 26-44): `getParam` defaults are
      applied, except for `idDenSred` and `idKontragent`, whose defaults
      are settings and which are absent when the form does not send them. */
  datatype Form = Form(
    user: Option<User>,
    delivery: Value,
    phone: Value,
    email: Value,
    comment: Value,
    shipping: Value,
    products: Value,
    system: Value,
    kind: Value,
    idKontakt: Value,
    idDenSred: Option<Value>,
    idKontragent: Option<Value>,
    passport: Value,
    numberDoc: Value,
    numberDocStr: Value)

  /** The order `catalogOrderService->create` receives: the form after the
      address join, with the ERP order number as `external_id`. */
  datatype Order = Order(form: Form, externalId: Value)

  /** The client mail task: recipient and blind copy. */
  datatype Mail = Mail(to: Value, bcc: Value)

  /** How the ERP answer is read (lines 146-209). */
  datatype Verdict =
    | NoResult
    | Reject(shown: Value)
    | Accept(number: Value)

  /** The response of the action. `Created` lists the notifications sent
      (`None` for the administrators, the user's uuid for the user) and the
      mail task, when one is set up. */
  datatype Outcome =
    | Refused
    | InternalError
    | Exception(result: Value)
    | Created(order: Order, notices: seq<Option<Uuid>>, mail: Option<Mail>)

  const NumberKey: Key := StrKey("nomerZakaza")

  // ============================================================= endpoint

  /** The endpoint switch at lines 56-75: the `in_array` tests are strict. */
  function Endpoint(kind: Value, numberDoc: Value): string {
    if kind == Str("rezervTel") || kind == Str("reserve") then
      if !IsEmpty(numberDoc) then "custom/addRezervTovarTblKontaktSite" else "order/cart/rezervTel"
    else if kind == Str("kpTel") || kind == Str("order") then "order/cart/kpTel"
    else "order/cart/anonym"
  }

  /** The switch as a table: a reservation goes to the contact-table
      endpoint exactly when a document number is given; the proposal types
      go to `kpTel`; anything else, including "0", a number or a differently
      cased name, is an anonymous cart. */
  lemma EndpointTable(kind: Value, numberDoc: Value)
    ensures Endpoint(kind, numberDoc) == "custom/addRezervTovarTblKontaktSite" <==>
      (kind in {Str("rezervTel"), Str("reserve")} && Truthy(numberDoc))
    ensures Endpoint(kind, numberDoc) == "order/cart/rezervTel" <==>
      (kind in {Str("rezervTel"), Str("reserve")} && IsEmpty(numberDoc))
    ensures Endpoint(kind, numberDoc) == "order/cart/kpTel" <==> kind in {Str("kpTel"), Str("order")}
    ensures Endpoint(kind, numberDoc) == "order/cart/anonym" <==>
      kind !in {Str("rezervTel"), Str("reserve"), Str("kpTel"), Str("order")}
  {
  }

  /** A document number of "0" counts as absent: `empty("0")` holds. */
  lemma EndpointZeroDocument()
    ensures Endpoint(Str("reserve"), Str("0")) == "order/cart/rezervTel"
    ensures Endpoint(Str("reserve"), Str("00")) == "custom/addRezervTovarTblKontaktSite"
    ensures Endpoint(Str("Reserve"), Str("7")) == "order/cart/anonym"
  {
  }

  // =========================================================== line items

  /** Whether the wholesale price applies (line 90). */
  predicate Wholesale(st: Settings, user: Option<User>) {
    st.priceSelect == "on" && user.Some?
  }

  /** `(float) ($opts['count'] ?? 0)`. */
  function Quantity(opts: Value): int {
    if IsSet(opts, StrKey("count")) then IntCast(Read(opts, StrKey("count"))) else 0
  }

  /** The line item built for a product that was found (lines 88-99). */
  function LineFor(p: Product, opts: Value, wholesale: bool): (line: LineItem)
    ensures line.id == p.data.externalId && line.name == p.data.title
    ensures line.quantity == Quantity(opts)
    ensures line.price == (if wholesale then p.data.priceWholesale else p.data.price) * Quantity(opts)
  {
    var unit := if wholesale then p.data.priceWholesale else p.data.price;
    LineItem(p.data.externalId, p.data.title, Quantity(opts), unit * Quantity(opts))
  }

  /** What one `foreach` step adds: nothing when the product service throws
      `ProductNotFoundException`. */
  function LineOf(entry: (Key, Value), find: Key -> Option<Product>, wholesale: bool): seq<LineItem> {
    match find(entry.0)
    case None => []
    case Some(p) => [LineFor(p, entry.1, wholesale)]
  }

  /** The `$products` list after the loop over `entries`. */
  function Lines(entries: seq<(Key, Value)>, find: Key -> Option<Product>, wholesale: bool): seq<LineItem> {
    if entries == [] then []
    else Lines(entries[..|entries| - 1], find, wholesale) + LineOf(entries[|entries| - 1], find, wholesale)
  }

  /** The entries `foreach` visits: none when `products` is not an array. */
  function EntriesOf(products: Value): seq<(Key, Value)> {
    if products.Arr? then products.entries else []
  }

  /** The loop keeps the input order: the lines of two runs of entries are
      the lines of the first followed by the lines of the second. */
  lemma {:induction false} LinesAppend(a: seq<(Key, Value)>, b: seq<(Key, Value)>, find: Key -> Option<Product>, wholesale: bool)
    ensures Lines(a + b, find, wholesale) == Lines(a, find, wholesale) + Lines(b, find, wholesale)
    decreases |b|
  {
    if b != [] {
      var b' := b[..|b| - 1];
      assert (a + b)[..|a + b| - 1] == a + b';
      assert (a + b)[|a + b| - 1] == b[|b| - 1];
      LinesAppend(a, b', find, wholesale);
    } else {
      assert a + b == a;
    }
  }

  /** When every product is found, there is one line per entry, in order. */
  lemma {:induction false} LinesAllFound(entries: seq<(Key, Value)>, find: Key -> Option<Product>, wholesale: bool)
    requires forall i :: 0 <= i < |entries| ==> find(entries[i].0).Some?
    ensures |Lines(entries, find, wholesale)| == |entries|
    ensures forall i :: 0 <= i < |entries| ==>
      Lines(entries, find, wholesale)[i] == LineFor(find(entries[i].0).value, entries[i].1, wholesale)
  {
    if entries != [] {
      var front := entries[..|entries| - 1];
      LinesAllFound(front, find, wholesale);
    }
  }

  /** Products the catalog does not know add nothing. */
  lemma {:induction false} LinesNoneFound(entries: seq<(Key, Value)>, find: Key -> Option<Product>, wholesale: bool)
    requires forall i :: 0 <= i < |entries| ==> find(entries[i].0).None?
    ensures Lines(entries, find, wholesale) == []
  {
    if entries != [] {
      LinesNoneFound(entries[..|entries| - 1], find, wholesale);
    }
  }

  /** The number of entries whose product is found. */
  function FoundCount(entries: seq<(Key, Value)>, find: Key -> Option<Product>): nat {
    if entries == [] then 0
    else FoundCount(entries[..|entries| - 1], find) + (if find(entries[|entries| - 1].0).Some? then 1 else 0)
  }

  /** Exactly one line per product found. */
  lemma {:induction false} LinesCount(entries: seq<(Key, Value)>, find: Key -> Option<Product>, wholesale: bool)
    ensures |Lines(entries, find, wholesale)| == FoundCount(entries, find) <= |entries|
  {
    if entries != [] {
      LinesCount(entries[..|entries| - 1], find, wholesale);
    }
  }

  /** The `foreach` at lines 80-103. */
  method BuildLines(products: Value, find: Key -> Option<Product>, wholesale: bool) returns (lines: seq<LineItem>)
    ensures lines == Lines(EntriesOf(products), find, wholesale)
  {
    var entries := EntriesOf(products);
    lines := [];
    var i := 0;
    while i < |entries|
      invariant 0 <= i <= |entries|
      invariant lines == Lines(entries[..i], find, wholesale)
    {
      assert entries[..i + 1][..i] == entries[..i];
      var p := find(entries[i].0);
      if p.Some? {
        lines := lines + [LineFor(p.value, entries[i].1, wholesale)];
      }
      i := i + 1;
    }
    assert entries[..i] == entries;
  }

  // =============================================================== nalich

  /** The stock-check switch at lines 106-117 (`switch` compares loosely,
      which for these non-numeric names is plain equality). */
  function Nalich(checkStock: string, user: Option<User>): int {
    if checkStock == "on" then 1
    else if checkStock == "user-only" then (if user.Some? then 1 else 0)
    else if checkStock == "off" then 0
    else 1
  }

  /** The ERP checks stock unless the setting is 'off', or is 'user-only'
      for a guest; an unknown setting checks. */
  lemma NalichTable(checkStock: string, user: Option<User>)
    ensures Nalich(checkStock, user) in {0, 1}
    ensures Nalich(checkStock, user) == 1 <==>
      (checkStock != "off" && (checkStock == "user-only" ==> user.Some?))
  {
  }

  // ============================================================== address

  /** Lexicographic order on code points, which agrees with byte order on
      the UTF-8 text. */
  predicate StrLess(a: string, b: string) {
    if a == [] then b != []
    else if b == [] then false
    else if a[0] < b[0] then true
    else if a[0] == b[0] then StrLess(a[1..], b[1..])
    else false
  }

  /** The key order `ksort` applies: integers numerically, strings
      lexicographically, integer keys first. */
  predicate KeyLess(a: Key, b: Key) {
    match (a, b)
    case (IntKey(x), IntKey(y)) => x < y
    case (IntKey(_), StrKey(_)) => true
    case (StrKey(_), IntKey(_)) => false
    case (StrKey(x), StrKey(y)) => StrLess(x, y)
  }

  lemma {:induction false} StrLessAsymmetric(a: string, b: string)
    requires StrLess(a, b)
    ensures !StrLess(b, a)
  {
    if a != [] && b != [] && a[0] == b[0] {
      StrLessAsymmetric(a[1..], b[1..]);
    }
  }

  lemma {:induction false} StrNotLessTransitive(a: string, b: string, c: string)
    requires !StrLess(b, a) && !StrLess(c, b)
    ensures !StrLess(c, a)
  {
    if a != [] && b != [] && c != [] && a[0] == b[0] && b[0] == c[0] {
      StrNotLessTransitive(a[1..], b[1..], c[1..]);
    }
  }

  lemma KeyLessAsymmetric(a: Key, b: Key)
    requires KeyLess(a, b)
    ensures !KeyLess(b, a)
  {
    if a.StrKey? && b.StrKey? {
      StrLessAsymmetric(a.s, b.s);
    }
  }

  lemma KeyNotLessTransitive(a: Key, b: Key, c: Key)
    requires !KeyLess(b, a) && !KeyLess(c, b)
    ensures !KeyLess(c, a)
  {
    if a.StrKey? && b.StrKey? && c.StrKey? {
      StrNotLessTransitive(a.s, b.s, c.s);
    }
  }

  type Pairs = seq<(Key, Value)>

  ghost predicate KeySorted(s: Pairs) {
    forall i, j :: 0 <= i < j < |s| ==> !KeyLess(s[j].0, s[i].0)
  }

  ghost predicate NotBelow(s: Pairs, k: Key) {
    forall i :: 0 <= i < |s| ==> !KeyLess(s[i].0, k)
  }

  function Insert(x: (Key, Value), s: Pairs): (r: Pairs)
    ensures multiset(r) == multiset(s) + multiset{x}
  {
    if s == [] then [x]
    else if KeyLess(s[0].0, x.0) then
      assert s == [s[0]] + s[1..];
      [s[0]] + Insert(x, s[1..])
    else [x] + s
  }

  lemma {:induction false} InsertNotBelow(x: (Key, Value), s: Pairs, k: Key)
    requires NotBelow(s, k) && !KeyLess(x.0, k)
    ensures NotBelow(Insert(x, s), k)
  {
    if s != [] && KeyLess(s[0].0, x.0) {
      InsertNotBelow(x, s[1..], k);
    }
  }

  lemma {:induction false} InsertSorted(x: (Key, Value), s: Pairs)
    requires KeySorted(s)
    ensures KeySorted(Insert(x, s))
  {
    if s == [] {
    } else if KeyLess(s[0].0, x.0) {
      InsertSorted(x, s[1..]);
      KeyLessAsymmetric(s[0].0, x.0);
      InsertNotBelow(x, s[1..], s[0].0);
    } else {
      forall j | 0 <= j < |s|
        ensures !KeyLess(s[j].0, x.0)
      {
        if j > 0 {
          KeyNotLessTransitive(x.0, s[0].0, s[j].0);
        }
      }
    }
  }

  /** `ksort`. */
  function KSort(s: Pairs): Pairs {
    if s == [] then [] else Insert(s[0], KSort(s[1..]))
  }

  /** `ksort` reorders the entries by key and loses or adds none. */
  lemma {:induction false} KSortSortedPermutation(s: Pairs)
    ensures KeySorted(KSort(s))
    ensures multiset(KSort(s)) == multiset(s)
  {
    if s != [] {
      KSortSortedPermutation(s[1..]);
      InsertSorted(s[0], KSort(s[1..]));
      assert s == [s[0]] + s[1..];
    }
  }

  /** The text `implode` makes of one element. */
  function ToText(v: Value): string {
    match v
    case Null => ""
    case Bool(b) => if b then "1" else ""
    case Int(i) => IntToString(i)
    case Str(s) => s
    case Arr(_) => "Array"
  }

  function Texts(s: Pairs): (r: seq<string>)
    ensures |r| == |s| && forall i :: 0 <= i < |s| ==> r[i] == ToText(s[i].1)
  {
    if s == [] then [] else [ToText(s[0].1)] + Texts(s[1..])
  }

  /** Lines 48-53: an array-valued `delivery.address` becomes one string,
      the parts joined by ", " in key order when `catalog_order_address` is
      'on' and in form order otherwise; anything else is left as it is. */
  function JoinAddress(delivery: Value, sortParts: bool): (r: Value)
  {
    var a := Read(delivery, StrKey("address"));
    if a.Arr? && delivery.Arr? then
      var parts := if sortParts then KSort(a.entries) else a.entries;
      Arr(Put(delivery.entries, StrKey("address"), Str(Implode(", ", Texts(parts)))))
    else delivery
  }

  /** The joined address holds the texts of the parts, sorted by key when
      asked; every other delivery field is unchanged. */
  lemma JoinAddressFacts(delivery: Value, sortParts: bool)
    requires Read(delivery, StrKey("address")).Arr?
    ensures var parts := Read(delivery, StrKey("address")).entries;
      exists sorted: Pairs ::
        && (sortParts ==> KeySorted(sorted) && multiset(sorted) == multiset(parts))
        && (!sortParts ==> sorted == parts)
        && Read(JoinAddress(delivery, sortParts), StrKey("address")) == Str(Implode(", ", Texts(sorted)))
    ensures forall k :: k != StrKey("address") ==>
      Read(JoinAddress(delivery, sortParts), k) == Read(delivery, k)
  {
    var parts := Read(delivery, StrKey("address")).entries;
    KSortSortedPermutation(parts);
    var sorted := if sortParts then KSort(parts) else parts;
    assert Read(JoinAddress(delivery, sortParts), StrKey("address")) == Str(Implode(", ", Texts(sorted)));
  }

  /** `ksort` orders integer keys numerically, whatever the form order. */
  lemma KSortExample()
    ensures KSort([(IntKey(2), Str("Flat 5")), (IntKey(0), Str("Moscow")), (IntKey(1), Str("Lenina 1"))])
         == [(IntKey(0), Str("Moscow")), (IntKey(1), Str("Lenina 1")), (IntKey(2), Str("Flat 5"))]
  {
    var a, b, c := (IntKey(0), Str("Moscow")), (IntKey(1), Str("Lenina 1")), (IntKey(2), Str("Flat 5"));
    var parts := [c, a, b];
    assert parts[1..] == [a, b] && parts[1..][1..] == [b];
    assert KSort([b]) == [b];
    assert KSort([a, b]) == Insert(a, [b]) == [a, b];
    assert Insert(c, [b]) == [b] + Insert(c, []);
    assert Insert(c, [a, b]) == [a] + Insert(c, [b]) == [a, b, c];
  }

  // =============================================================== request

  /** The `params` of the API call (lines 122-143). */
  function OrderParams(form: Form, st: Settings, tovarJson: string, nalich: int): Params {
    [ (StrKey("sklad"), st.storage),
      (StrKey("urlico"), st.legal),
      (StrKey("ds"), form.idDenSred.GetOr(st.checkout)),
      (StrKey("kontragent"), form.idKontragent.GetOr(st.contractor)),
      (StrKey("shema"), st.scheme),
      (StrKey("valuta"), st.currency),
      (StrKey("userID"), st.userId),
      (StrKey("nameKontakt"), Coalesce(form.delivery, StrKey("client"), Str(""))),
      (StrKey("adresKontakt"), Coalesce(form.delivery, StrKey("address"), Str(""))),
      (StrKey("telefonKontakt"), form.phone),
      (StrKey("other1Kontakt"), form.email),
      (StrKey("other2Kontakt"),
        if Truthy(form.passport) then form.passport
        else if form.user.Some? then Str(form.user.value.additional) else Str("")),
      (StrKey("dateDost"), form.shipping),
      (StrKey("komment"), form.comment),
      (StrKey("tovarJson"), Str(tovarJson)),
      (StrKey("idKontakt"), form.idKontakt),
      (StrKey("nomDoc"), form.numberDoc),
      (StrKey("nomerStr"), form.numberDocStr),
      (StrKey("nalich"), Int(nalich)),
      (StrKey("so"), Str(""))
    ]
  }

  type Params = Gateway.Params

  /** The form after the address join. */
  function Prepared(form: Form, st: Settings): Form {
    form.(delivery := JoinAddress(form.delivery, st.orderAddress == "on"))
  }

  /** The API call the action makes for a prepared form and its lines. */
  function OrderArgs(form: Form, st: Settings, lines: seq<LineItem>, encode: seq<LineItem> -> string): Gateway.ApiArgs {
    Gateway.ApiArgs(Some(Endpoint(form.kind, form.numberDoc)),
                    Some(OrderParams(form, st, encode(lines), Nalich(st.checkStock, form.user))),
                    Some("POST"))
  }

  /** The order is always a POST with a 60-second timeout: the key goes in
      the query, the order in the form body, whose `nalich` entry is the
      stock flag and whose `tovarJson` entry is the encoded lines. */
  lemma OrderRequestShape(cfg: Gateway.Config, form: Form, st: Settings, lines: seq<LineItem>, encode: seq<LineItem> -> string)
    requires cfg.key.Some?
    ensures var r := Gateway.RequestFor(cfg, OrderArgs(form, st, lines, encode));
      && r.Some?
      && r.value.verb == "POST" && r.value.timeout == Some(60)
      && r.value.url == cfg.host + "/v" + cfg.version + "/" + Endpoint(form.kind, form.numberDoc)
      && r.value.body == Some(OrderParams(form, st, encode(lines), Nalich(st.checkStock, form.user)))
  {
    var args := OrderArgs(form, st, lines, encode);
    assert Gateway.MethodOf(args) == "POST";
    assert Gateway.ParamsOf(args) == OrderParams(form, st, encode(lines), Nalich(st.checkStock, form.user));
  }

  // ======================================================== classification

  /** `$v != '-1'` fails, that is `$v == '-1'` under PHP 8 loose
      comparison: `true`, the integer -1, and numeric strings of value -1
      ("-1", "-01", " -1", "-1 "); never null, `false` or an array. */
  predicate LooseMinusOne(v: Value) {
    match v
    case Null => false
    case Bool(b) => b
    case Int(i) => i == -1
    case Str(s) => NumericMinusOne(s)
    case Arr(_) => false
  }

  /** An integer-form numeric string, with PHP's leading and trailing
      whitespace, of value -1. Decimal and exponent forms are not modelled. */
  predicate NumericMinusOne(s: string) {
    var t := SkipSpace(s);
    var u := SkipSpaceEnd(t);
    |u| >= 2 && u[0] == '-' && AllDigits(u[1..]) && DigitsValue(u[1..]) == 1
  }

  function SkipSpaceEnd(s: string): string {
    if s != [] && IsNumericSpace(s[|s| - 1]) then SkipSpaceEnd(s[..|s| - 1]) else s
  }

  /** The order-number test at lines 147-151: a one-element list whose
      first element carries a non-empty number, or a non-empty top-level
      number. */
  predicate HasNumber(result: Value) {
    || (result.Arr? && |result.entries| == 1 && !EmptyAt(Read(result, IntKey(0)), NumberKey))
    || !EmptyAt(result, NumberKey)
  }

  /** Lines 152-154: an array with a non-null `[0]` is replaced by it. */
  function Unwrap(result: Value): Value {
    if result.Arr? && IsSet(result, IntKey(0)) then Read(result, IntKey(0)) else result
  }

  /** Lines 146-209 without the side effects. */
  function Classify(result: Value): Verdict {
    if !Truthy(result) then NoResult
    else if HasNumber(result) then
      var r := Unwrap(result);
      if !LooseMinusOne(Read(r, NumberKey)) then Accept(Read(r, NumberKey)) else Reject(r)
    else Reject(result)
  }

  /** An empty answer is an internal error, and only an empty one. */
  lemma ClassifyEmpty(result: Value)
    ensures Classify(result).NoResult? <==> IsEmpty(result)
  {
  }

  /** A non-empty answer without an order number is shown unchanged. */
  lemma ClassifyNoNumber(result: Value)
    requires Truthy(result) && !HasNumber(result)
    ensures Classify(result) == Reject(result)
  {
  }

  /** A one-element list is unwrapped: its element's number is the order
      number, unless it is loosely '-1', in which case the element alone is
      shown. */
  lemma ClassifySingleton(x: Value)
    requires !EmptyAt(x, NumberKey)
    ensures var n := Read(x, NumberKey);
      && (!LooseMinusOne(n) ==> Classify(Arr([(IntKey(0), x)])) == Accept(n))
      && (LooseMinusOne(n) ==> Classify(Arr([(IntKey(0), x)])) == Reject(x))
  {
    assert Find([(IntKey(0), x)], IntKey(0)) == Some(x);
  }

  /** An answer object without a `[0]` entry and with a non-empty number is
      accepted exactly when the number is not loosely '-1'. */
  lemma ClassifyObject(result: Value)
    requires result.Arr? && Lookup(result, IntKey(0)).None? && !EmptyAt(result, NumberKey)
    ensures Classify(result).Accept? <==> !LooseMinusOne(Read(result, NumberKey))
    ensures Classify(result).Accept? ==> Classify(result).number == Read(result, NumberKey) && Truthy(Classify(result).number)
    ensures Classify(result).Reject? ==> Classify(result).shown == result
  {
  }

  /** An accepted number is never loosely '-1', and it is the number of the
      (unwrapped) answer. */
  lemma ClassifyAccepted(result: Value)
    requires Classify(result).Accept?
    ensures Truthy(result) && HasNumber(result)
    ensures Classify(result).number == Read(Unwrap(result), NumberKey)
    ensures !LooseMinusOne(Classify(result).number)
  {
  }

  /** An answer with a top-level number and also an element `[0]` without
      one is unwrapped all the same, so the order is created with a null
      `external_id`. */
  lemma ClassifyNullNumber()
    ensures Classify(Arr([(NumberKey, Str("125")), (IntKey(0), Int(7))])) == Accept(Null)
  {
    var r := Arr([(NumberKey, Str("125")), (IntKey(0), Int(7))]);
    assert Find(r.entries, NumberKey) == Some(Str("125"));
    assert Find(r.entries, IntKey(0)) == Some(Int(7));
  }

  lemma LooseMinusOneExamples()
    ensures LooseMinusOne(Str("-1")) && LooseMinusOne(Str("-01")) && LooseMinusOne(Str(" -1"))
    ensures LooseMinusOne(Int(-1)) && LooseMinusOne(Bool(true))
    ensures !LooseMinusOne(Str("1")) && !LooseMinusOne(Str("-1a")) && !LooseMinusOne(Null) && !LooseMinusOne(Int(1))
  {
    assert SkipSpace(" -1") == "-1";
    assert SkipSpace("-1a") == "-1a";
    assert "-1a"[1..] == "1a";
    assert !IsDigit('a');
  }

  // =============================================================== outcome

  /** The notifications of lines 162-179. */
  function Notices(st: Settings, user: Option<User>): seq<Option<Uuid>> {
    if st.notifications != "yes" then []
    else if user.Some? then [None, Some(user.value.uuid)]
    else [None]
  }

  /** The client mail of lines 182-194: to the order's email, or to the
      sender address with no copy when the order has none. */
  function MailFor(st: Settings, email: Value): Option<Mail> {
    if st.mailTemplate == "" then None
    else if Truthy(email) then Some(Mail(email, Str(st.mailFrom)))
    else Some(Mail(Str(st.mailFrom), Null))
  }

  /** The response for a prepared form and the ERP answer. */
  function Respond(form: Form, st: Settings, result: Value): Outcome {
    match Classify(result)
    case NoResult => InternalError
    case Reject(shown) => Exception(shown)
    case Accept(n) => Created(Order(form, n), Notices(st, form.user), MailFor(st, form.email))
  }

  /** An order is created only for an accepted number; it carries that number
      and the prepared form, the administrators are notified first and the
      user second when notifications are on, and a mail is set up exactly
      when a template is configured. */
  lemma RespondCreated(form: Form, st: Settings, result: Value)
    ensures Respond(form, st, result).Created? <==> Classify(result).Accept?
    ensures Respond(form, st, result).Created? ==>
      var o := Respond(form, st, result);
      && o.order == Order(form, Classify(result).number)
      && (st.notifications == "yes" <==> |o.notices| > 0)
      && (|o.notices| > 0 ==> o.notices[0] == None)
      && (|o.notices| == 2 <==> st.notifications == "yes" && form.user.Some?)
      && (o.mail.Some? <==> st.mailTemplate != "")
      && (o.mail.Some? ==> (o.mail.value.bcc == Null <==> IsEmpty(form.email)))
  {
  }

  /** `CartReserve::action`. Returns the response, the request sent, if
      any, and the decoded ERP answer. */
  method Reserve(cfg: Gateway.Config, st: Settings, form: Form, recaptcha: bool,
                 find: Key -> Option<Product>, encode: seq<LineItem> -> string,
                 transport: Gateway.Request -> Option<string>, decode: string -> Value)
    returns (outcome: Outcome, sent: Option<Gateway.Request>, result: Value)
    ensures !recaptcha ==> outcome == Refused && sent.None?
    ensures recaptcha ==>
      var f := Prepared(form, st);
      var lines := Lines(EntriesOf(f.products), find, Wholesale(st, f.user));
      && sent == Gateway.RequestFor(cfg, OrderArgs(f, st, lines, encode))
      && (sent.None? ==> result == Arr([]))
      && (sent.Some? ==> result == Gateway.Answer(transport(sent.value), decode))
      && outcome == Respond(f, st, result)
  {
    if !recaptcha {
      return Refused, None, Null;
    }
    var f := form;
    var address := Read(f.delivery, StrKey("address"));
    if address.Arr? {
      f := Prepared(form, st);
    }
    assert f == Prepared(form, st);
    var lines := BuildLines(f.products, find, Wholesale(st, f.user));
    var args := OrderArgs(f, st, lines, encode);
    result, sent := Gateway.Api(cfg, args, transport, decode);
    outcome := Respond(f, st, result);
  }
}
