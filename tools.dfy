/**
  The thirteen tools of main.py. Each tool turns its typed arguments into a
  call of the request executor, described here by `ToolCall`, and returns
  whatever the executor returns for that call (`Executor.MakeRequest` with the
  call's four fields).

  Tools whose source builds a dictionary and then inserts keys into it only
  when an argument is truthy are methods; tools whose source is a single
  dictionary literal or f-string are functions. Defaults are the source's.
 */
module Tools {

  import opened Wrappers
  import opened Json
  import opened Decimal
  import opened Executor

  /** The arguments one tool passes to the executor: method name, endpoint, `params=` and `json=`. */
  datatype ToolCall = ToolCall(methodName: string, endpoint: string,
                               params: Option<map<string, Json>>, json: Option<Json>)

  // ---------------------------------------------------------------------------
  // Python truthiness of the optional arguments

  /** `if s:` for an `Optional[str]`: set and not empty. */
  predicate TruthyStr(o: Option<string>)
  {
    o.Some? && o.value != ""
  }

  /** `if n:` for an `Optional[int]`: set and not zero. */
  predicate TruthyInt(o: Option<int>)
  {
    o.Some? && o.value != 0
  }

  /** The value a falsy optional string ends up as: not sent at all. */
  function Kept(o: Option<string>): Option<string>
  {
    if TruthyStr(o) then o else None
  }

  /** `key` is in `m` exactly when the optional string `o` is truthy, and then holds it. */
  predicate SentIfTruthy(m: map<string, Json>, key: string, o: Option<string>)
  {
    (key in m <==> TruthyStr(o)) && (TruthyStr(o) ==> m[key] == JStr(o.value))
  }

  /** `key` is in `m` exactly when the optional int `o` is truthy, and then holds it. */
  predicate IntSentIfTruthy(m: map<string, Json>, key: string, o: Option<int>)
  {
    (key in m <==> TruthyInt(o)) && (TruthyInt(o) ==> m[key] == JInt(o.value))
  }

  /** The object a request body wraps under its single resource key, if it has that shape. */
  function Wrapped(body: Json, key: string): Option<map<string, Json>>
  {
    if body.JObject? && body.fields.Keys == {key} && body.fields[key].JObject?
    then Some(body.fields[key].fields)
    else None
  }

  // ---------------------------------------------------------------------------
  // Endpoint paths

  /** The f-string `/<resource>/{id}.json` of the `get_*` tools. */
  function ItemPath(resource: string, id: int): (p: string)
    ensures p == "/" + resource + "/" + IntToString(id) + ".json"
    ensures ParseItemPath(resource, p) == Some(id)
  {
    var prefix := "/" + resource + "/";
    var p := prefix + IntToString(id) + ".json";
    assert p[..|prefix|] == prefix;
    assert p[|p| - 5..] == ".json";
    assert p[|prefix|..|p| - 5] == IntToString(id);
    IntToStringRoundTrip(id);
    p
  }

  /** Reads the id back out of an item path; `None` for a path of any other shape. */
  function ParseItemPath(resource: string, p: string): Option<int>
  {
    var prefix := "/" + resource + "/";
    if |p| >= |prefix| + 5 && p[..|prefix|] == prefix && p[|p| - 5..] == ".json"
    then ParseInt(p[|prefix|..|p| - 5])
    else None
  }

  /** Distinct ids reach distinct URLs. */
  lemma ItemPathInjective(resource: string, a: int, b: int)
    requires ItemPath(resource, a) == ItemPath(resource, b)
    ensures a == b
  {
  }

  // ---------------------------------------------------------------------------
  // Invoices

  /** `list_invoices`: paginated, with `period` only when it is truthy. */
  method ListInvoices(period: Option<string> := None, page: int := 1, perPage: int := 50)
    returns (call: ToolCall)
    ensures call.methodName == "GET" && call.endpoint == "/invoices.json" && call.json == None
    ensures call.params.Some?
    ensures call.params.value.Keys <= {"page", "per_page", "period"}
    ensures "page" in call.params.value && call.params.value["page"] == JInt(page)
    ensures "per_page" in call.params.value && call.params.value["per_page"] == JInt(perPage)
    ensures SentIfTruthy(call.params.value, "period", period)
  {
    var params := map["page" := JInt(page), "per_page" := JInt(perPage)];
    if TruthyStr(period) {
      params := params["period" := JStr(period.value)];
    }
    call := ToolCall("GET", "/invoices.json", Some(params), None);
  }

  /** `get_invoice`: one invoice, addressed by its id in the path. */
  function GetInvoice(invoiceId: int): (call: ToolCall)
    ensures call.methodName == "GET" && call.params == None && call.json == None
    ensures call.endpoint == "/invoices/" + IntToString(invoiceId) + ".json"
    ensures ParseItemPath("invoices", call.endpoint) == Some(invoiceId)
  {
    assert "/" + "invoices" + "/" == "/invoices/";
    ToolCall("GET", ItemPath("invoices", invoiceId), None, None)
  }

  /** `positions or []`: an unset or empty list sends the empty list. */
  function PositionsOrEmpty(positions: Option<seq<map<string, Json>>>): (ps: seq<map<string, Json>>)
    ensures positions.Some? ==> ps == positions.value
    ensures positions.None? ==> ps == []
  {
    if positions.Some? && |positions.value| > 0 then positions.value else []
  }

  function PositionsJson(ps: seq<map<string, Json>>): (j: Json)
    ensures j.JArray? && |j.items| == |ps|
    ensures forall k :: 0 <= k < |ps| ==> j.items[k] == JObject(ps[k])
  {
    JArray(seq(|ps|, k requires 0 <= k < |ps| => JObject(ps[k])))
  }

  /** Reads the line items back out of a JSON array of objects. */
  function PositionsOf(items: seq<Json>): (ps: seq<map<string, Json>>)
    requires forall k :: 0 <= k < |items| ==> items[k].JObject?
    ensures |ps| == |items|
    ensures forall k :: 0 <= k < |items| ==> JObject(ps[k]) == items[k]
  {
    seq(|items|, k requires 0 <= k < |items| => items[k].fields)
  }

  /** What the API reads from an invoice payload. */
  datatype InvoiceFields = InvoiceFields(kind: string, clientId: int, positions: seq<map<string, Json>>,
                                         sellerName: Option<string>, buyerName: Option<string>,
                                         buyerTaxNo: Option<string>)

  const InvoiceKeys: set<string> := {"kind", "client_id", "positions", "seller_name", "buyer_name", "buyer_tax_no"}

  /** An optional text field: absent is `None`, present must be a string. */
  function OptionalText(m: map<string, Json>, key: string): Option<Option<string>>
  {
    if key !in m then Some(None)
    else if m[key].JStr? then Some(Some(m[key].s))
    else None
  }

  /** Decodes `{"invoice": {...}}`; `None` when the payload has any other shape. */
  function InvoiceOf(body: Json): Option<InvoiceFields>
  {
    match Wrapped(body, "invoice")
    case None => None
    case Some(inv) =>
      if inv.Keys <= InvoiceKeys
         && "kind" in inv && inv["kind"].JStr?
         && "client_id" in inv && inv["client_id"].JInt?
         && "positions" in inv && inv["positions"].JArray?
         && (forall k :: 0 <= k < |inv["positions"].items| ==> inv["positions"].items[k].JObject?)
         && OptionalText(inv, "seller_name").Some?
         && OptionalText(inv, "buyer_name").Some?
         && OptionalText(inv, "buyer_tax_no").Some?
      then
        var items := inv["positions"].items;
        Some(InvoiceFields(inv["kind"].s, inv["client_id"].i,
                           PositionsOf(items),
                           OptionalText(inv, "seller_name").value,
                           OptionalText(inv, "buyer_name").value,
                           OptionalText(inv, "buyer_tax_no").value))
      else None
  }

  /**
    The invoice object `create_invoice` sends: `kind`, `client_id` and
    `positions` always; each of the seller name, buyer name and buyer tax
    number exactly when it is truthy; no other key.
   */
  predicate InvoiceData(inv: map<string, Json>, clientId: int, kind: string, sellerName: Option<string>,
                        buyerName: Option<string>, buyerTaxNo: Option<string>,
                        positions: Option<seq<map<string, Json>>>)
  {
    && "kind" in inv && inv["kind"] == JStr(kind)
    && "client_id" in inv && inv["client_id"] == JInt(clientId)
    && "positions" in inv && inv["positions"] == PositionsJson(PositionsOrEmpty(positions))
    && SentIfTruthy(inv, "seller_name", sellerName)
    && SentIfTruthy(inv, "buyer_name", buyerName)
    && SentIfTruthy(inv, "buyer_tax_no", buyerTaxNo)
    && inv.Keys <= InvoiceKeys
  }

  /** An invoice object of that shape decodes back to the arguments, the falsy optional ones dropped. */
  lemma InvoiceDataDecodes(inv: map<string, Json>, clientId: int, kind: string, sellerName: Option<string>,
                           buyerName: Option<string>, buyerTaxNo: Option<string>,
                           positions: Option<seq<map<string, Json>>>)
    requires InvoiceData(inv, clientId, kind, sellerName, buyerName, buyerTaxNo, positions)
    ensures InvoiceOf(JObject(map["invoice" := JObject(inv)]))
            == Some(InvoiceFields(kind, clientId, PositionsOrEmpty(positions),
                                  Kept(sellerName), Kept(buyerName), Kept(buyerTaxNo)))
  {
    var body := JObject(map["invoice" := JObject(inv)]);
    assert Wrapped(body, "invoice") == Some(inv);
    assert PositionsOf(inv["positions"].items) == PositionsOrEmpty(positions);
    assert OptionalText(inv, "seller_name") == Some(Kept(sellerName));
    assert OptionalText(inv, "buyer_name") == Some(Kept(buyerName));
    assert OptionalText(inv, "buyer_tax_no") == Some(Kept(buyerTaxNo));
  }

  /**
    `create_invoice`: the payload is `{"invoice": ...}` with the invoice object
    above, and it decodes back to the arguments, falsy optional ones dropped.
   */
  method CreateInvoice(clientId: int, kind: string := "vat", sellerName: Option<string> := None,
                       buyerName: Option<string> := None, buyerTaxNo: Option<string> := None,
                       positions: Option<seq<map<string, Json>>> := None)
    returns (call: ToolCall)
    ensures call.methodName == "POST" && call.endpoint == "/invoices.json" && call.params == None
    ensures call.json.Some? && Wrapped(call.json.value, "invoice").Some?
    ensures InvoiceData(Wrapped(call.json.value, "invoice").value,
                        clientId, kind, sellerName, buyerName, buyerTaxNo, positions)
    ensures InvoiceOf(call.json.value)
            == Some(InvoiceFields(kind, clientId, PositionsOrEmpty(positions),
                                  Kept(sellerName), Kept(buyerName), Kept(buyerTaxNo)))
  {
    var invoiceData := map["kind" := JStr(kind), "client_id" := JInt(clientId),
                           "positions" := PositionsJson(PositionsOrEmpty(positions))];
    if TruthyStr(sellerName) {
      invoiceData := invoiceData["seller_name" := JStr(sellerName.value)];
    }
    if TruthyStr(buyerName) {
      invoiceData := invoiceData["buyer_name" := JStr(buyerName.value)];
    }
    if TruthyStr(buyerTaxNo) {
      invoiceData := invoiceData["buyer_tax_no" := JStr(buyerTaxNo.value)];
    }
    assert InvoiceData(invoiceData, clientId, kind, sellerName, buyerName, buyerTaxNo, positions);
    InvoiceDataDecodes(invoiceData, clientId, kind, sellerName, buyerName, buyerTaxNo, positions);
    var payload := JObject(map["invoice" := JObject(invoiceData)]);
    assert Wrapped(payload, "invoice") == Some(invoiceData);
    call := ToolCall("POST", "/invoices.json", None, Some(payload));
  }

  // ---------------------------------------------------------------------------
  // Clients

  /** `list_clients`: paginated, with the `name` filter only when it is truthy. */
  method ListClients(name: Option<string> := None, page: int := 1, perPage: int := 50)
    returns (call: ToolCall)
    ensures call.methodName == "GET" && call.endpoint == "/clients.json" && call.json == None
    ensures call.params.Some?
    ensures call.params.value.Keys <= {"page", "per_page", "name"}
    ensures "page" in call.params.value && call.params.value["page"] == JInt(page)
    ensures "per_page" in call.params.value && call.params.value["per_page"] == JInt(perPage)
    ensures SentIfTruthy(call.params.value, "name", name)
  {
    var params := map["page" := JInt(page), "per_page" := JInt(perPage)];
    if TruthyStr(name) {
      params := params["name" := JStr(name.value)];
    }
    call := ToolCall("GET", "/clients.json", Some(params), None);
  }

  /** `get_client`: one client, addressed by its id in the path. */
  function GetClient(clientId: int): (call: ToolCall)
    ensures call.methodName == "GET" && call.params == None && call.json == None
    ensures call.endpoint == "/clients/" + IntToString(clientId) + ".json"
    ensures ParseItemPath("clients", call.endpoint) == Some(clientId)
  {
    assert "/" + "clients" + "/" == "/clients/";
    ToolCall("GET", ItemPath("clients", clientId), None, None)
  }

  /** What the API reads from a client payload. */
  datatype ClientFields = ClientFields(name: string, email: Option<string>, taxNo: Option<string>, company: bool)

  const ClientKeys: set<string> := {"name", "email", "tax_no", "company"}

  /** A nullable text field: `null` is `None`, a string is `Some`, anything else fails. */
  function NullableText(j: Json): Option<Option<string>>
  {
    match j
    case JNull => Some(None)
    case JStr(s) => Some(Some(s))
    case _ => None
  }

  /** Decodes `{"client": {...}}`; `None` when the payload has any other shape. */
  function ClientOf(body: Json): Option<ClientFields>
  {
    match Wrapped(body, "client")
    case None => None
    case Some(c) =>
      if c.Keys == ClientKeys && c["name"].JStr? && NullableText(c["email"]).Some?
         && NullableText(c["tax_no"]).Some? && c["company"].JBool?
      then Some(ClientFields(c["name"].s, NullableText(c["email"]).value,
                             NullableText(c["tax_no"]).value, c["company"].b))
      else None
  }

  /**
    `create_client`: the four keys are always sent, an unset e-mail or tax
    number as `null`, and the payload decodes back to the arguments.
   */
  function CreateClient(name: string, email: Option<string> := None, taxNo: Option<string> := None,
                        company: bool := true): (call: ToolCall)
    ensures call.methodName == "POST" && call.endpoint == "/clients.json" && call.params == None
    ensures call.json.Some? && Wrapped(call.json.value, "client").Some?
    ensures Wrapped(call.json.value, "client").value.Keys == ClientKeys
    ensures ClientOf(call.json.value) == Some(ClientFields(name, email, taxNo, company))
  {
    ToolCall("POST", "/clients.json", None,
             Some(JObject(map["client" := JObject(map["name" := JStr(name), "email" := OptStr(email),
                                                      "tax_no" := OptStr(taxNo), "company" := JBool(company)])])))
  }

  // ---------------------------------------------------------------------------
  // Products

  /** `list_products`: paginated, with `warehouse_id` only when it is truthy (so 0 is never sent). */
  method ListProducts(page: int := 1, perPage: int := 100, warehouseId: Option<int> := None)
    returns (call: ToolCall)
    ensures call.methodName == "GET" && call.endpoint == "/products.json" && call.json == None
    ensures call.params.Some?
    ensures call.params.value.Keys <= {"page", "per_page", "warehouse_id"}
    ensures "page" in call.params.value && call.params.value["page"] == JInt(page)
    ensures "per_page" in call.params.value && call.params.value["per_page"] == JInt(perPage)
    ensures IntSentIfTruthy(call.params.value, "warehouse_id", warehouseId)
  {
    var params := map["page" := JInt(page), "per_page" := JInt(perPage)];
    if TruthyInt(warehouseId) {
      params := params["warehouse_id" := JInt(warehouseId.value)];
    }
    call := ToolCall("GET", "/products.json", Some(params), None);
  }

  /** `get_product`: one product by id, with `warehouse_id` as its only possible query key. */
  method GetProduct(productId: int, warehouseId: Option<int> := None) returns (call: ToolCall)
    ensures call.methodName == "GET" && call.json == None
    ensures call.endpoint == "/products/" + IntToString(productId) + ".json"
    ensures ParseItemPath("products", call.endpoint) == Some(productId)
    ensures call.params.Some? && call.params.value.Keys <= {"warehouse_id"}
    ensures IntSentIfTruthy(call.params.value, "warehouse_id", warehouseId)
  {
    var params: map<string, Json> := map[];
    if TruthyInt(warehouseId) {
      params := params["warehouse_id" := JInt(warehouseId.value)];
    }
    assert "/" + "products" + "/" == "/products/";
    call := ToolCall("GET", ItemPath("products", productId), Some(params), None);
  }

  /** What the API reads from a product payload. */
  datatype ProductFields = ProductFields(name: string, priceGross: real, tax: int, code: Option<string>,
                                         description: Option<string>, currency: string, quantityUnit: string)

  const ProductKeys: set<string> := {"name", "price_gross", "tax", "code", "description", "currency", "quantity_unit"}

  /** Decodes `{"product": {...}}`; `None` when the payload has any other shape. */
  function ProductOf(body: Json): Option<ProductFields>
  {
    match Wrapped(body, "product")
    case None => None
    case Some(p) =>
      if p.Keys == ProductKeys && p["name"].JStr? && p["price_gross"].JFloat? && p["tax"].JInt?
         && NullableText(p["code"]).Some? && NullableText(p["description"]).Some?
         && p["currency"].JStr? && p["quantity_unit"].JStr?
      then Some(ProductFields(p["name"].s, p["price_gross"].f, p["tax"].i, NullableText(p["code"]).value,
                              NullableText(p["description"]).value, p["currency"].s, p["quantity_unit"].s))
      else None
  }

  /** `create_product`: all seven keys are always sent, and the payload decodes back to the arguments. */
  function CreateProduct(name: string, priceGross: real, tax: int, code: Option<string> := None,
                         description: Option<string> := None, currency: string := "PLN",
                         quantityUnit: string := "piece"): (call: ToolCall)
    ensures call.methodName == "POST" && call.endpoint == "/products.json" && call.params == None
    ensures call.json.Some? && Wrapped(call.json.value, "product").Some?
    ensures Wrapped(call.json.value, "product").value.Keys == ProductKeys
    ensures ProductOf(call.json.value)
            == Some(ProductFields(name, priceGross, tax, code, description, currency, quantityUnit))
  {
    ToolCall("POST", "/products.json", None,
             Some(JObject(map["product" := JObject(map["name" := JStr(name),
                                                       "price_gross" := JFloat(priceGross),
                                                       "tax" := JInt(tax),
                                                       "code" := OptStr(code),
                                                       "description" := OptStr(description),
                                                       "currency" := JStr(currency),
                                                       "quantity_unit" := JStr(quantityUnit)])])))
  }

  // ---------------------------------------------------------------------------
  // Payments

  /** `list_payments`: the page, and `include=invoices` only when invoices are asked for. */
  method ListPayments(page: int := 1, includeInvoices: bool := false) returns (call: ToolCall)
    ensures call.methodName == "GET" && call.endpoint == "/banking/payments.json" && call.json == None
    ensures call.params.Some?
    ensures call.params.value.Keys == if includeInvoices then {"page", "include"} else {"page"}
    ensures call.params.value["page"] == JInt(page)
    ensures includeInvoices ==> call.params.value["include"] == JStr("invoices")
  {
    var params := map["page" := JInt(page)];
    if includeInvoices {
      params := params["include" := JStr("invoices")];
    }
    call := ToolCall("GET", "/banking/payments.json", Some(params), None);
  }

  /** What the API reads from a payment payload. */
  datatype PaymentFields = PaymentFields(name: string, price: real, invoiceId: Option<int>,
                                         invoiceIds: Option<seq<int>>, paid: bool, kind: string)

  const PaymentKeys: set<string> := {"name", "price", "invoice_id", "invoice_ids", "paid", "kind"}

  /** A nullable integer field. */
  function NullableInt(j: Json): Option<Option<int>>
  {
    match j
    case JNull => Some(None)
    case JInt(n) => Some(Some(n))
    case _ => None
  }

  /** A nullable list of integers. */
  function NullableInts(j: Json): Option<Option<seq<int>>>
  {
    match j
    case JNull => Some(None)
    case JArray(items) =>
      if forall k :: 0 <= k < |items| ==> items[k].JInt?
      then Some(Some(seq(|items|, k requires 0 <= k < |items| && items[k].JInt? => items[k].i)))
      else None
    case _ => None
  }

  /** The JSON form of `invoice_ids`: `null` when unset. */
  function OptInts(o: Option<seq<int>>): Json
  {
    match o
    case None => JNull
    case Some(ns) => IntArray(ns)
  }

  /** `invoice_ids` survives its JSON encoding. */
  lemma OptIntsRoundTrip(o: Option<seq<int>>)
    ensures NullableInts(OptInts(o)) == Some(o)
  {
    if o.Some? {
      var items := IntArray(o.value).items;
      assert seq(|items|, k requires 0 <= k < |items| && items[k].JInt? => items[k].i) == o.value;
    }
  }

  /** Decodes `{"banking_payment": {...}}`; `None` when the payload has any other shape. */
  function PaymentOf(body: Json): Option<PaymentFields>
  {
    match Wrapped(body, "banking_payment")
    case None => None
    case Some(p) =>
      if p.Keys == PaymentKeys && p["name"].JStr? && p["price"].JFloat?
         && NullableInt(p["invoice_id"]).Some? && NullableInts(p["invoice_ids"]).Some?
         && p["paid"].JBool? && p["kind"].JStr?
      then Some(PaymentFields(p["name"].s, p["price"].f, NullableInt(p["invoice_id"]).value,
                              NullableInts(p["invoice_ids"]).value, p["paid"].b, p["kind"].s))
      else None
  }

  /**
    `create_payment`: all six keys are always sent, unset invoice links as
    `null`, and the payload decodes back to the arguments.
   */
  function CreatePayment(name: string, price: real, invoiceId: Option<int> := None,
                         invoiceIds: Option<seq<int>> := None, paid: bool := true,
                         kind: string := "api"): (call: ToolCall)
    ensures call.methodName == "POST" && call.endpoint == "/banking/payments.json" && call.params == None
    ensures call.json.Some? && Wrapped(call.json.value, "banking_payment").Some?
    ensures Wrapped(call.json.value, "banking_payment").value.Keys == PaymentKeys
    ensures PaymentOf(call.json.value) == Some(PaymentFields(name, price, invoiceId, invoiceIds, paid, kind))
  {
    var call := ToolCall("POST", "/banking/payments.json", None,
                         Some(JObject(map["banking_payment" := JObject(map["name" := JStr(name),
                                                                          "price" := JFloat(price),
                                                                          "invoice_id" := OptInt(invoiceId),
                                                                          "invoice_ids" := OptInts(invoiceIds),
                                                                          "paid" := JBool(paid),
                                                                          "kind" := JStr(kind)])])));
    OptIntsRoundTrip(invoiceIds);
    call
  }

  // ---------------------------------------------------------------------------
  // Departments

  /** `list_departments`: the collection endpoint, with no arguments. */
  function ListDepartments(): (call: ToolCall)
    ensures call.methodName == "GET" && call.params == None && call.json == None
    ensures call.endpoint == "/departments.json"
  {
    ToolCall("GET", "/departments.json", None, None)
  }

  /** `get_department`: one department, addressed by its id in the path. */
  function GetDepartment(departmentId: int): (call: ToolCall)
    ensures call.methodName == "GET" && call.params == None && call.json == None
    ensures call.endpoint == "/departments/" + IntToString(departmentId) + ".json"
    ensures ParseItemPath("departments", call.endpoint) == Some(departmentId)
  {
    assert "/" + "departments" + "/" == "/departments/";
    ToolCall("GET", ItemPath("departments", departmentId), None, None)
  }

  // ---------------------------------------------------------------------------
  // What the executor makes of a tool's call

  /**
    Every read tool's call is accepted: it becomes one GET to the base URL plus
    its endpoint, without a body, with the authenticated query.
   */
  lemma ReadCallRequest(cfg: Config, call: ToolCall)
    requires call.methodName == "GET"
    ensures var r := Prepare(cfg, call.methodName, call.endpoint, call.params, call.json);
      && r.Success? && r.value.verb == Get && r.value.body == None
      && r.value.url == BaseUrl(cfg) + call.endpoint
      && r.value.query["api_token"] == TokenValue(cfg)
  {
  }

  /**
    Every create tool's call is accepted: it becomes one POST to the base URL
    plus its endpoint, carrying the tool's payload, with the authenticated query.
   */
  lemma WriteCallRequest(cfg: Config, call: ToolCall)
    requires call.methodName == "POST"
    ensures var r := Prepare(cfg, call.methodName, call.endpoint, call.params, call.json);
      && r.Success? && r.value.verb == Post && r.value.body == call.json
      && r.value.url == BaseUrl(cfg) + call.endpoint
      && r.value.query["api_token"] == TokenValue(cfg)
  {
  }
}
