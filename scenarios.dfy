/**
  The documented behaviour of the adapter on concrete inputs, derived from
  the contracts of the executor and the tools.
 */
module Scenarios {

  import opened Wrappers
  import opened Json
  import opened Executor
  import opened Tools

  /** A 404 whose body is `{"message": "not found"}` reports that message. */
  lemma NotFoundReportsMessage()
    ensures Normalise(Response(404, "{\"message\": \"not found\"}", Some(JObject(map["message" := JStr("not found")]))))
            == Returned(JObject(map["status" := JStr("error"), "code" := JInt(404), "details" := JStr("not found")]))
  {
  }

  /** A 500 whose body is not JSON reports the raw text. */
  lemma ServerErrorReportsText()
    ensures Normalise(Response(500, "Internal Server Error", None))
            == Returned(JObject(map["status" := JStr("error"), "code" := JInt(500),
                                    "details" := JStr("Internal Server Error")]))
  {
  }

  /** A 204 is answered with the marker without decoding the (empty) body. */
  lemma NoContentNeedsNoBody(text: string)
    ensures Normalise(Response(204, text, None))
            == Returned(JObject(map["status" := JStr("success"), "message" := JStr("No content")]))
  {
  }

  /** Method names are matched after upper-casing, Python's special cases included. */
  lemma LowerCaseNamesAccepted()
    ensures Dispatch("get") == Success(Get)
    ensures Dispatch("po\U{017F}t") == Success(Post)
  {
  }

  /** A name that is not one of the five verbs is refused. */
  lemma UnknownNameRefused()
    ensures Dispatch("fetch") == Failure(UnsupportedMethod("Unsupported method: fetch"))
  {
    assert Casing.Upper("fetch") == "FETCH";
    assert "FETCH"[0] == 'F' && "PATCH"[0] == 'P';
    assert "Unsupported method: " + "fetch" == "Unsupported method: fetch";
  }

  /** `create_client(name="Acme")`: company defaults to true and unset fields are sent as null. */
  lemma CreateClientDefaults()
    ensures CreateClient("Acme").json
            == Some(JObject(map["client" := JObject(map["name" := JStr("Acme"), "email" := JNull,
                                                        "tax_no" := JNull, "company" := JBool(true)])]))
  {
  }

  /** The tool calls of the documented examples, and what is sent for them. */
  method DocumentedCalls(cfg: Config)
  {
    var invoice := CreateInvoice(7);
    var inv := Wrapped(invoice.json.value, "invoice").value;
    assert inv.Keys == {"kind", "client_id", "positions"};
    assert inv == map["kind" := JStr("vat"), "client_id" := JInt(7), "positions" := JArray([])];

    var unfiltered := ListProducts();
    assert "warehouse_id" !in unfiltered.params.value;
    var filtered := ListProducts(warehouseId := Some(3));
    assert filtered.params.value["warehouse_id"] == JInt(3);
    var zero := ListProducts(warehouseId := Some(0));
    assert "warehouse_id" !in zero.params.value;

    ReadCallRequest(cfg, zero);
    var request := Prepare(cfg, zero.methodName, zero.endpoint, zero.params, zero.json).value;
    assert request.query.Keys == {"page", "per_page", "api_token"};
    assert request.query["per_page"] == JInt(100);
  }
}
