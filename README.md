# Fakturownia MCP adapter: a Dafny model

The adapter exposes the Fakturownia invoicing REST API as thirteen MCP tools.
Each tool turns its typed arguments into one HTTP request against
`https://<domain>.fakturownia.pl`. The helper `make_request` issues that
request and turns the response into the tool's result.

This project models the deterministic part of that path and proves what it
promises:

- `Executor` models `make_request`.
  - `AuthQuery` is the query that is sent: the caller's parameters with `api_token` forced to the configured token.
  - `Dispatch` picks the verb case-insensitively, accepts only GET, POST, PUT, PATCH and DELETE, and raises `Unsupported method: <name>` otherwise.
  - `Prepare` gives the request that is issued: verb, URL, query, and a body only for POST/PUT/PATCH.
  - `Normalise` is the result: the error record for 4xx/5xx, the no-content marker for 204, otherwise the decoded body unchanged.
  - `MakeRequest` is written step by step like the source: copy the map, overwrite the token, run the if/elif chain on the verb, then normalise. It is proved equal to those functions.
- `Tools` models the thirteen tools. Each produces a `ToolCall` that holds the method name, the endpoint, `params=` and `json=`; the tool returns `MakeRequest` of that call unchanged.
  - Tools that build a dict and then insert keys conditionally are methods.
  - Tools that are a single literal are functions.
  - Python truthiness is explicit: `TruthyStr` means set and non-empty, `TruthyInt` means set and non-zero.
  - Each create payload has a decoder (`InvoiceOf`, `ClientOf`, `ProductOf`, `PaymentOf`), and the tool's contract says that its payload decodes back to its arguments.
  - Each item path `/<resource>/<id>.json` has a parser (`ParseItemPath`), and the path is proved to parse back to its id.
- `Casing` models Python's `str.upper()` as far as the verb comparison needs it. `Decimal` models Python's `str(int)` for ids in paths.
- `Scenarios` checks the documented examples against the contracts.

The network is a parameter `send: Request -> Response`. A response is its
status, its raw text, and `Option<Json>` for its body decoded as JSON. The
environment configuration is a parameter `Config`, in which the token and
the domain may each be unset.

Points where the code behaves differently from what a reader of its docstrings might expect; the model follows the code:

- An error's `details` is whatever JSON value the body has under `message`, not necessarily a string.
- Optional query filters and invoice fields are dropped when they are falsy (`warehouse_id=0`, `period=""`), not only when they are unset.
- `list_payments` sends only `page` (and `include`); it sends no `per_page`.
- A success response (not 204) whose body is not JSON makes the tool raise. The model has this as `Raised(InvalidJson)`.
- An unknown method raises `ValueError("Unsupported method: <name>")` (`UnsupportedMethod` here) before any request is made.
- An unset domain gives the host `None.fakturownia.pl`, and an unset token is handed to the client as `None` (`JNull`). The process does not stop.

## Model

| member | source | states |
|---|---|---|
| Executor.AuthQuery | main.py:30-31 | the sent query has exactly the caller's keys plus `api_token`; `api_token` is the configured token even when the caller supplied one; every other caller key keeps its value; no parameters and an empty map give the same query |
| Executor.Dispatch | main.py:36-47 | a method name is accepted iff its upper-cased form is one of GET/POST/PUT/PATCH/DELETE; the verb chosen is the one named; otherwise the error is `Unsupported method: <name>` |
| Executor.Prepare | main.py:20-47 | the request fails iff the method is refused; otherwise the verb matches the upper-cased name, the URL is the base URL followed by the endpoint, the query is `AuthQuery` with the token, GET/DELETE never carry a body, and POST/PUT/PATCH carry exactly the caller's JSON |
| Executor.ErrorDetails | main.py:50-56 | details are the body's `message` value when the body decodes to an object that has that key, and the raw text in every other case (undecodable body, non-object, no key) |
| Executor.Normalise | main.py:49-65 | a 4xx/5xx status gives the error record with that code and those details and never raises; a non-error 204 gives the no-content marker without decoding; any other status returns the decoded body unchanged and raises only when the body is not JSON |
| Executor.MakeRequest | main.py:23-65 | the copy-then-overwrite and if/elif implementation issues no request iff `Prepare` refuses the method, and then raises its error; otherwise it issues exactly `Prepare`'s request once and returns `Normalise` of the response |
| Executor.PrepareAccepted | main.py:30-45 | once the verb named by the upper-cased method is known, the request is fully determined by configuration, endpoint, params and body |
| Executor.DispatchIgnoresCase | main.py:36-44 | upper-casing a method name before calling changes neither acceptance nor the verb chosen |
| Executor.DispatchVerbName | main.py:36-45 | each canonical verb name selects its own verb |
| Casing.UpperIdempotent | main.py:36 | upper-casing an upper-cased string changes nothing |
| Casing.UpperAppend | main.py:36 | upper-casing distributes over concatenation |
| Decimal.NatToDigits | main.py:94 | `str(n)` of a non-negative int is a non-empty string of decimal digits that starts with 0 only when it is exactly "0" |
| Decimal.IntToStringRoundTrip | main.py:94 | reading back `str(n)` gives `n` for every int, negative ones included |
| Tools.ItemPath | main.py:94 | the path is exactly `/<resource>/` + `str(id)` + `.json`, and it parses back to the id it was built from |
| Tools.ItemPathInjective | main.py:157 | two different ids never give the same item path |
| Tools.ListInvoices | main.py:72-85 | GET `/invoices.json`, no body; `page` and `per_page` are always sent (defaults 1 and 50); `period` is sent iff it is truthy, and then holds it; no other key |
| Tools.GetInvoice | main.py:89-94 | GET, no params or body, to exactly `/invoices/` + `str(id)` + `.json`, a path that parses back to the invoice id |
| Tools.PositionsOrEmpty | main.py:118 | unset positions are sent as the empty list; a given list is sent unchanged |
| Tools.InvoiceDataDecodes | main.py:115-127 | an invoice object of the shape `create_invoice` builds decodes back to the arguments, with falsy optional names dropped |
| Tools.CreateInvoice | main.py:98-128 | POST `/invoices.json`, body `{"invoice": ...}` with `kind` (default "vat"), `client_id` and `positions` always; `seller_name`, `buyer_name`, `buyer_tax_no` each present iff truthy; no other key; the body decodes back to the arguments |
| Tools.ListClients | main.py:135-148 | GET `/clients.json`; `page` and `per_page` always (defaults 1 and 50); `name` iff truthy; no other key |
| Tools.GetClient | main.py:152-157 | GET, no params or body, to exactly `/clients/` + `str(id)` + `.json`, a path that parses back to the client id |
| Tools.CreateClient | main.py:161-177 | POST `/clients.json`, body `{"client": ...}` with exactly name, email, tax_no and company (default true), unset values as null; the body decodes back to the arguments |
| Tools.ListProducts | main.py:184-196 | GET `/products.json`; `page` and `per_page` always (defaults 1 and 100); `warehouse_id` iff truthy, so 0 is never sent; no other key |
| Tools.GetProduct | main.py:200-211 | GET to exactly `/products/` + `str(id)` + `.json`, a path that parses back to the product id; the only possible query key is `warehouse_id`, sent iff truthy |
| Tools.CreateProduct | main.py:215-245 | POST `/products.json`, body `{"product": ...}` with exactly seven keys (currency "PLN" and quantity_unit "piece" by default); the body decodes back to the arguments |
| Tools.ListPayments | main.py:252-263 | GET `/banking/payments.json`; the query keys are `page`, plus `include` = "invoices" iff invoices are asked for |
| Tools.OptIntsRoundTrip | main.py:271 | a list of invoice ids, or its absence, survives its JSON encoding |
| Tools.CreatePayment | main.py:267-294 | POST `/banking/payments.json`, body `{"banking_payment": ...}` with exactly six keys (paid true and kind "api" by default), unset links as null; the body decodes back to the arguments |
| Tools.ListDepartments | main.py:301-303 | GET `/departments.json` with no params and no body |
| Tools.GetDepartment | main.py:307-309 | GET, no params or body, to exactly `/departments/` + `str(id)` + `.json`, a path that parses back to the department id |
| Tools.ReadCallRequest | main.py:33-37 | every GET tool call is accepted and issued as a GET to base URL + endpoint, without body, with the configured token |
| Tools.WriteCallRequest | main.py:33-39 | every POST tool call is accepted and issued as a POST to base URL + endpoint carrying the tool's payload, with the configured token |
| Scenarios.NotFoundReportsMessage | main.py:49-61 | a 404 with body `{"message": "not found"}` gives `{"status": "error", "code": 404, "details": "not found"}` |
| Scenarios.ServerErrorReportsText | main.py:49-61 | a 500 whose body is not JSON gives the error record with the raw text as details |
| Scenarios.NoContentNeedsNoBody | main.py:63-64 | a 204 gives `{"status": "success", "message": "No content"}` whatever its body |
| Scenarios.LowerCaseNamesAccepted | main.py:36-39 | "get" selects GET, and "poſt" (long s) selects POST |
| Scenarios.UnknownNameRefused | main.py:46-47 | "fetch" is refused with `Unsupported method: fetch` |
| Scenarios.CreateClientDefaults | main.py:161-177 | `create_client("Acme")` sends `{"client": {"name": "Acme", "email": null, "tax_no": null, "company": true}}` |

## Left out

- The HTTP client call, its 30-second timeout and async/await: `send` is a total function, so connection failures and timeouts (which propagate out of the tool) are not modelled.
- JSON decoding of the response: `Response.parsed` is given together with `Response.text`, and nothing ties the two together.
- The encoding of the query string and body on the wire (how httpx renders `None`, booleans and lists in a URL) is not modelled; the model stops at the maps handed to the client.
- FastMCP server construction, tool registration, argument coercion by the framework, and `mcp.run()`: these are framework plumbing.
- Loading `.env`, reading the environment and the start-up warning print: the configuration is the `Config` parameter.
- Python floats (`price_gross`, `price`) are Dafny `real` values that are passed through and never computed with; float rounding is not modelled.
- Casing.Upper: only ASCII letters and the non-ASCII characters whose upper-case form is ASCII (dotless i, long s, sharp s, the ligatures U+FB00 to U+FB06) are mapped. Every other character is kept as it is, which differs from `str.upper()` on other lower-case letters (é becomes É) but never changes whether the result is one of the five verb names.
- Python `bool` values passed where an `int` is expected (a `bool` is an `int` in Python) are not modelled; ids and pages are `int`.
- The pm2 deployment file ecosystem.config.js holds no logic.
