/**
 * The receipt workflow against the tax authority's receipt API (src/fns.rs):
 * the error taxonomy, the Bill aggregate with its running total, and the
 * session that authorizes, creates a ticket and fetches the bill.
 *
 * The three remote calls are oracles: each takes the request the session
 * sends and answers with a send failure, a body that does not parse, or a
 * parsed payload. Everything the session does with those answers is modelled.
 */
module Fns {
  import opened Results

  const U64_MAX: nat := 0xFFFF_FFFF_FFFF_FFFF

  /**
   * Rust's u64. A receipt item's usize quantity is modelled as U64 too: on a
   * 32- or 64-bit target `quantity as u64` only widens, so it fits either way.
   */
  type U64 = x: nat | x <= U64_MAX

  // ---------------------------------------------------------------- errors

  datatype FnsApiError =
    | HttpError(cause: string)
    | AuthorizationError
    | TicketCreationError
    | BillFetchingError

  const HttpErrorPrefix: string := "Failed to perform request: "

  /** The Display impl of FnsApiError: only HttpError carries (and shows) a cause. */
  function Display(e: FnsApiError): (s: string)
    ensures e.HttpError? <==> |HttpErrorPrefix| <= |s| && s[..|HttpErrorPrefix|] == HttpErrorPrefix
    ensures e.HttpError? ==> s[|HttpErrorPrefix|..] == e.cause
    ensures e.AuthorizationError? ==> s == "Failed to authorize"
    ensures e.TicketCreationError? ==> s == "Failed to create ticker"
    ensures e.BillFetchingError? ==> s == "Failed to fetch bill"
  {
    match e
    case AuthorizationError => "Failed to authorize"
    case TicketCreationError => "Failed to create ticker"
    case BillFetchingError => "Failed to fetch bill"
    case HttpError(err) => HttpErrorPrefix + err
  }

  /** Distinct errors are displayed differently, so the message identifies the error. */
  lemma DisplayInjective(a: FnsApiError, b: FnsApiError)
    requires Display(a) == Display(b)
    ensures a == b
  {
  }

  /** From<reqwest::Error>: a transport error becomes HttpError with its text. */
  function FromTransportError(cause: string): (e: FnsApiError)
    ensures e.HttpError? && Display(e) == HttpErrorPrefix + cause
  {
    HttpError(cause)
  }

  // ---------------------------------------------------------------- bill

  datatype BillRecord = BillRecord(name: string, quantity: U64, price: U64)

  /** What one record adds to the bill's total, `price * quantity`. */
  function Cost(r: BillRecord): nat
  {
    r.price * r.quantity
  }

  /** The sum of `price * quantity` over the records, in minor currency units. */
  function Total(records: seq<BillRecord>): nat
  {
    if records == [] then 0 else Cost(records[0]) + Total(records[1..])
  }

  lemma {:induction false} TotalConcat(a: seq<BillRecord>, b: seq<BillRecord>)
    ensures Total(a + b) == Total(a) + Total(b)
  {
    if a == [] {
      assert a + b == b;
    } else {
      assert (a + b)[1..] == a[1..] + b;
      TotalConcat(a[1..], b);
    }
  }

  /** Appending a record raises the sum by exactly that record's cost. */
  lemma TotalAppend(records: seq<BillRecord>, r: BillRecord)
    ensures Total(records + [r]) == Total(records) + Cost(r)
  {
    TotalConcat(records, [r]);
    assert [r][1..] == [];
  }

  /** A prefix of the records never costs more than all of them. */
  lemma TotalPrefix(records: seq<BillRecord>, i: nat)
    requires i <= |records|
    ensures Total(records[..i]) <= Total(records)
  {
    TotalConcat(records[..i], records[i..]);
    assert records[..i] + records[i..] == records;
  }

  /** One more record of a list still fits under the list's total. */
  lemma TotalPrefixStep(records: seq<BillRecord>, i: nat)
    requires i < |records|
    ensures records[..i + 1] == records[..i] + [records[i]]
    ensures Total(records[..i]) + Cost(records[i]) <= Total(records)
  {
    assert records[..i + 1] == records[..i] + [records[i]];
    TotalAppend(records[..i], records[i]);
    TotalPrefix(records, i + 1);
  }

  /**
   * The Bill of src/fns.rs. Its total is kept up to date as records are
   * appended and never recomputed; Valid() is the invariant that this makes
   * it the sum of the records' costs.
   */
  class Bill {
    var records: seq<BillRecord>
    var total: U64

    ghost predicate Valid()
      reads this
    {
      total == Total(records)
    }

    /** Bill::new: no records and a zero total. */
    constructor ()
      ensures records == [] && total == 0
      ensures Valid()
    {
      records := [];
      total := 0;
    }

    /**
     * Bill::add_record: the record goes at the end, the earlier records stay
     * as they were, and the total grows by price * quantity. The caller must
     * keep the u64 total from overflowing.
     */
    method AddRecord(record: BillRecord)
      requires Valid()
      requires total + Cost(record) <= U64_MAX
      modifies this
      ensures records == old(records) + [record]
      ensures total == old(total) + Cost(record)
      ensures Valid()
    {
      TotalAppend(records, record);
      total := total + record.price * record.quantity;
      records := records + [record];
    }
  }

  // ---------------------------------------------------------------- remote API

  datatype FnsSettings = FnsSettings(
    host: string,
    inn: string,
    password: string,
    clientSecret: string,
    deviceId: string,
    deviceOs: string)

  /**
   * The JSON keys are the Rust field names (`refresh_token`, `phone`, ...),
   * except `sessionId`, which serde renames; the fields here are spelled in
   * Dafny's style.
   */
  datatype AuthResponse = AuthResponse(
    sessionId: string,
    refreshToken: string,
    phone: string,
    name: string,
    email: string,
    surname: string)

  /** `status` and `statusReal` are i64 in the source and are never looked at. */
  datatype TicketResponse = TicketResponse(kind: string, id: string, status: int, statusReal: int)

  /** One element of `ticket.document.receipt.items`; the i64 fields are unused. */
  datatype ReceiptItem = ReceiptItem(
    name: string,
    nds: int,
    ndsSum: int,
    paymentType: int,
    price: U64,
    productType: int,
    quantity: U64,
    sum: U64)

  /** The bill response, flattened to the one path the session reads. */
  datatype BillFetchResponse = BillFetchResponse(items: seq<ReceiptItem>)

  type Headers = map<string, string>

  const DeviceOsHeader: string := "Device-OS"
  const DeviceIdHeader: string := "Device-ID"
  const SessionIdHeader: string := "sessionId"

  /** The requests the session sends, each with the header map it carries. */
  datatype Request =
    | AuthCall(headers: Headers, inn: string, password: string, clientSecret: string)
    | TicketCall(headers: Headers, qr: string)
    | BillCall(headers: Headers, ticketId: string)

  /**
   * What a remote call comes back with: `send()` failed, the body did not
   * deserialize (`res.json()` failed), or the parsed payload.
   */
  datatype Reply<+T> = SendFailed(cause: string) | ParseFailed(cause: string) | Received(payload: T)

  /** The remote service: one oracle per endpoint. */
  datatype Remote = Remote(
    authorize: Request -> Reply<AuthResponse>,
    createTicket: Request -> Reply<TicketResponse>,
    fetchBill: Request -> Reply<BillFetchResponse>)

  /**
   * How each step turns its reply into a result: a send failure becomes the
   * step's own error and its cause is dropped (it is only logged), while a
   * parse failure goes through From<reqwest::Error> and keeps its text.
   */
  function StepResult<T>(reply: Reply<T>, sendError: FnsApiError): (r: Result<T, FnsApiError>)
    ensures r.Ok? <==> reply.Received?
    ensures reply.Received? ==> r.value == reply.payload
    ensures reply.SendFailed? ==> r.error == sendError
    ensures reply.ParseFailed? ==> r.error == FromTransportError(reply.cause)
  {
    match reply
    case SendFailed(_) => Err(sendError)
    case ParseFailed(cause) => Err(FromTransportError(cause))
    case Received(payload) => Ok(payload)
  }

  /** HeaderValue::from_str accepts tab and every byte from 32 up except DEL. */
  predicate ValidHeaderValue(s: string)
    ensures ValidHeaderValue(s) ==> '\n' !in s && '\r' !in s && '\0' !in s
  {
    forall i :: 0 <= i < |s| ==> s[i] == '\t' || (32 <= s[i] as int && s[i] as int != 127)
  }

  /** The header map FnsSession::new starts with. */
  function InitialHeaders(settings: FnsSettings): (h: Headers)
    ensures h.Keys == {DeviceOsHeader, DeviceIdHeader}
    ensures h[DeviceOsHeader] == settings.deviceOs && h[DeviceIdHeader] == settings.deviceId
  {
    map[DeviceOsHeader := settings.deviceOs, DeviceIdHeader := settings.deviceId]
  }

  /** The request FnsSession::authorize posts: the settings' credentials, with the current headers. */
  function AuthRequestOf(settings: FnsSettings, headers: Headers): (r: Request)
    ensures r.AuthCall? && r.headers == headers
    ensures r.inn == settings.inn && r.password == settings.password && r.clientSecret == settings.clientSecret
  {
    AuthCall(headers, settings.inn, settings.password, settings.clientSecret)
  }

  /** BillRecord::new applied to a receipt item. */
  function RecordOf(item: ReceiptItem): (r: BillRecord)
    ensures r.name == item.name && r.quantity == item.quantity && r.price == item.price
    ensures Cost(r) == item.price * item.quantity
  {
    BillRecord(item.name, item.quantity, item.price)
  }

  /** The records the bill loop builds: one per item, in the items' order. */
  function RecordsOf(items: seq<ReceiptItem>): (records: seq<BillRecord>)
    ensures |records| == |items|
    ensures forall i :: 0 <= i < |items| ==> records[i] == RecordOf(items[i])
  {
    if items == [] then [] else [RecordOf(items[0])] + RecordsOf(items[1..])
  }

  /** The requests a run sent, the header map it ended with, and its result. */
  datatype Run = Run(result: Result<seq<BillRecord>, FnsApiError>, calls: seq<Request>, headers: Headers)

  /**
   * FnsSession::fetch_bill_info as a function of the session's headers and the
   * service: authorize, add the session id to the headers, create the ticket,
   * fetch the bill. The first failing step ends the run with its error.
   */
  function Resolve(settings: FnsSettings, headers: Headers, query: string, remote: Remote): (run: Run)
    // authorization always goes first, with the headers as they were
    ensures 1 <= |run.calls| <= 3 && run.calls[0] == AuthRequestOf(settings, headers)
    // the ticket is requested only after a successful authorization ...
    ensures |run.calls| >= 2 <==> remote.authorize(run.calls[0]).Received?
    ensures |run.calls| == 1 ==> run.headers == headers
    // ... and both later requests carry the headers with the new session id
    ensures |run.calls| >= 2 ==>
      run.headers == headers[SessionIdHeader := remote.authorize(run.calls[0]).payload.sessionId] &&
      run.calls[1] == TicketCall(run.headers, query)
    // the bill is fetched only after the ticket was created, by its id
    ensures |run.calls| == 3 <==> |run.calls| >= 2 && remote.createTicket(run.calls[1]).Received?
    ensures |run.calls| == 3 ==>
      run.calls[2] == BillCall(run.headers, remote.createTicket(run.calls[1]).payload.id)
    // a bill comes out only when all three calls succeeded: never a partial one
    ensures run.result.Ok? <==> |run.calls| == 3 && remote.fetchBill(run.calls[2]).Received?
    ensures run.result.Ok? ==> run.result.value == RecordsOf(remote.fetchBill(run.calls[2]).payload.items)
    // a send failure names its step
    ensures run.result == Err(AuthorizationError) <==> remote.authorize(run.calls[0]).SendFailed?
    ensures run.result == Err(TicketCreationError) <==>
      |run.calls| >= 2 && remote.createTicket(run.calls[1]).SendFailed?
    ensures run.result == Err(BillFetchingError) <==>
      |run.calls| == 3 && remote.fetchBill(run.calls[2]).SendFailed?
    // a body that does not parse, at any step, gives HttpError with its cause
    ensures remote.authorize(run.calls[0]).ParseFailed? ==>
      run.result == Err(HttpError(remote.authorize(run.calls[0]).cause))
    ensures |run.calls| >= 2 && remote.createTicket(run.calls[1]).ParseFailed? ==>
      run.result == Err(HttpError(remote.createTicket(run.calls[1]).cause))
    ensures |run.calls| == 3 && remote.fetchBill(run.calls[2]).ParseFailed? ==>
      run.result == Err(HttpError(remote.fetchBill(run.calls[2]).cause))
  {
    var authCall := AuthRequestOf(settings, headers);
    match StepResult(remote.authorize(authCall), AuthorizationError)
    case Err(e) => Run(Err(e), [authCall], headers)
    case Ok(auth) =>
      var authorized := headers[SessionIdHeader := auth.sessionId];
      var ticketCall := TicketCall(authorized, query);
      match StepResult(remote.createTicket(ticketCall), TicketCreationError)
      case Err(e) => Run(Err(e), [authCall, ticketCall], authorized)
      case Ok(ticket) =>
        var billCall := BillCall(authorized, ticket.id);
        match StepResult(remote.fetchBill(billCall), BillFetchingError)
        case Err(e) => Run(Err(e), [authCall, ticketCall, billCall], authorized)
        case Ok(response) => Run(Ok(RecordsOf(response.items)), [authCall, ticketCall, billCall], authorized)
  }

  /**
   * What fetch_bill_info needs of the one run it makes: the session id it is
   * given parses as a header value (the unwrap of src/fns.rs:101), and the
   * bill it builds keeps its u64 total from overflowing.
   */
  predicate RunFits(settings: FnsSettings, headers: Headers, query: string, remote: Remote)
  {
    var run := Resolve(settings, headers, query, remote);
    (|run.calls| >= 2 ==> ValidHeaderValue(remote.authorize(run.calls[0]).payload.sessionId)) &&
    (run.result.Ok? ==> Total(run.result.value) <= U64_MAX)
  }

  /**
   * The session of src/fns.rs: the settings and the header map every request
   * carries. `sent` records, for the model only, each request sent.
   */
  class FnsSession {
    const settings: FnsSettings
    var headers: Headers
    ghost var sent: seq<Request>

    /** FnsSession::new: the headers hold exactly the device OS and device id. */
    constructor (settings: FnsSettings)
      requires ValidHeaderValue(settings.deviceOs) && ValidHeaderValue(settings.deviceId)
      ensures this.settings == settings
      ensures headers == InitialHeaders(settings)
      ensures sent == []
    {
      this.settings := settings;
      headers := InitialHeaders(settings);
      sent := [];
    }

    /** FnsSession::authorize: one request with the credentials and the current headers. */
    method Authorize(remote: Remote) returns (r: Result<AuthResponse, FnsApiError>)
      modifies this`sent
      ensures sent == old(sent) + [AuthRequestOf(settings, headers)]
      ensures r == StepResult(remote.authorize(AuthRequestOf(settings, headers)), AuthorizationError)
    {
      var request := AuthRequestOf(settings, headers);
      sent := sent + [request];
      r := StepResult(remote.authorize(request), AuthorizationError);
    }

    /** FnsSession::create_ticker: one request with the query and the current headers. */
    method CreateTicket(query: string, remote: Remote) returns (r: Result<TicketResponse, FnsApiError>)
      modifies this`sent
      ensures sent == old(sent) + [TicketCall(headers, query)]
      ensures r == StepResult(remote.createTicket(TicketCall(headers, query)), TicketCreationError)
    {
      var request := TicketCall(headers, query);
      sent := sent + [request];
      r := StepResult(remote.createTicket(request), TicketCreationError);
    }

    /** FnsSession::fetch_bill: one request for the ticket, with the current headers. */
    method FetchBill(ticketId: string, remote: Remote) returns (r: Result<BillFetchResponse, FnsApiError>)
      modifies this`sent
      ensures sent == old(sent) + [BillCall(headers, ticketId)]
      ensures r == StepResult(remote.fetchBill(BillCall(headers, ticketId)), BillFetchingError)
    {
      var request := BillCall(headers, ticketId);
      sent := sent + [request];
      r := StepResult(remote.fetchBill(request), BillFetchingError);
    }

    /**
     * FnsSession::fetch_bill_info: runs the three steps, stopping at the first
     * error, and builds the bill record by record. It sends exactly the
     * requests of Resolve, ends with its headers, and returns its records.
     */
    method FetchBillInfo(query: string, remote: Remote) returns (r: Result<Bill, FnsApiError>)
      requires RunFits(settings, headers, query, remote)
      modifies this
      ensures sent == old(sent) + Resolve(settings, old(headers), query, remote).calls
      ensures headers == Resolve(settings, old(headers), query, remote).headers
      ensures r.Ok? <==> Resolve(settings, old(headers), query, remote).result.Ok?
      ensures r.Ok? ==> (fresh(r.value) && r.value.Valid() &&
        r.value.records == Resolve(settings, old(headers), query, remote).result.value)
      ensures r.Err? ==> r.error == Resolve(settings, old(headers), query, remote).result.error
    {
      var auth := Authorize(remote);
      if auth.Err? {
        return Err(auth.error);
      }
      headers := headers[SessionIdHeader := auth.value.sessionId];

      var ticket := CreateTicket(query, remote);
      if ticket.Err? {
        return Err(ticket.error);
      }

      var response := FetchBill(ticket.value.id, remote);
      if response.Err? {
        return Err(response.error);
      }

      var bill := BuildBill(response.value.items);
      return Ok(bill);
    }
  }

  /** The loop at the end of fetch_bill_info: a new bill, then one add_record per receipt item. */
  method BuildBill(items: seq<ReceiptItem>) returns (bill: Bill)
    requires Total(RecordsOf(items)) <= U64_MAX
    ensures fresh(bill) && bill.Valid()
    ensures bill.records == RecordsOf(items)
  {
    bill := new Bill();
    ghost var records := RecordsOf(items);
    for i := 0 to |items|
      invariant fresh(bill) && bill.Valid()
      invariant bill.records == records[..i]
    {
      var record := RecordOf(items[i]);
      assert record == records[i];
      TotalPrefixStep(records, i);
      bill.AddRecord(record);
    }
    assert records[..|items|] == records;
  }

  /**
   * The module-level fetch_bill_info: a fresh session per query. `sent` is the
   * list of requests that went out.
   */
  method FetchBillInfo(settings: FnsSettings, query: string, remote: Remote)
      returns (r: Result<Bill, FnsApiError>, ghost sent: seq<Request>)
    requires ValidHeaderValue(settings.deviceOs) && ValidHeaderValue(settings.deviceId)
    requires RunFits(settings, InitialHeaders(settings), query, remote)
    ensures sent == Resolve(settings, InitialHeaders(settings), query, remote).calls
    ensures r.Ok? <==> Resolve(settings, InitialHeaders(settings), query, remote).result.Ok?
    ensures r.Ok? ==> (r.value.Valid() &&
      r.value.records == Resolve(settings, InitialHeaders(settings), query, remote).result.value)
    ensures r.Err? ==> r.error == Resolve(settings, InitialHeaders(settings), query, remote).result.error
  {
    var session := new FnsSession(settings);
    r := session.FetchBillInfo(query, remote);
    sent := session.sent;
  }

  /**
   * A successful run's bill holds one record per receipt item, in order, so
   * its total is the sum of the items' price * quantity.
   */
  lemma {:induction false} ResolvedTotal(settings: FnsSettings, headers: Headers, query: string, remote: Remote)
    requires Resolve(settings, headers, query, remote).result.Ok?
    ensures var run := Resolve(settings, headers, query, remote);
      var items := remote.fetchBill(run.calls[2]).payload.items;
      Total(run.result.value) == ItemsTotal(items)
  {
    var run := Resolve(settings, headers, query, remote);
    RecordsTotal(remote.fetchBill(run.calls[2]).payload.items);
  }

  /** The sum of price * quantity over receipt items, read straight off the response. */
  function ItemsTotal(items: seq<ReceiptItem>): nat
  {
    if items == [] then 0 else items[0].price * items[0].quantity + ItemsTotal(items[1..])
  }

  lemma {:induction false} RecordsTotal(items: seq<ReceiptItem>)
    ensures Total(RecordsOf(items)) == ItemsTotal(items)
  {
    if items != [] {
      assert RecordsOf(items)[1..] == RecordsOf(items[1..]);
      RecordsTotal(items[1..]);
    }
  }

  /** The end-to-end example: session "s1", ticket "t1", two cartons of milk at 150. */
  lemma MilkExample(settings: FnsSettings, query: string)
    ensures var milk := ReceiptItem("Milk", 0, 0, 0, 150, 0, 2, 300);
      var remote := Remote(
        _ => Received(AuthResponse("s1", "", "", "", "", "")),
        _ => Received(TicketResponse("", "t1", 0, 0)),
        _ => Received(BillFetchResponse([milk])));
      var run := Resolve(settings, InitialHeaders(settings), query, remote);
      run.result == Ok([BillRecord("Milk", 2, 150)]) && Total(run.result.value) == 300 &&
      run.calls[2] == BillCall(InitialHeaders(settings)[SessionIdHeader := "s1"], "t1")
  {
    var milk := ReceiptItem("Milk", 0, 0, 0, 150, 0, 2, 300);
    assert RecordsOf([milk]) == [BillRecord("Milk", 2, 150)];
  }
}
