/**
 * The customer endpoint: listing customers (GET), creating one (POST) and
 * refusing every other verb. `Serve` is the request/response transition over
 * the stored collection; `CustomerFile.Handle` performs it step by step
 * against a store that may fail to be read or written.
 */
module CustomerHandler {
  import opened Wrappers
  import opened Customers
  import opened Validation

  const READ_FAILED_MESSAGE :=
    "Error getting customers from file. Check to make sure file exists and contains valid data."
  const WRITE_FAILED_MESSAGE :=
    "Error writing customers to file. Check to make sure file exists and contains valid data."
  const BODY_NOT_JSON := "Request body was not valid JSON"
  const DUPLICATE_EMAIL := "A customer with that email already exists"
  const METHOD_NOT_ALLOWED := "Method not allowed"

  /**
   * A request body: an object the framework already parsed, or text to be
   * parsed as JSON, with the parser's outcome (`None` is a parse error).
   */
  datatype Body = Object(value: Customer) | Text(decoded: Option<Customer>)

  /** What is sent back: the collection, an error body, or nothing at all. */
  datatype Payload = Listing(customers: seq<Customer>) | Failure(error: ApiError) | NoContent

  datatype Response = Response(status: int, payload: Payload)

  /** An access to the backing file: a read, or an attempted full overwrite. */
  datatype Io = Read | Write(records: seq<Customer>)

  /**
   * The result of one request: the response, the collection the file holds
   * afterwards, and the file accesses made, in order.
   */
  datatype Outcome = Outcome(response: Response, records: seq<Customer>, io: seq<Io>)

  function ErrorResponse(status: int, code: string, message: string): Response {
    Response(status, Failure(ApiError(code, message)))
  }

  /** The payload of a POST, or `None` when its text is not valid JSON. */
  function AcceptBody(body: Body): (r: Option<Customer>)
    ensures r.None? <==> body == Text(None)
    ensures body.Object? ==> r == Some(body.value)
    ensures body.Text? && body.decoded.Some? ==> r == body.decoded
  {
    match body
    case Object(c) => Some(c)
    case Text(decoded) => decoded
  }

  /**
   * One request against a file holding `records`; `readable` and `writable`
   * say whether reading and overwriting the file succeed. The collection is
   * loaded before the fields are checked, so a failed load wins over an
   * invalid payload.
   */
  function Serve(verb: string, body: Body, records: seq<Customer>, readable: bool, writable: bool): Outcome
  {
    if verb == "GET" then
      if readable then Outcome(Response(200, Listing(records)), records, [Read])
      else Outcome(ErrorResponse(500, "InternalServerError", READ_FAILED_MESSAGE), records, [Read])
    else if verb == "POST" then
      match AcceptBody(body)
      case None =>
        Outcome(ErrorResponse(400, "BadRequest", BODY_NOT_JSON), records, [])
      case Some(c) =>
        if !readable then
          Outcome(ErrorResponse(500, "InternalServerError", READ_FAILED_MESSAGE), records, [Read])
        else
          match Validate(c)
          case Some(e) => Outcome(Response(400, Failure(e)), records, [Read])
          case None =>
            if FindByEmail(records, c.email).Some? then
              Outcome(ErrorResponse(409, "DuplicateResource", DUPLICATE_EMAIL), records, [Read])
            else if writable then
              Outcome(Response(200, NoContent), [c] + records, [Read, Write([c] + records)])
            else
              Outcome(ErrorResponse(500, "InternalServerError", WRITE_FAILED_MESSAGE), records,
                      [Read, Write([c] + records)])
    else
      Outcome(ErrorResponse(405, "MethodNotAllowed", METHOD_NOT_ALLOWED), records, [])
  }

  /**
   * The backing JSON file. `records` is the collection it holds; `readable`
   * and `writable` say whether reading it and overwriting it succeed; `io`
   * records every access made to it.
   */
  class CustomerFile {
    var records: seq<Customer>
    var readable: bool
    var writable: bool
    ghost var io: seq<Io>

    constructor (records: seq<Customer>, readable: bool, writable: bool)
      ensures this.records == records && this.readable == readable && this.writable == writable
      ensures io == []
    {
      this.records := records;
      this.readable := readable;
      this.writable := writable;
      io := [];
    }

    /** Reads and decodes the whole file; `None` when that fails. */
    method Load() returns (r: Option<seq<Customer>>)
      modifies this`io
      ensures r == if readable then Some(records) else None
      ensures io == old(io) + [Read]
    {
      io := io + [Read];
      r := if readable then Some(records) else None;
    }

    /** Overwrites the whole file with `s`; `ok` is false when that fails. */
    method Save(s: seq<Customer>) returns (ok: bool)
      modifies this`records, this`io
      ensures ok == writable
      ensures records == if ok then s else old(records)
      ensures io == old(io) + [Write(s)]
    {
      io := io + [Write(s)];
      ok := writable;
      if ok {
        records := s;
      }
    }

    /** Handles one request, with the early returns of the endpoint. */
    method Handle(verb: string, body: Body) returns (response: Response)
      modifies this`records, this`io
      ensures var o := Serve(verb, body, old(records), readable, writable);
        response == o.response && records == o.records && io == old(io) + o.io
    {
      if verb == "GET" {
        var loaded := Load();
        if loaded.Some? {
          response := Response(200, Listing(loaded.value));
        } else {
          response := ErrorResponse(500, "InternalServerError", READ_FAILED_MESSAGE);
        }
      } else if verb == "POST" {
        var accepted := AcceptBody(body);
        if accepted.None? {
          response := ErrorResponse(400, "BadRequest", BODY_NOT_JSON);
          return;
        }
        var newCustomer := accepted.value;
        var loaded := Load();
        if loaded.None? {
          response := ErrorResponse(500, "InternalServerError", READ_FAILED_MESSAGE);
          return;
        }
        var customers := loaded.value;
        var invalid := Validate(newCustomer);
        if invalid.Some? {
          response := Response(400, Failure(invalid.value));
          return;
        }
        if FindByEmail(customers, newCustomer.email).Some? {
          response := ErrorResponse(409, "DuplicateResource", DUPLICATE_EMAIL);
          return;
        }
        customers := [newCustomer] + customers;
        var saved := Save(customers);
        if !saved {
          response := ErrorResponse(500, "InternalServerError", WRITE_FAILED_MESSAGE);
          return;
        }
        response := Response(200, NoContent);
      } else {
        response := ErrorResponse(405, "MethodNotAllowed", METHOD_NOT_ALLOWED);
      }
    }
  }

  /**
   * Creating a customer in an empty store and then listing returns exactly
   * that customer.
   */
  method CreateThenList() returns (created: Response, listed: Response)
    ensures created == Response(200, NoContent)
    ensures listed.status == 200 && listed.payload.Listing?
    ensures listed.payload.customers ==
      [Customer(Some("Ada"), Some("Lovelace"), Some("ada@x.com"), None)]
  {
    var ada := Customer(Some("Ada"), Some("Lovelace"), Some("ada@x.com"), None);
    var file := new CustomerFile([], true, true);
    created := file.Handle("POST", Text(Some(ada)));
    listed := file.Handle("GET", Text(None));
  }
}
