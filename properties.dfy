/**
 * What the endpoint promises, proved about `Serve`: which response each kind
 * of request gets, which outcomes leave the file alone, and that creating a
 * customer prepends exactly one record and keeps emails unique.
 */
module HandlerProperties {
  import opened Wrappers
  import opened Customers
  import opened Validation
  import opened CustomerHandler

  /** Listing reads the file once, returns all of it, and changes nothing. */
  lemma ListReturnsStore(body: Body, records: seq<Customer>, readable: bool, writable: bool)
    ensures var o := Serve("GET", body, records, readable, writable);
      o.records == records && o.io == [Read] &&
      (readable ==> o.response == Response(200, Listing(records))) &&
      (!readable ==> o.response == ErrorResponse(500, "InternalServerError", READ_FAILED_MESSAGE))
  {
  }

  /** A body that is not valid JSON is refused before the file is touched. */
  lemma MalformedBodyTouchesNothing(records: seq<Customer>, readable: bool, writable: bool)
    ensures Serve("POST", Text(None), records, readable, writable)
         == Outcome(ErrorResponse(400, "BadRequest", BODY_NOT_JSON), records, [])
  {
  }

  /** A failed load gives 500 whatever the payload holds, valid or not. */
  lemma LoadFailureWins(body: Body, records: seq<Customer>, writable: bool)
    requires AcceptBody(body).Some?
    ensures Serve("POST", body, records, false, writable)
         == Outcome(ErrorResponse(500, "InternalServerError", READ_FAILED_MESSAGE), records, [Read])
  {
  }

  /**
   * Once the file is loaded, a create is answered with the message of field
   * check `k` exactly when that check is the first one the payload fails;
   * the file is then only read.
   */
  lemma FirstFailedCheckAnswers(body: Body, records: seq<Customer>, writable: bool, k: nat)
    requires AcceptBody(body).Some?
    requires k < |CHECK_MESSAGES|
    ensures var c := AcceptBody(body).value;
      var o := Serve("POST", body, records, true, writable);
      (o.response == Response(400, Failure(BadRequest(CHECK_MESSAGES[k]))) <==>
        FailsCheck(c, k) && forall j :: 0 <= j < k ==> !FailsCheck(c, j)) &&
      (o.response.status == 400 ==> o.records == records && o.io == [Read])
  {
    FirstFailureWins(AcceptBody(body).value, k);
  }

  /**
   * A well-formed payload whose email some stored record already has is
   * answered 409, and the file is only read.
   */
  lemma DuplicateEmailConflicts(body: Body, records: seq<Customer>, writable: bool, i: nat)
    requires AcceptBody(body).Some? && WellFormed(AcceptBody(body).value)
    requires i < |records| && records[i].email == AcceptBody(body).value.email
    ensures Serve("POST", body, records, true, writable)
         == Outcome(ErrorResponse(409, "DuplicateResource", DUPLICATE_EMAIL), records, [Read])
  {
  }

  /**
   * Conversely, 409 is given only to a create whose body parses, whose file
   * loads, whose payload passes every field check and whose email some
   * stored record already has.
   */
  lemma ConflictOnlyForDuplicate(verb: string, body: Body, records: seq<Customer>, readable: bool, writable: bool)
    ensures Serve(verb, body, records, readable, writable).response.status == 409 ==>
      verb == "POST" && readable && AcceptBody(body).Some? && WellFormed(AcceptBody(body).value) &&
      exists i :: 0 <= i < |records| && records[i].email == AcceptBody(body).value.email
  {
  }

  /**
   * Every outcome other than a successful create leaves the file as it was;
   * a refusal (400, 405 or 409) does not even attempt a write, and the only
   * write ever attempted is the loaded collection with the payload in front,
   * made last.
   */
  lemma OnlySuccessChangesStore(verb: string, body: Body, records: seq<Customer>, readable: bool, writable: bool)
    ensures var o := Serve(verb, body, records, readable, writable);
      (o.records != records ==> verb == "POST" && o.response == Response(200, NoContent)) &&
      (o.response.status in {400, 405, 409} ==> o.records == records && o.io in {[], [Read]}) &&
      (forall n :: 0 <= n < |o.io| && o.io[n].Write? ==>
        n == |o.io| - 1 && verb == "POST" && AcceptBody(body).Some? &&
        o.io[n].records == [AcceptBody(body).value] + records)
  {
  }

  /**
   * A create succeeds exactly when the body parses, the file loads, every
   * field check passes, no stored record has the email and the file is
   * written; the new collection is then the payload followed by the old
   * records in their order, and the response has no body.
   */
  lemma CreateSucceedsIff(body: Body, records: seq<Customer>, readable: bool, writable: bool)
    ensures var o := Serve("POST", body, records, readable, writable);
      (o.response.status == 200 <==>
        AcceptBody(body).Some? && readable && WellFormed(AcceptBody(body).value) &&
        (forall i :: 0 <= i < |records| ==> records[i].email != AcceptBody(body).value.email) &&
        writable) &&
      (o.response.status == 200 ==>
        o.response.payload == NoContent &&
        |o.records| == |records| + 1 && o.records[0] == AcceptBody(body).value &&
        o.records[1..] == records && o.io == [Read, Write(o.records)])
  {
  }

  /**
   * A failed overwrite, after every check passed, is answered 500 with the
   * write message and leaves the file as it was; the attempted write was
   * the payload followed by the loaded records, after the one read.
   */
  lemma WriteFailureReported(body: Body, records: seq<Customer>)
    requires AcceptBody(body).Some? && WellFormed(AcceptBody(body).value)
    requires forall i :: 0 <= i < |records| ==> records[i].email != AcceptBody(body).value.email
    ensures var o := Serve("POST", body, records, true, false);
      o.response == ErrorResponse(500, "InternalServerError", WRITE_FAILED_MESSAGE) &&
      o.records == records && o.response != ErrorResponse(500, "InternalServerError", READ_FAILED_MESSAGE) &&
      o.io == [Read, Write([AcceptBody(body).value] + records)]
  {
  }

  /** Any verb other than GET and POST gets 405 and touches nothing. */
  lemma OtherVerbRefused(verb: string, body: Body, records: seq<Customer>, readable: bool, writable: bool)
    requires verb != "GET" && verb != "POST"
    ensures Serve(verb, body, records, readable, writable)
         == Outcome(ErrorResponse(405, "MethodNotAllowed", METHOD_NOT_ALLOWED), records, [])
  {
  }

  /** Pairwise distinct stored emails stay pairwise distinct across any request. */
  lemma EmailsStayDistinct(verb: string, body: Body, records: seq<Customer>, readable: bool, writable: bool)
    requires EmailsDistinct(records)
    ensures EmailsDistinct(Serve(verb, body, records, readable, writable).records)
  {
  }

  /**
   * After a successful create, listing a readable file returns the new
   * customer first, followed by the records that were there before.
   */
  lemma CreateThenListShowsNewFirst(body: Body, records: seq<Customer>, listBody: Body, writable: bool)
    requires Serve("POST", body, records, true, true).response.status == 200
    ensures var after := Serve("POST", body, records, true, true).records;
      Serve("GET", listBody, after, true, writable).response
        == Response(200, Listing([AcceptBody(body).value] + records))
  {
  }

  /**
   * Status and error code always agree: 200 carries no error, and each error
   * status has its own code.
   */
  lemma StatusMatchesCode(verb: string, body: Body, records: seq<Customer>, readable: bool, writable: bool)
    ensures var r := Serve(verb, body, records, readable, writable).response;
      r.status in {200, 400, 405, 409, 500} &&
      (r.status == 200 <==> !r.payload.Failure?) &&
      (r.status == 400 ==> r.payload.error.code == "BadRequest") &&
      (r.status == 405 ==> r.payload.error.code == "MethodNotAllowed") &&
      (r.status == 409 ==> r.payload.error.code == "DuplicateResource") &&
      (r.status == 500 ==> r.payload.error.code == "InternalServerError")
  {
  }
}
