# Customer directory endpoint

A model of the request handler behind `/api/customers` in a small customer
directory. The handler lists the customers kept in a JSON file (GET),
creates a customer (POST), and refuses every other verb (405). A create
goes through these steps in order:

1. it accepts the body as an object or as JSON text;
2. it loads the whole collection;
3. it checks first name, last name, email and the `@` in the email, reporting
   the first failure only;
4. it refuses an email that a stored record already has;
5. it puts the new record in front;
6. it overwrites the file.

The model has these modules:

- `Customers`: the `Customer` record and the `ApiError` body. Every field is
  an `Option<string>`, so that a missing field and an empty one can both be
  written down.
- `Validation`: the four field checks as pure functions (`Validate`, with
  `FailsCheck` as an independent per-check reference), and the
  first-match search for an existing email (`FindByEmail`).
- `CustomerHandler`: the transition function `Serve`, which maps a verb, a
  body, the stored collection and whether reading and writing the file
  succeed to a response, the collection the file holds afterwards, and the
  file accesses made. It also holds the class `CustomerFile`. Its fields are
  `records`, the flags `readable` and `writable`, and a ghost trace `io` of
  accesses. Its method `Handle` performs the request step by step with the
  handler's early returns, and its postcondition ties it to `Serve`.
- `HandlerProperties`: lemmas about `Serve` for each promise of the endpoint.

The load happens before field validation, as in the code. A load failure
therefore answers 500 even when the payload is invalid.

The code overwrites the file directly (line 108 of
`src/pages/api/customers.ts`), so a write that fails midway can leave it
truncated or corrupt. The model assumes a failed write leaves the file as it
was (see `CustomerFile.Save` under Left out).

## Model

| member | source | states |
|---|---|---|
| Validation.Validate | src/pages/api/customers.ts:62-92 | no error exactly when first name, last name and email are non-empty and the email contains `@`; any error is a `BadRequest` carrying one of the four check messages |
| Validation.WellFormedIffNoCheckFails | src/pages/api/customers.ts:62-92 | a payload is acceptable exactly when none of the four checks, each read on its own, fails |
| Validation.FirstFailureWins | src/pages/api/customers.ts:62-92 | the message of check k is reported exactly when check k fails and every earlier check passes (short-circuit order: first name, last name, email, `@`) |
| Validation.FindByEmail | src/pages/api/customers.ts:94 | finds a record exactly when some stored record's email equals the given one (exact, case-sensitive), and returns the first such record |
| Validation.PrependKeepsEmailsDistinct | src/pages/api/customers.ts:94-102 | putting in front a record whose email no stored record has keeps stored emails pairwise distinct |
| CustomerHandler.AcceptBody | src/pages/api/customers.ts:37-49 | an object body is taken as it is; a text body that is valid JSON yields its decoded value; a text body is refused exactly when it is not valid JSON |
| CustomerHandler.Serve | src/pages/api/customers.ts:16-125 | the whole handler as one transition; it has no contract of its own, and its behaviour is stated by the HandlerProperties lemmas |
| CustomerHandler.CustomerFile.Load | src/pages/api/customers.ts:8-14 | returns the whole stored collection when the file can be read, otherwise a failure; the file is not changed |
| CustomerHandler.CustomerFile.Save | src/pages/api/customers.ts:106-108 | overwrites the whole collection when the file can be written and reports whether it did |
| CustomerHandler.CustomerFile.Handle | src/pages/api/customers.ts:16-125 | the response, the new file contents and the file accesses are exactly those of `Serve` on the old contents |
| CustomerHandler.CreateThenList | src/pages/api/customers.ts:20-118 | creating Ada Lovelace in an empty file answers 200 with no body, and a following list returns exactly that one record |
| HandlerProperties.ListReturnsStore | src/pages/api/customers.ts:20-32 | GET reads once and changes nothing; it answers 200 with exactly the stored collection, or 500 with the read message when the load fails |
| HandlerProperties.MalformedBodyTouchesNothing | src/pages/api/customers.ts:37-49 | a body that is not valid JSON answers 400 "Request body was not valid JSON" without reading or writing the file |
| HandlerProperties.LoadFailureWins | src/pages/api/customers.ts:51-60 | with a parseable body and a failed load, the answer is 500 with the read message, whatever the payload holds |
| HandlerProperties.FirstFailedCheckAnswers | src/pages/api/customers.ts:62-92 | after a load, a create answers 400 with the message of check k exactly when k is the first failing check; any 400 leaves the file unchanged and only read |
| HandlerProperties.DuplicateEmailConflicts | src/pages/api/customers.ts:94-100 | a well-formed payload whose email a stored record has answers 409 "A customer with that email already exists", and the file is only read |
| HandlerProperties.ConflictOnlyForDuplicate | src/pages/api/customers.ts:94-100 | a 409 comes only from a POST whose body parses, whose file loads, whose payload passes every field check and whose email a stored record has |
| HandlerProperties.OnlySuccessChangesStore | src/pages/api/customers.ts:37-108 | only a successful create changes the file; 400, 405 and 409 attempt no write; the one write ever attempted is the payload followed by the loaded records, made last |
| HandlerProperties.CreateSucceedsIff | src/pages/api/customers.ts:94-118 | a create answers 200 exactly when the body parses, the load succeeds, all checks pass, no stored email matches and the write succeeds; the file then holds the payload followed by the old records in order, one longer, and the response has no body |
| HandlerProperties.WriteFailureReported | src/pages/api/customers.ts:106-116 | a failed overwrite after all checks answers 500 with the write message, which differs from the read message, and the file is unchanged; the attempted write was the payload followed by the loaded records, after one read |
| HandlerProperties.OtherVerbRefused | src/pages/api/customers.ts:119-124 | any verb other than GET and POST answers 405 "Method not allowed" and touches nothing |
| HandlerProperties.EmailsStayDistinct | src/pages/api/customers.ts:94-102 | if the stored emails are pairwise distinct before any request, they are afterwards |
| HandlerProperties.CreateThenListShowsNewFirst | src/pages/api/customers.ts:102-108 | after a successful create, a list of the file returns the new customer first, followed by the earlier records |
| HandlerProperties.StatusMatchesCode | src/pages/api/customers.ts:16-125 | every status is one of 200, 400, 405, 409 and 500; only 200 carries no error, and each error status carries its own code |

## Left out

- The artificial one-second delays are left out. They only affect timing.
- Real file access, the file path, and JSON parsing and serialisation are
  left out. Reading becomes the `readable` / `records` state of
  `CustomerFile`, and writing becomes `writable`. Serialising and then
  loading is taken to return the collection unchanged.
- The outcome of parsing a text body is an input (`Text(decoded)`), not a
  JSON parser.
- JavaScript duck typing is left out. A `null` body, JSON text that decodes
  to a non-object, and field values that are not strings are not modelled.
  In the code, a `null` payload throws outside any `catch`, and the framework
  answers with its own error. Fields are restricted to optional strings.
  The code also stores the payload object as it was given (lines 39, 41 and
  108), so extra keys go into the file and come back from GET. The
  four-field `Customer` drops them.
- The request method is a plain string, so a missing method is not modelled.
- The lost update between two concurrent creates is left out. Each request
  is modelled as one atomic transition.
- CustomerFile.Save: a failed overwrite leaves the file as it was. The model
  does not capture a write that fails midway and leaves the file truncated or
  corrupt.
- The page, the document shell and the theme are left out. They are
  presentation only; only the `Customer` and `ApiError` types are taken from
  the page.
