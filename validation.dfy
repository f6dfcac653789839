/**
 * The pure decisions of the create path: the four field checks, applied in a
 * fixed order with the first failure reported, and the duplicate-email lookup
 * over the loaded collection.
 */
module Validation {
  import opened Wrappers
  import opened Customers

  const FIRST_NAME_REQUIRED := "First name is required"
  const LAST_NAME_REQUIRED := "Last name is required"
  const EMAIL_REQUIRED := "Email is required"
  const EMAIL_INVALID := "Email is invalid"

  /** The messages of the field checks, in the order the checks are made. */
  const CHECK_MESSAGES: seq<string> :=
    [FIRST_NAME_REQUIRED, LAST_NAME_REQUIRED, EMAIL_REQUIRED, EMAIL_INVALID]

  function BadRequest(message: string): ApiError {
    ApiError("BadRequest", message)
  }

  /** A string field is truthy: present and not the empty string. */
  predicate Present(field: Option<string>) {
    field.Some? && field.value != ""
  }

  /** The payload passes every field check. */
  predicate WellFormed(c: Customer) {
    Present(c.firstName) && Present(c.lastName) && Present(c.email) && '@' in c.email.value
  }

  /**
   * Check number `k` of the create path fails on `c`, each check read on its
   * own, without the ones before it.
   */
  predicate FailsCheck(c: Customer, k: nat)
    requires k < |CHECK_MESSAGES|
  {
    if k == 0 then !Present(c.firstName)
    else if k == 1 then !Present(c.lastName)
    else if k == 2 then !Present(c.email)
    else !(c.email.Some? && '@' in c.email.value)
  }

  /**
   * The field checks of the create path, short-circuiting: the error of the
   * first check that fails, or `None` when the payload is acceptable.
   */
  function Validate(c: Customer): (r: Option<ApiError>)
    ensures r.None? <==> WellFormed(c)
    ensures r.Some? ==> r.value.code == "BadRequest" && r.value.message in CHECK_MESSAGES
  {
    if !Present(c.firstName) then Some(BadRequest(FIRST_NAME_REQUIRED))
    else if !Present(c.lastName) then Some(BadRequest(LAST_NAME_REQUIRED))
    else if !Present(c.email) then Some(BadRequest(EMAIL_REQUIRED))
    else if '@' !in c.email.value then Some(BadRequest(EMAIL_INVALID))
    else None
  }

  /** The payload is well formed exactly when none of the four checks fails. */
  lemma WellFormedIffNoCheckFails(c: Customer)
    ensures WellFormed(c) <==> forall k :: 0 <= k < |CHECK_MESSAGES| ==> !FailsCheck(c, k)
  {
    if !WellFormed(c) {
      if !Present(c.firstName) {
        assert FailsCheck(c, 0);
      } else if !Present(c.lastName) {
        assert FailsCheck(c, 1);
      } else if !Present(c.email) {
        assert FailsCheck(c, 2);
      } else {
        assert FailsCheck(c, 3);
      }
    }
  }

  /**
   * First failure wins: `Validate` reports the message of check `k` exactly
   * when check `k` fails and every earlier check passes.
   */
  lemma FirstFailureWins(c: Customer, k: nat)
    requires k < |CHECK_MESSAGES|
    ensures Validate(c) == Some(BadRequest(CHECK_MESSAGES[k]))
        <==> FailsCheck(c, k) && forall j :: 0 <= j < k ==> !FailsCheck(c, j)
  {
    if FailsCheck(c, k) && forall j :: 0 <= j < k ==> !FailsCheck(c, j) {
      if k > 0 { assert !FailsCheck(c, 0); }
      if k > 1 { assert !FailsCheck(c, 1); }
      if k > 2 { assert !FailsCheck(c, 2); }
    }
  }

  /**
   * The first record of `s` whose email equals `email`, as the array search
   * of the create path returns it, or `None` when there is none.
   */
  function FindByEmail(s: seq<Customer>, email: Option<string>): (r: Option<Customer>)
    ensures r.Some? <==> exists i :: 0 <= i < |s| && s[i].email == email
    ensures r.Some? ==>
      exists i :: 0 <= i < |s| && s[i] == r.value && s[i].email == email &&
        forall j :: 0 <= j < i ==> s[j].email != email
  {
    if s == [] then None
    else if s[0].email == email then Some(s[0])
    else FindByEmail(s[1..], email)
  }

  /** No two records of `s` carry the same email. */
  predicate EmailsDistinct(s: seq<Customer>) {
    forall i, j :: 0 <= i < j < |s| && s[i].email.Some? ==> s[i].email != s[j].email
  }

  /**
   * Prepending a record whose email no stored record has keeps the stored
   * emails distinct.
   */
  lemma PrependKeepsEmailsDistinct(s: seq<Customer>, c: Customer)
    requires EmailsDistinct(s)
    requires FindByEmail(s, c.email).None?
    ensures EmailsDistinct([c] + s)
  {
  }
}
