/**
 * The record types shared by the page and the endpoint: a customer and the
 * error body the endpoint sends back.
 */
module Customers {
  import opened Wrappers

  /**
   * A customer as it arrives in a request body and as it is kept in the
   * store. Each field is optional, so that a missing field (`None`) and an
   * empty one (`Some("")`) can both be written down.
   */
  datatype Customer = Customer(
    firstName: Option<string>,
    lastName: Option<string>,
    email: Option<string>,
    businessName: Option<string>)

  /** The JSON error body: a machine-readable code and a user-facing message. */
  datatype ApiError = ApiError(code: string, message: string)
}
