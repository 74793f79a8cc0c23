/** The JSON replies the route handlers send and the store they may change. */
module Api {

  /** A reply body: the route's payload, or `{ error: message }`. */
  datatype Body<P> = Payload(value: P) | ErrorBody(error: string)

  datatype Reply<P> = Reply(status: int, body: Body<P>)

  /** A reply together with the table as the handler leaves it. */
  datatype Handled<P, S> = Handled(reply: Reply<P>, store: S)

  /** The ordering a listing asks for. */
  datatype Order = CreatedAtDesc

  const InternalError: string := "Internal server error"
  const Forbidden: string := "Forbidden"
  const Unauthorized: string := "Unauthorized"
  const MethodNotAllowed: string := "Method not allowed"
  const MissingFields: string := "Missing required fields"
  const InvalidPagination: string := "Invalid pagination parameters"
  const OnlySuperAdminCreatesAdmin: string := "Only SUPER_ADMIN can create ADMIN users"
  const NoSuperAdminCreation: string := "Creating SUPER_ADMIN users is not allowed"

  function Fail<P>(status: int, message: string): Reply<P> {
    Reply(status, ErrorBody(message))
  }
}
