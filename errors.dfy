/**
 * The exceptions that the authentication handlers and the field validators
 * raise (the classes of globaleaks.rest.errors, whose file is not part of
 * this model), plus the one uncaught Python exception of the login path.
 */
module Errors {

  datatype Error =
    | NotAuthenticated
    | AdminSessionExpired
    | WbSessionExpired
    | ReceiverSessionExpired
    | InvalidScopeAuth
    | TorNetworkRequired
    | InvalidAuthRequest
    | InvalidInputFormat
      /** An exception the handler does not catch (the HTTP layer answers 500). */
    | Unhandled
}
