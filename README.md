# Contact-book service: verified model of its request core

This project models, in Dafny, the request-handling core of a multi-tenant contact-book
HTTP service written in Go. Authenticated users manage their own contacts and each
contact's addresses. The model covers:

- **The address use-case** (`AddressUseCase`): Create and Update of an address, each run
  in one transaction on a store of contacts and addresses (`Repository.Store`,
  `Repository.Tx`). Each run validates the request, then follows the two-hop ownership
  chain (the caller owns the contact, the contact owns the address), then writes, then
  commits. The deferred rollback runs on every exit. Each method is proved equal to a
  pure specification (`CreateSpec`, `UpdateSpec`), and the lemmas about those state the
  service's promises: validation first, 404 for a broken chain, atomic failure, exactly
  one row added or changed, tenant isolation, integrity, idempotent update.
- **The auth gate** (`AuthMiddleware`): extracting the bearer token, the fail-closed
  decision (missing header, empty token, verification error), the 401 reply, and the
  identity handed to the next handler.
- **The contact controller** (`ContactController`): page and size parsing with their
  defaults (via a model of `strconv.Atoi`, module `Strconv`), the paging metadata with
  its ceiling page count, and the rule that the owner id always comes from the
  authenticated identity and the contact id from the URL.
- **The error taxonomy and the reply envelope** (`Errors`, `Responses`): the
  status-message table (the 4xx and 5xx codes of RFC 9110 sections 15.5 and 15.6 plus the
  registered extensions the source lists, such as 423 and 424 of RFC 4918, 425 of RFC 8470,
  428, 429, 431 and 511 of RFC 6585, and 451 of RFC 7725, with the phrases the source gives them),
  `NewError`, the predefined errors, and how an error becomes a status and a body. The
  writer calls are replayed with the semantics of an HTTP response writer
  (`Responses.Observe`), so the order of header and status is part of what is proved.
- **The converters** (`Converter`): projections from stored rows to responses.

Things the code calls but that are not part of this model are parameters:

- the request validator is a function-valued field of the use-case class;
- the user use-case's token verification is a function from token to identity or error;
- the contact use-case's operations are functions passed to the handlers;
- `uuid.NewString()` is a `freshId` argument;
- the clock behind the automatic timestamps is a `now` argument;
- database errors are the `Faults` flags.

Where the design description and the code differ, the model follows the code:

- Contact Create answers 201, not 200.
- An error that is not a taxonomy error is answered with 500 and its own text. The
  design says internal text never reaches the client; the address use-case only returns
  taxonomy errors, so there this does not happen.
- The page count is computed from floating-point values. The model uses exact integer
  ceiling division instead (see Left out).

## Model

| member | source | states |
|---|---|---|
| Converter.AddressToResponse | internal/model/converter/address_converter.go:9-18 | the response has the address's id, its five text fields and both timestamps, unchanged |
| Converter.AddressResponseHidesOwner | internal/model/converter/address_converter.go:9-18 | the owning contact id does not affect the response |
| Converter.AddressResponseDeterminesRow | internal/model/converter/address_converter.go:9-18 | two addresses with equal responses differ at most in their owning contact: nothing else is dropped |
| Converter.ContactToResponse | internal/model/converter/contact_converter.go:9-17 | the response has the contact's id, its four text fields and both timestamps, unchanged |
| Converter.ContactResponseHidesOwner | internal/model/converter/contact_converter.go:9-17 | the owning user id does not affect the response |
| Converter.ContactResponseDeterminesRow | internal/model/converter/contact_converter.go:9-17 | two contacts with equal responses differ at most in their owning user |
| Errors.Error.Text | internal/helper/error.go:8-10 | an error's text is exactly its message |
| Errors.NewError | internal/helper/error.go:12-19 | for 0 <= code < 512 (the table's length) the error keeps the code and carries the table's phrase |
| Errors.TableShape | internal/helper/error.go:110-152 | every listed code is a 4xx or 5xx code inside the table, and the largest (511) fixes its length of 512 |
| Errors.StatusMessage | internal/helper/error.go:110-152 | inside the table, a code has a non-empty phrase exactly when the table lists it |
| Errors.ReasonPhrases | internal/helper/error.go:110-152 | 400, 401, 404, 409, 500 and 511 get the table's reason phrases |
| Errors.UnlistedCodesHaveEmptyMessage | internal/helper/error.go:110-152 | unlisted codes inside the table (0, 419, 430) get the empty message |
| Errors.PredefinedClientErrors | internal/helper/error.go:67-95 | each predefined 4xx error carries the code of its comment and that code's phrase |
| Errors.PredefinedServerErrors | internal/helper/error.go:97-107 | each predefined 5xx error carries the code of its comment and that code's phrase |
| Responses.StatusFor | internal/helper/response.go:22-27 | a taxonomy error's status is its own code; any other error's status is 500 |
| Responses.ErrorResponse | internal/helper/response.go:22-39 | the writer calls, replayed, reach the client as the error's status, a JSON content type and the body {"error": text} |
| Responses.TaxonomyErrorReply | internal/helper/response.go:22-39 | an error built from any code the table lists is answered with that code and the table's phrase |
| Responses.OtherErrorReply | internal/helper/response.go:22-39 | any other error is answered with 500 and its own text |
| Responses.SuccessResponse | internal/helper/response.go:10-20 | the writer calls, replayed, reach the client as exactly the caller's status, a JSON content type and the payload |
| Responses.LateHeadersAreLost | internal/helper/response.go:12-13 | a header set after the status is not sent, which is why the content type is set first |
| AuthMiddleware.ExtractToken | internal/delivery/http/middleware/auth_middleware.go:16-22 | the token is a suffix of the header; it is shorter exactly when the header starts with "Bearer ", and then by that prefix only |
| AuthMiddleware.ExtractBearer | internal/delivery/http/middleware/auth_middleware.go:17-19 | "Bearer " + t extracts to t for every t |
| AuthMiddleware.ExtractRaw | internal/delivery/http/middleware/auth_middleware.go:16-22 | "wrong", "Bearer" and "bearer x" are returned unchanged (case-sensitive, space required); "Bearer " gives "" |
| AuthMiddleware.ExtractTrimsOnce | internal/delivery/http/middleware/auth_middleware.go:17-19 | only one prefix is trimmed: "Bearer Bearer x" gives "Bearer x", so extraction is not idempotent |
| AuthMiddleware.Decide | internal/delivery/http/middleware/auth_middleware.go:28-50 | a missing header or an empty token is refused without verification, and an identity is granted only as the successful verification of the extracted token |
| AuthMiddleware.DecideFailsClosed | internal/delivery/http/middleware/auth_middleware.go:28-55 | authenticated if and only if the header is present, the token is non-empty and verification succeeds, with the verified identity; any verification error means 401 |
| AuthMiddleware.RefusedBeforeLookup | internal/delivery/http/middleware/auth_middleware.go:28-40 | an empty header or exactly "Bearer " is refused whatever the verifier would say |
| AuthMiddleware.BearerAndRawAgree | internal/delivery/http/middleware/auth_middleware.go:16-22 | a token that does not itself start with "Bearer " gets the same verdict raw and with the prefix (for "Bearer x" the two differ, since only one prefix is trimmed) |
| AuthMiddleware.NewAuth | internal/delivery/http/middleware/auth_middleware.go:24-58 | the next handler is called exactly when the decision authenticates, with a request that differs from the incoming one only in its context and carries an identity; otherwise the reply is the Unauthorized error |
| AuthMiddleware.GetUser | internal/delivery/http/middleware/auth_middleware.go:60-62 | the identity is the one stored under the gate's context key |
| AuthMiddleware.RejectedReply | internal/delivery/http/middleware/auth_middleware.go:29-50 | a refused request gets 401, a JSON content type and {"error": "Unauthorized"}, and the next handler is not called |
| AuthMiddleware.ForwardedCarriesIdentity | internal/delivery/http/middleware/auth_middleware.go:54-62 | a forwarded request is the incoming one plus the identity, and GetUser on it returns the verified identity |
| Strconv.Atoi | internal/delivery/http/controller/contact_controller.go:58-70 | a parsed value fits a 64-bit int and comes from a digit or a sign followed by more characters |
| Strconv.AtoiOfDecimal | internal/delivery/http/controller/contact_controller.go:58-70 | every 64-bit int written in decimal, with a minus sign if negative, parses back to itself |
| Strconv.AtoiOfPlus | internal/delivery/http/controller/contact_controller.go:58-70 | a leading plus sign is accepted |
| Strconv.AtoiRejectsOverflow | internal/delivery/http/controller/contact_controller.go:58-70 | one past the largest int is an error, not a wrapped value |
| Strconv.AtoiRejectsSyntax | internal/delivery/http/controller/contact_controller.go:58-70 | "", a lone sign, letters, a decimal point or a leading space are errors |
| ContactController.ParseIntParam | internal/delivery/http/controller/contact_controller.go:58-70 | an absent or unparsable parameter keeps the default; otherwise the parsed value is used, unbounded |
| ContactController.TotalPage | internal/delivery/http/controller/contact_controller.go:92 | for size > 0, (pages - 1) * size < total <= pages * size; for size < 0, pages * size <= total < (pages - 1) * size; both say pages is the ceiling of total / size |
| ContactController.TotalPageIsUnique | internal/delivery/http/controller/contact_controller.go:92 | no other count meets those inequalities |
| ContactController.TotalPageExamples | internal/delivery/http/controller/contact_controller.go:92 | 20/10 gives 2, 20/5 gives 4, 21/10 gives 3, 0/10 gives 0, 20/-5 gives -4, 21/-10 gives -2, 0/-10 gives 0 |
| ContactController.Paging | internal/delivery/http/controller/contact_controller.go:88-93 | the metadata echoes the request's page and size, carries the use-case total, and its page count is the ceiling, for positive and negative sizes |
| ContactController.Create | internal/delivery/http/controller/contact_controller.go:30-49 | an undecodable body gets 400 and the use-case is not called; otherwise the owner is the caller whatever the body said, and the result is answered 201 or with its error |
| ContactController.List | internal/delivery/http/controller/contact_controller.go:51-100 | filters from the query, page and size defaulting to 1 and 10, the owner the caller; errors are answered as errors, success with status 200 and, for every non-zero size, the paging metadata |
| ContactController.Get | internal/delivery/http/controller/contact_controller.go:102-118 | the request is the caller's id and the URL's contact id; the result is answered 200 or with its error |
| ContactController.Update | internal/delivery/http/controller/contact_controller.go:120-141 | an undecodable body gets 400 and the use-case is not called; otherwise owner and contact id overwrite the body's |
| ContactController.Delete | internal/delivery/http/controller/contact_controller.go:143-159 | the request is the caller's id and the URL's contact id; success is answered 200 with true |
| Repository.FindByIdAndUserId | internal/usecase/address_usecase.go:46 | a contact is found only under the requested id and only if the requested user owns it, and is found whenever both hold |
| Repository.FindByIdAndContactId | internal/usecase/address_usecase.go:90 | an address is found only under the requested id and only if it belongs to the requested contact, and is found whenever both hold |
| Repository.Tx.Begin | internal/usecase/address_usecase.go:37 | a new open transaction sees the committed rows |
| Repository.Tx.FindContact | internal/usecase/address_usecase.go:46 | finds the contact only by id and owner together, in one query; a database error finds nothing |
| Repository.Tx.FindAddress | internal/usecase/address_usecase.go:90 | finds the address only by id and owning contact together; a database error finds nothing |
| Repository.Tx.CreateAddress | internal/usecase/address_usecase.go:61 | inserts the row stamped with the time, unless the id is taken or the database fails, and then changes nothing |
| Repository.Tx.UpdateAddress | internal/usecase/address_usecase.go:101 | saves the row stamped with the update time, unless the database fails |
| Repository.Tx.Commit | internal/usecase/address_usecase.go:66 | on success the store takes the transaction's rows; on failure the store is unchanged |
| Repository.Tx.Rollback | internal/usecase/address_usecase.go:38 | ends an open transaction and does nothing after a commit |
| AddressUseCase.CreateSpec | internal/usecase/address_usecase.go:36-72 | the address ids grow by the fresh id exactly on success, and a successful reply is the response of the row stored under it |
| AddressUseCase.UpdateSpec | internal/usecase/address_usecase.go:74-112 | the address ids never change, and a successful reply is the response of the row stored under the requested id |
| AddressUseCase.AddressUseCase.Create | internal/usecase/address_usecase.go:36-72 | contacts never change and the result and addresses are those of CreateSpec; the body also asserts that the deferred rollback leaves the transaction closed on every path |
| AddressUseCase.AddressUseCase.Update | internal/usecase/address_usecase.go:74-112 | contacts never change and the result and addresses are those of UpdateSpec; the body also asserts that the deferred rollback leaves the transaction closed on every path |
| AddressUseCase.CreateRejectsInvalid | internal/usecase/address_usecase.go:40-43 | an invalid request gets 400 and changes nothing, even if the contact does not exist |
| AddressUseCase.CreateNeedsOwnedContact | internal/usecase/address_usecase.go:45-49 | a contact that is absent, owned by another user, or whose lookup fails gives 404 and changes nothing |
| AddressUseCase.CreateFailsAtomically | internal/usecase/address_usecase.go:37-69 | every failure leaves the addresses as they were and is 400, 404 or 500 |
| AddressUseCase.CreateDatabaseFailureIs500 | internal/usecase/address_usecase.go:61-69 | once the caller's contact is found, a failed insert, a taken id or a failed commit gives 500 and changes nothing |
| AddressUseCase.CreateAddsExactlyOne | internal/usecase/address_usecase.go:51-71 | a success adds one row under the unused fresh id, owned by the caller's contact, with the request's text and the current time; other rows are unchanged and the reply is that row's response |
| AddressUseCase.CreateSucceedsWhenAllowed | internal/usecase/address_usecase.go:36-72 | with a valid request, an owned contact, an unused id and no database error, Create succeeds |
| AddressUseCase.CreatePreservesIntegrity | internal/usecase/address_usecase.go:51-64 | every address still belongs to an existing contact |
| AddressUseCase.UpdateRejectsInvalid | internal/usecase/address_usecase.go:78-81 | an invalid request gets 400 and changes nothing |
| AddressUseCase.UpdateSucceedsWhenAllowed | internal/usecase/address_usecase.go:74-112 | with a valid request, a contact the caller owns, an address under that contact and no database error, Update succeeds |
| AddressUseCase.UpdateNeedsBothHops | internal/usecase/address_usecase.go:83-93 | if the caller does not own the contact, or the address is absent or under another contact, or a lookup fails, the result is 404 and nothing changes |
| AddressUseCase.UpdateFailsAtomically | internal/usecase/address_usecase.go:75-109 | every failure leaves the addresses as they were and is 400, 404 or 500 |
| AddressUseCase.UpdateDatabaseFailureIs500 | internal/usecase/address_usecase.go:101-109 | once both lookups succeed, a failed save or a failed commit gives 500 and changes nothing |
| AddressUseCase.UpdateChangesOneRow | internal/usecase/address_usecase.go:95-111 | a success changes only the five text fields and the update time of the requested address; id, contact and creation time stay, and the reply is that row's response |
| AddressUseCase.UpdateIsolatesTenants | internal/usecase/address_usecase.go:83-104 | an address under a contact the caller does not own is never changed |
| AddressUseCase.UpdateIsIdempotent | internal/usecase/address_usecase.go:89-104 | repeating a successful update at the same time changes nothing more and gives the same reply (a later time moves the update time and the reply) |
| AddressUseCase.UpdatePreservesIntegrity | internal/usecase/address_usecase.go:95-104 | every address still belongs to an existing contact |
| AddressUseCase.CreatedAddressIsUpdatable | internal/usecase/address_usecase.go:36-112 | an address a user just created can be updated by that user through the same contact |

## Left out

- Configuration, bootstrap, logging and routing: process setup and dispatch only.
- The user and address controllers: they decode JSON and forward it, like the contact controller.
- The user use-case (register, login, logout, token verification), the contact use-case, and the address List, Get and Delete operations: their code is not part of this model. Token verification and the contact operations are parameters; the address operations that are not shown are not modelled.
- Request validation rules: the struct tags are not part of this model, so validity is a parameter. The only concrete evidence is an oversized postal code (42 characters) being rejected.
- Timestamps: the store stamps creation and update times automatically; the model passes the clock in as `now`.
- JSON decoding: a body either decodes to a request or fails. Encoding never fails in the model, so the path where `SuccessResponse` calls `ErrorResponse` after the status was sent is not modelled.
- Logging, and writing bytes to the connection.
- Transaction isolation and concurrency: there is one single-threaded store, and commit is all or nothing.
- ContactController.TotalPage: it uses exact integer ceiling division, which matches the source's floating-point `math.Ceil` only for totals below 2^53. Its precondition is size != 0.
- ContactController.List: when the parsed size is zero, the model's reply has no paging metadata. The source divides by a floating-point zero there and converts the infinity or NaN to int64, whose result Go leaves to the platform.
- Errors.NewError: a code outside 0..511 panics in the source; the model makes the range a precondition.
- Responses.Observe: the writer model takes any status as the final one; it does not model the panic of a status outside 100..999 or 1xx informational responses, so its replies mean final statuses 200..999 (the only ones the program writes).
- AuthMiddleware.GetUser: on a request the gate did not forward, the source panics on a failed type assertion; the model makes the identity's presence a precondition.
