/** The error taxonomy: an error carries a status code and the reason phrase the
    status-message table gives that code. */
module Errors {

  datatype Error = Error(code: int, message: string) {
    /** The text of the error, as the error interface reports it. */
    function Text(): (s: string)
      ensures s == message
    {
      message
    }
  }

  // Status codes of the taxonomy (RFC 9110 section 15.5, client errors, and 15.6, server errors,
  // plus the registered extensions the table also lists).
  const StatusBadRequest: int := 400
  const StatusUnauthorized: int := 401
  const StatusPaymentRequired: int := 402
  const StatusForbidden: int := 403
  const StatusNotFound: int := 404
  const StatusMethodNotAllowed: int := 405
  const StatusNotAcceptable: int := 406
  const StatusProxyAuthRequired: int := 407
  const StatusRequestTimeout: int := 408
  const StatusConflict: int := 409
  const StatusGone: int := 410
  const StatusLengthRequired: int := 411
  const StatusPreconditionFailed: int := 412
  const StatusRequestEntityTooLarge: int := 413
  const StatusRequestURITooLong: int := 414
  const StatusUnsupportedMediaType: int := 415
  const StatusRequestedRangeNotSatisfiable: int := 416
  const StatusExpectationFailed: int := 417
  const StatusTeapot: int := 418
  const StatusMisdirectedRequest: int := 421
  const StatusUnprocessableEntity: int := 422
  const StatusLocked: int := 423
  const StatusFailedDependency: int := 424
  const StatusTooEarly: int := 425
  const StatusUpgradeRequired: int := 426
  const StatusPreconditionRequired: int := 428
  const StatusTooManyRequests: int := 429
  const StatusRequestHeaderFieldsTooLarge: int := 431
  const StatusUnavailableForLegalReasons: int := 451
  const StatusInternalServerError: int := 500
  const StatusNotImplemented: int := 501
  const StatusBadGateway: int := 502
  const StatusServiceUnavailable: int := 503
  const StatusGatewayTimeout: int := 504
  const StatusHTTPVersionNotSupported: int := 505
  const StatusVariantAlsoNegotiates: int := 506
  const StatusInsufficientStorage: int := 507
  const StatusLoopDetected: int := 508
  const StatusNotExtended: int := 510
  const StatusNetworkAuthenticationRequired: int := 511


  /** The codes the status-message table has an entry for. */
  const ListedCodes: set<int> := {400, 401, 402, 403, 404, 405, 406, 407, 408, 409, 410, 411, 412, 413, 414, 415, 416, 417, 418, 421, 422, 423, 424, 425, 426, 428, 429, 431, 451, 500, 501, 502, 503, 504, 505, 506, 507, 508, 510, 511}

  /** The status-message table is a slice literal indexed up to its largest key, so it
      has that key plus one elements. */
  const TableLength: int := 512

  /** Element `code` of the status-message table: the phrase written for that index, or
      the empty string the slice literal fills in for an index without an entry. */
  function StatusMessage(code: int): (phrase: string)
    requires 0 <= code < TableLength
    ensures phrase != "" <==> code in ListedCodes
  {
    match code
    case 400 => "Bad Request"
    case 401 => "Unauthorized"
    case 402 => "Payment Required"
    case 403 => "Forbidden"
    case 404 => "Not Found"
    case 405 => "Method Not Allowed"
    case 406 => "Not Acceptable"
    case 407 => "Proxy Authentication Required"
    case 408 => "Request Timeout"
    case 409 => "Conflict"
    case 410 => "Gone"
    case 411 => "Length Required"
    case 412 => "Precondition Failed"
    case 413 => "Request Entity Too Large"
    case 414 => "Request URI Too Long"
    case 415 => "Unsupported Media Type"
    case 416 => "Requested Range Not Satisfiable"
    case 417 => "Expectation Failed"
    case 418 => "I'm a teapot"
    case 421 => "Misdirected Request"
    case 422 => "Unprocessable Entity"
    case 423 => "Locked"
    case 424 => "Failed Dependency"
    case 425 => "Too Early"
    case 426 => "Upgrade Required"
    case 428 => "Precondition Required"
    case 429 => "Too Many Requests"
    case 431 => "Request Header Fields Too Large"
    case 451 => "Unavailable For Legal Reasons"
    case 500 => "Internal Server Error"
    case 501 => "Not Implemented"
    case 502 => "Bad Gateway"
    case 503 => "Service Unavailable"
    case 504 => "Gateway Timeout"
    case 505 => "HTTP Version Not Supported"
    case 506 => "Variant Also Negotiates"
    case 507 => "Insufficient Storage"
    case 508 => "Loop Detected"
    case 510 => "Not Extended"
    case 511 => "Network Authentication Required"
    case _ => ""
  }

  /** An error for `code` whose message is the table's reason phrase. Indexing the table
      outside its bounds is a run-time panic, hence the precondition. */
  function NewError(code: int): (e: Error)
    requires 0 <= code < TableLength
    ensures e.code == code && e.message == StatusMessage(code)
  {
    Error(code, StatusMessage(code))
  }

  // The predefined errors handed out by the use-cases, the auth gate and the controllers.
  const ErrBadRequest: Error := NewError(StatusBadRequest)
  const ErrUnauthorized: Error := NewError(StatusUnauthorized)
  const ErrPaymentRequired: Error := NewError(StatusPaymentRequired)
  const ErrForbidden: Error := NewError(StatusForbidden)
  const ErrNotFound: Error := NewError(StatusNotFound)
  const ErrMethodNotAllowed: Error := NewError(StatusMethodNotAllowed)
  const ErrNotAcceptable: Error := NewError(StatusNotAcceptable)
  const ErrProxyAuthRequired: Error := NewError(StatusProxyAuthRequired)
  const ErrRequestTimeout: Error := NewError(StatusRequestTimeout)
  const ErrConflict: Error := NewError(StatusConflict)
  const ErrGone: Error := NewError(StatusGone)
  const ErrLengthRequired: Error := NewError(StatusLengthRequired)
  const ErrPreconditionFailed: Error := NewError(StatusPreconditionFailed)
  const ErrRequestEntityTooLarge: Error := NewError(StatusRequestEntityTooLarge)
  const ErrRequestURITooLong: Error := NewError(StatusRequestURITooLong)
  const ErrUnsupportedMediaType: Error := NewError(StatusUnsupportedMediaType)
  const ErrRequestedRangeNotSatisfiable: Error := NewError(StatusRequestedRangeNotSatisfiable)
  const ErrExpectationFailed: Error := NewError(StatusExpectationFailed)
  const ErrTeapot: Error := NewError(StatusTeapot)
  const ErrMisdirectedRequest: Error := NewError(StatusMisdirectedRequest)
  const ErrUnprocessableEntity: Error := NewError(StatusUnprocessableEntity)
  const ErrLocked: Error := NewError(StatusLocked)
  const ErrFailedDependency: Error := NewError(StatusFailedDependency)
  const ErrTooEarly: Error := NewError(StatusTooEarly)
  const ErrUpgradeRequired: Error := NewError(StatusUpgradeRequired)
  const ErrPreconditionRequired: Error := NewError(StatusPreconditionRequired)
  const ErrTooManyRequests: Error := NewError(StatusTooManyRequests)
  const ErrRequestHeaderFieldsTooLarge: Error := NewError(StatusRequestHeaderFieldsTooLarge)
  const ErrUnavailableForLegalReasons: Error := NewError(StatusUnavailableForLegalReasons)
  const ErrInternalServerError: Error := NewError(StatusInternalServerError)
  const ErrNotImplemented: Error := NewError(StatusNotImplemented)
  const ErrBadGateway: Error := NewError(StatusBadGateway)
  const ErrServiceUnavailable: Error := NewError(StatusServiceUnavailable)
  const ErrGatewayTimeout: Error := NewError(StatusGatewayTimeout)
  const ErrHTTPVersionNotSupported: Error := NewError(StatusHTTPVersionNotSupported)
  const ErrVariantAlsoNegotiates: Error := NewError(StatusVariantAlsoNegotiates)
  const ErrInsufficientStorage: Error := NewError(StatusInsufficientStorage)
  const ErrLoopDetected: Error := NewError(StatusLoopDetected)
  const ErrNotExtended: Error := NewError(StatusNotExtended)
  const ErrNetworkAuthenticationRequired: Error := NewError(StatusNetworkAuthenticationRequired)


  /** The table's keys: client (4xx) and server (5xx) codes, the largest being the
      table's length minus one. */
  lemma TableShape()
    ensures forall code :: code in ListedCodes ==> 400 <= code < TableLength
    ensures TableLength - 1 in ListedCodes
  {
  }

  /** NewError keeps the code and gives the canonical reason phrase. */
  lemma ReasonPhrases()
    ensures NewError(400) == Error(400, "Bad Request")
    ensures NewError(401) == Error(401, "Unauthorized")
    ensures NewError(404) == Error(404, "Not Found")
    ensures NewError(409) == Error(409, "Conflict")
    ensures NewError(500) == Error(500, "Internal Server Error")
    ensures NewError(511) == Error(511, "Network Authentication Required")
  {
  }

  /** Codes inside the table that it does not list get the empty message. */
  lemma UnlistedCodesHaveEmptyMessage()
    ensures NewError(419) == Error(419, "")
    ensures NewError(430) == Error(430, "")
    ensures NewError(0) == Error(0, "")
  {
  }

  /** Each predefined client error carries the code of its comment and its reason phrase. */
  lemma PredefinedClientErrors()
    ensures ErrBadRequest == Error(400, "Bad Request")
    ensures ErrUnauthorized == Error(401, "Unauthorized")
    ensures ErrPaymentRequired == Error(402, "Payment Required")
    ensures ErrForbidden == Error(403, "Forbidden")
    ensures ErrNotFound == Error(404, "Not Found")
    ensures ErrMethodNotAllowed == Error(405, "Method Not Allowed")
    ensures ErrNotAcceptable == Error(406, "Not Acceptable")
    ensures ErrProxyAuthRequired == Error(407, "Proxy Authentication Required")
    ensures ErrRequestTimeout == Error(408, "Request Timeout")
    ensures ErrConflict == Error(409, "Conflict")
    ensures ErrGone == Error(410, "Gone")
    ensures ErrLengthRequired == Error(411, "Length Required")
    ensures ErrPreconditionFailed == Error(412, "Precondition Failed")
    ensures ErrRequestEntityTooLarge == Error(413, "Request Entity Too Large")
    ensures ErrRequestURITooLong == Error(414, "Request URI Too Long")
    ensures ErrUnsupportedMediaType == Error(415, "Unsupported Media Type")
    ensures ErrRequestedRangeNotSatisfiable == Error(416, "Requested Range Not Satisfiable")
    ensures ErrExpectationFailed == Error(417, "Expectation Failed")
    ensures ErrTeapot == Error(418, "I'm a teapot")
    ensures ErrMisdirectedRequest == Error(421, "Misdirected Request")
    ensures ErrUnprocessableEntity == Error(422, "Unprocessable Entity")
    ensures ErrLocked == Error(423, "Locked")
    ensures ErrFailedDependency == Error(424, "Failed Dependency")
    ensures ErrTooEarly == Error(425, "Too Early")
    ensures ErrUpgradeRequired == Error(426, "Upgrade Required")
    ensures ErrPreconditionRequired == Error(428, "Precondition Required")
    ensures ErrTooManyRequests == Error(429, "Too Many Requests")
    ensures ErrRequestHeaderFieldsTooLarge == Error(431, "Request Header Fields Too Large")
    ensures ErrUnavailableForLegalReasons == Error(451, "Unavailable For Legal Reasons")
  {
  }

  /** Each predefined server error carries the code of its comment and its reason phrase. */
  lemma PredefinedServerErrors()
    ensures ErrInternalServerError == Error(500, "Internal Server Error")
    ensures ErrNotImplemented == Error(501, "Not Implemented")
    ensures ErrBadGateway == Error(502, "Bad Gateway")
    ensures ErrServiceUnavailable == Error(503, "Service Unavailable")
    ensures ErrGatewayTimeout == Error(504, "Gateway Timeout")
    ensures ErrHTTPVersionNotSupported == Error(505, "HTTP Version Not Supported")
    ensures ErrVariantAlsoNegotiates == Error(506, "Variant Also Negotiates")
    ensures ErrInsufficientStorage == Error(507, "Insufficient Storage")
    ensures ErrLoopDetected == Error(508, "Loop Detected")
    ensures ErrNotExtended == Error(510, "Not Extended")
    ensures ErrNetworkAuthenticationRequired == Error(511, "Network Authentication Required")
  {
  }
}
