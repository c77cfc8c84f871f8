/** The contact endpoints: each handler takes the caller's identity from the auth gate,
    builds the use-case request, calls the contact use-case (not part of this model, so
    passed in as a function) and writes the reply. */
module ContactController {
  import opened Wrappers
  import opened Model
  import opened Errors
  import opened Responses
  import opened Http
  import opened Strconv
  import opened AuthMiddleware

  const DefaultPage := 1
  const DefaultSize := 10
  const ContactIdParam := "contactId"

  /** An integer query parameter: its parsed value when it parses, otherwise the default
      (an absent parameter reads as "" and keeps the default without parsing). */
  method ParseIntParam(raw: string, default: int) returns (v: int)
    ensures raw == "" ==> v == default
    ensures Atoi(raw).None? ==> v == default
    ensures Atoi(raw).Some? ==> v == Atoi(raw).value
  {
    v := default;
    if raw != "" {
      var parsed := Atoi(raw);
      if parsed.Some? {
        v := parsed.value;
      }
    }
  }

  /** The number of pages of `size` items needed for `totalItem` items: the ceiling of
      their quotient. A negative size is passed through unchecked, and its quotient is
      rounded up as well, towards zero. */
  function TotalPage(totalItem: nat, size: int): (pages: int)
    requires size != 0
    ensures size > 0 ==> pages >= 0 && (pages - 1) * size < totalItem <= pages * size
    ensures size < 0 ==> pages <= 0 && pages * size <= totalItem < (pages - 1) * size
  {
    if size > 0 then
      var q := (totalItem + size - 1) / size;
      assert q * size <= totalItem + size - 1 < (q + 1) * size;
      q
    else
      var q := totalItem / -size;
      assert q * -size <= totalItem < (q + 1) * -size;
      assert (-q) * size == q * -size && (-q - 1) * size == (q + 1) * -size;
      -q
  }

  /** The page count is the only count satisfying the ceiling's defining inequalities. */
  lemma TotalPageIsUnique(totalItem: nat, size: int, pages: int)
    requires size > 0 ==> (pages - 1) * size < totalItem <= pages * size
    requires size < 0 ==> pages * size <= totalItem < (pages - 1) * size
    requires size != 0
    ensures pages == TotalPage(totalItem, size)
  {
    var t: int := TotalPage(totalItem, size);
    if size > 0 {
      ProductOrder(pages - 1, t, size);
      ProductOrder(t - 1, pages, size);
    } else {
      ProductOrder(-pages, 1 - t, -size);
      ProductOrder(-t, 1 - pages, -size);
    }
  }

  lemma ProductOrder(a: int, b: int, size: int)
    requires size > 0 && a * size < b * size
    ensures a < b
  {
    assert (b - a) * size == b * size - a * size;
  }

  lemma TotalPageExamples()
    ensures TotalPage(20, 10) == 2
    ensures TotalPage(20, 5) == 4
    ensures TotalPage(21, 10) == 3
    ensures TotalPage(0, 10) == 0
    ensures TotalPage(20, -5) == -4
    ensures TotalPage(21, -10) == -2
    ensures TotalPage(0, -10) == 0
  {
  }

  /** The paging metadata of a search reply: the request's page and size echoed, the total
      the use-case counted, and the page count for that total. */
  function Paging(request: SearchContactRequest, total: nat): (m: PageMetadata)
    requires request.size != 0
    ensures m.page == request.page && m.size == request.size && m.totalItem == total
    ensures m.size > 0 ==> m.totalPage >= 0 && (m.totalPage - 1) * m.size < total <= m.totalPage * m.size
    ensures m.size < 0 ==> m.totalPage <= 0 && m.totalPage * m.size <= total < (m.totalPage - 1) * m.size
  {
    PageMetadata(request.page, request.size, total, TotalPage(total, request.size))
  }

  /** The reply to a use-case result: the payload with the handler's success status, or
      the error reply. */
  function Answer<T>(result: Result<T, HandlerError>, status: int): seq<Op<WebResponse<T>>>
  {
    match result
    case Success(v) => SuccessResponse(WebResponse(v, None), status)
    case Failure(e) => ErrorResponse(e)
  }

  /** POST /api/contacts. A body that does not decode is answered 400 without calling the
      use-case; otherwise the owner is the authenticated caller whatever the body said. */
  method Create(r: Request, body: Option<CreateContactRequest>,
                create: CreateContactRequest -> Result<ContactResponse, HandlerError>)
    returns (call: Option<CreateContactRequest>, ops: seq<Op<WebResponse<ContactResponse>>>)
    requires HasUser(r)
    ensures body.None? ==> call.None? && ops == ErrorResponse(Typed(ErrBadRequest))
    ensures body.Some? ==> call == Some(body.value.(userId := GetUser(r).id))
    ensures body.Some? ==> ops == Answer(create(call.value), StatusCreated)
  {
    var auth := GetUser(r);
    if body.None? {
      return None, ErrorResponse(Typed(ErrBadRequest));
    }
    var request := body.value;
    request := request.(userId := auth.id);
    call := Some(request);
    ops := Answer(create(request), StatusCreated);
  }

  /** GET /api/contacts. Filters come from the query; page and size default to 1 and 10
      when absent or not integers and are otherwise used as parsed, with no bound; the
      owner is the authenticated caller. */
  method List(r: Request,
              search: SearchContactRequest -> Result<(seq<ContactResponse>, nat), HandlerError>)
    returns (call: SearchContactRequest, ops: seq<Op<WebResponse<seq<ContactResponse>>>>)
    requires HasUser(r)
    ensures call.userId == GetUser(r).id
    ensures call.name == QueryParam(r, "name") && call.email == QueryParam(r, "email")
    ensures call.phone == QueryParam(r, "phone")
    ensures call.page == (if Atoi(QueryParam(r, "page")).Some? then Atoi(QueryParam(r, "page")).value else DefaultPage)
    ensures call.size == (if Atoi(QueryParam(r, "size")).Some? then Atoi(QueryParam(r, "size")).value else DefaultSize)
    ensures search(call).Failure? ==> ops == ErrorResponse(search(call).error)
    ensures search(call).Success? && call.size != 0 ==>
      var (items, total) := search(call).value;
      ops == SuccessResponse(WebResponse(items, Some(Paging(call, total))), StatusOK)
  {
    var auth := GetUser(r);
    var name := QueryParam(r, "name");
    var email := QueryParam(r, "email");
    var phone := QueryParam(r, "phone");
    var page := ParseIntParam(QueryParam(r, "page"), DefaultPage);
    var size := ParseIntParam(QueryParam(r, "size"), DefaultSize);
    call := SearchContactRequest(auth.id, name, email, phone, page, size);
    match search(call)
    case Failure(e) =>
      ops := ErrorResponse(e);
    case Success((items, total)) =>
      var paging := if size != 0 then Some(Paging(call, total)) else None;
      ops := SuccessResponse(WebResponse(items, paging), StatusOK);
  }

  /** GET /api/contacts/{contactId}: the owner is the caller, the contact id the URL's. */
  method Get(r: Request, get: GetContactRequest -> Result<ContactResponse, HandlerError>)
    returns (call: GetContactRequest, ops: seq<Op<WebResponse<ContactResponse>>>)
    requires HasUser(r)
    ensures call == GetContactRequest(GetUser(r).id, UrlParam(r, ContactIdParam))
    ensures ops == Answer(get(call), StatusOK)
  {
    var auth := GetUser(r);
    call := GetContactRequest(auth.id, UrlParam(r, ContactIdParam));
    ops := Answer(get(call), StatusOK);
  }

  /** PUT /api/contacts/{contactId}. A body that does not decode is answered 400 without
      calling the use-case; otherwise owner and contact id overwrite what the body said. */
  method Update(r: Request, body: Option<UpdateContactRequest>,
                update: UpdateContactRequest -> Result<ContactResponse, HandlerError>)
    returns (call: Option<UpdateContactRequest>, ops: seq<Op<WebResponse<ContactResponse>>>)
    requires HasUser(r)
    ensures body.None? ==> call.None? && ops == ErrorResponse(Typed(ErrBadRequest))
    ensures body.Some? ==>
      call == Some(body.value.(userId := GetUser(r).id, id := UrlParam(r, ContactIdParam)))
    ensures body.Some? ==> ops == Answer(update(call.value), StatusOK)
  {
    var auth := GetUser(r);
    if body.None? {
      return None, ErrorResponse(Typed(ErrBadRequest));
    }
    var request := body.value;
    request := request.(userId := auth.id);
    request := request.(id := UrlParam(r, ContactIdParam));
    call := Some(request);
    ops := Answer(update(request), StatusOK);
  }

  /** DELETE /api/contacts/{contactId}: answered with `true` once the use-case succeeds. */
  method Delete(r: Request, delete: DeleteContactRequest -> Result<(), HandlerError>)
    returns (call: DeleteContactRequest, ops: seq<Op<WebResponse<bool>>>)
    requires HasUser(r)
    ensures call == DeleteContactRequest(GetUser(r).id, UrlParam(r, ContactIdParam))
    ensures delete(call).Failure? ==> ops == ErrorResponse(delete(call).error)
    ensures delete(call).Success? ==> ops == SuccessResponse(WebResponse(true, None), StatusOK)
  {
    var auth := GetUser(r);
    call := DeleteContactRequest(auth.id, UrlParam(r, ContactIdParam));
    match delete(call)
    case Failure(e) =>
      ops := ErrorResponse(e);
    case Success(_) =>
      ops := SuccessResponse(WebResponse(true, None), StatusOK);
  }
}
