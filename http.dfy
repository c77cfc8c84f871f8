/** The parts of an incoming HTTP request the handlers read. A header, query or URL
    parameter that is absent reads as the empty string, as the router and the
    standard request accessors return it. */
module Http {
  import opened Model

  /** Success statuses of the standard library the handlers pass to the envelope. */
  const StatusOK := 200
  const StatusCreated := 201

  datatype Request = Request(
    headers: map<string, string>,
    query: map<string, string>,
    urlParams: map<string, string>,
    context: map<string, Auth>)

  function Header(r: Request, name: string): string
  {
    if name in r.headers then r.headers[name] else ""
  }

  function QueryParam(r: Request, key: string): string
  {
    if key in r.query then r.query[key] else ""
  }

  function UrlParam(r: Request, key: string): string
  {
    if key in r.urlParams then r.urlParams[key] else ""
  }
}
