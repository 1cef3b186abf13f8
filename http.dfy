/** The part of Go's net/http that the admission path uses: request headers,
    the request body as the JSON decoder sees it, and an http.ResponseWriter
    whose status is written once (the first WriteHeader wins) and whose header
    map is changed in place. */
module Http {

  datatype Option<T> = None | Some(value: T)

  type Header = map<string, string>

  /** Header.Get: the value stored under `key`, or "" when there is none. */
  function Get(h: Header, key: string): string
  {
    if key in h then h[key] else ""
  }

  /** A JSON value. Numbers, booleans and arrays are kept as their text: the
      tracking code never looks inside them. */
  datatype Json =
    | JNull
    | JString(s: string)
    | JObject(members: map<string, Json>)
    | JOther(text: string)

  /** A request body as json.Decoder sees it: either not one well-formed JSON
      value (malformed text, an empty body), or the value it holds. */
  datatype Body = Malformed | Value(v: Json)

  datatype Request = Request(httpMethod: string, path: string, header: Header, body: Body)

  const StatusOK: int := 200
  const StatusBadRequest: int := 400
  const StatusUnauthorized: int := 401
  const StatusTooManyRequests: int := 429
  const StatusInternalServerError: int := 500

  /** What a handler has done to its ResponseWriter: the first status written
      (None while nothing is written), the header map, the body bytes written,
      and whether the handler panicked (net/http then drops the connection). */
  datatype Response = Response(status: Option<int>, header: Header, body: string, aborted: bool)

  const Unwritten: Response := Response(None, map[], "", false)

  /** The status the client receives: the first one written, or 200 when the
      handler returned without writing one. */
  function Sent(resp: Response): int
  {
    if resp.status.Some? then resp.status.value else StatusOK
  }

  /** w.Header().Set(key, value) */
  function HeaderSet(resp: Response, key: string, value: string): Response
  {
    resp.(header := resp.header[key := value])
  }

  /** w.WriteHeader(code): a second call is superfluous and changes nothing. */
  function StatusWritten(resp: Response, code: int): (r: Response)
    ensures r.status == if resp.status.Some? then resp.status else Some(code)
    ensures r.header == resp.header && r.body == resp.body && r.aborted == resp.aborted
  {
    if resp.status.Some? then resp else resp.(status := Some(code))
  }

  /** w.Write(data): writes status 200 first when no status is written yet. */
  function BodyWritten(resp: Response, data: string): Response
  {
    StatusWritten(resp, StatusOK).(body := resp.body + data)
  }

  /** http.Error(w, msg, code): plain-text headers, the status, then the
      message and a newline. */
  function ErrorWritten(resp: Response, msg: string, code: int): (r: Response)
    ensures r.status == if resp.status.Some? then resp.status else Some(code)
    ensures r.body == resp.body + msg + "\n"
    ensures forall k :: k in resp.header && k != "Content-Type" && k != "X-Content-Type-Options" ==>
      k in r.header && r.header[k] == resp.header[k]
    ensures r.header.Keys == resp.header.Keys + {"Content-Type", "X-Content-Type-Options"}
  {
    var plain := HeaderSet(HeaderSet(resp, "Content-Type", "text/plain; charset=utf-8"),
                           "X-Content-Type-Options", "nosniff");
    BodyWritten(StatusWritten(plain, code), msg + "\n")
  }

  /** The http.ResponseWriter handed to one request. */
  class ResponseWriter {
    var status: Option<int>
    var header: Header
    var body: string
    var aborted: bool

    function Value(): Response
      reads this
    {
      Response(status, header, body, aborted)
    }

    constructor ()
      ensures Value() == Unwritten
    {
      status, header, body, aborted := None, map[], "", false;
    }

    method Set(key: string, value: string)
      modifies this
      ensures Value() == HeaderSet(old(Value()), key, value)
    {
      header := header[key := value];
    }

    method WriteHeader(code: int)
      modifies this
      ensures Value() == StatusWritten(old(Value()), code)
    {
      if status.None? {
        status := Some(code);
      }
    }

    method Write(data: string)
      modifies this
      ensures Value() == BodyWritten(old(Value()), data)
    {
      WriteHeader(StatusOK);
      body := body + data;
    }

    /** A panic inside the handler: the server recovers it and closes the
        connection without completing the response. */
    method Abort()
      modifies this
      ensures Value() == old(Value()).(aborted := true)
    {
      aborted := true;
    }
  }

  /** http.Error */
  method Error(w: ResponseWriter, msg: string, code: int)
    modifies w
    ensures w.Value() == ErrorWritten(old(w.Value()), msg, code)
  {
    w.Set("Content-Type", "text/plain; charset=utf-8");
    w.Set("X-Content-Type-Options", "nosniff");
    w.WriteHeader(code);
    w.Write(msg + "\n");
  }
}
