/** The request construction the client performs: a request is created from
    a method and a URI (PSR-17 `createRequest`), headers are added with PSR-7
    `withHeader`, and the JSON body is attached with `withBody`. */
module Http {
  import opened Wrappers
  import opened Json

  type Header = (string, string)

  /** `body` is None for the empty stream a new request starts with, and
      otherwise the payload whose `json_encode` the stream holds. */
  datatype Request = Request(httpMethod: string, uri: string, headers: seq<Header>, body: Option<Payload>)

  datatype Response = Response(status: int, body: string)

  /** What the PSR-18 client does with a request: a response, or an
      exception of its own, which the client lets through. */
  datatype TransportResult = Delivered(response: Response) | TransportError(cause: string)

  /** PSR-7 `getHeader($name)`: every value recorded under `name`, in order.
      The client never calls it; it serves to state properties of requests. */
  function HeaderValues(hs: seq<Header>, name: string): seq<string>
  {
    if hs == [] then [] else (if hs[0].0 == name then [hs[0].1] else []) + HeaderValues(hs[1..], name)
  }

  lemma {:induction false} HeaderValuesConcat(hs: seq<Header>, gs: seq<Header>, name: string)
    ensures HeaderValues(hs + gs, name) == HeaderValues(hs, name) + HeaderValues(gs, name)
  {
    if hs != [] {
      assert (hs + gs)[1..] == hs[1..] + gs;
      HeaderValuesConcat(hs[1..], gs, name);
    } else {
      assert hs + gs == gs;
    }
  }

  /** A name no header carries has no values. */
  lemma {:induction false} HeaderValuesAbsent(hs: seq<Header>, name: string)
    requires forall i :: 0 <= i < |hs| ==> hs[i].0 != name
    ensures HeaderValues(hs, name) == []
  {
    if hs != [] {
      HeaderValuesAbsent(hs[1..], name);
    }
  }

  /** A name only one header carries has exactly that header's value. */
  lemma {:induction false} HeaderValuesSingle(hs: seq<Header>, i: nat)
    requires i < |hs|
    requires forall j :: 0 <= j < |hs| && j != i ==> hs[j].0 != hs[i].0
    ensures HeaderValues(hs, hs[i].0) == [hs[i].1]
  {
    if i == 0 {
      HeaderValuesAbsent(hs[1..], hs[0].0);
    } else {
      HeaderValuesSingle(hs[1..], i - 1);
    }
  }

  /** The headers without any entry named `name`; the others keep their order. */
  function WithoutHeader(hs: seq<Header>, name: string): (r: seq<Header>)
    ensures HeaderValues(r, name) == []
    ensures forall n :: n != name ==> HeaderValues(r, n) == HeaderValues(hs, n)
    ensures HeaderValues(hs, name) == [] ==> r == hs
  {
    if hs == [] then []
    else if hs[0].0 == name then WithoutHeader(hs[1..], name)
    else
      var r := [hs[0]] + WithoutHeader(hs[1..], name);
      assert r[1..] == WithoutHeader(hs[1..], name);
      assert hs == [hs[0]] + hs[1..];
      r
  }

  /** `createRequest($method, $uri)`: no headers and an empty body. */
  function CreateRequest(httpMethod: string, uri: string): Request
  {
    Request(httpMethod, uri, [], None)
  }

  /** `withHeader($name, $value)`: a copy whose headers drop every entry
      named `name` and then record `value` under it. */
  function WithHeader(req: Request, name: string, value: string): Request
  {
    req.(headers := WithoutHeader(req.headers, name) + [(name, value)])
  }

  /** After `withHeader` the name holds exactly the new value, every other
      header is as it was, and a name not yet present is added at the end. */
  lemma WithHeaderSets(req: Request, name: string, value: string)
    ensures var r := WithHeader(req, name, value);
            r.httpMethod == req.httpMethod && r.uri == req.uri && r.body == req.body &&
            HeaderValues(r.headers, name) == [value] &&
            (forall n :: n != name ==> HeaderValues(r.headers, n) == HeaderValues(req.headers, n)) &&
            (HeaderValues(req.headers, name) == [] ==> r.headers == req.headers + [(name, value)])
  {
    var rest := WithoutHeader(req.headers, name);
    HeaderValuesConcat(rest, [(name, value)], name);
    forall n | n != name ensures HeaderValues(rest + [(name, value)], n) == HeaderValues(req.headers, n) {
      HeaderValuesConcat(rest, [(name, value)], n);
    }
  }

  /** `withHeader` with a name not yet present appends one header. */
  lemma WithHeaderAppends(req: Request, name: string, value: string)
    requires HeaderValues(req.headers, name) == []
    ensures WithHeader(req, name, value) == req.(headers := req.headers + [(name, value)])
  {
    WithHeaderSets(req, name, value);
  }

  /** `withBody($stream)`: a copy carrying `data` as its body. */
  function WithBody(req: Request, data: Payload): (r: Request)
  {
    req.(body := Some(data))
  }
}
