/**
 * What the managers hand to the request client and what they get back.
 *
 * The request client itself (request building with base URL, version prefix and
 * credentials, the HTTP round trip, JSON decoding) is library code: it is given
 * here as the function fields of `Requester`, which answer a request with either
 * a transport failure or the raw reply text. Go strings and byte slices are both
 * `string` here, one `char` per byte, so `[]byte(s)` is `s` itself.
 */
module Api {
  import opened Outcomes

  /** The three HTTP methods the managers use. */
  datatype Method = Get | Post | Delete

  /** A JSON value as `json.Marshal` would render it; object members keep their order. */
  datatype Json =
    | JString(s: string)
    | JInt(i: int)
    | JBool(b: bool)
    | JArray(items: seq<Json>)
    | JObject(members: seq<(string, Json)>)

  /**
   * A request for the shared request client (`NewApiRequest(path, method)`, then
   * `AddQueryParam` and `SetBody`): the path is relative to the versioned base URL.
   */
  datatype ApiRequest = ApiRequest(path: string, verb: Method, query: seq<(string, string)>, body: Option<Json>)

  /** `NewApiRequest(path, method)`: no query parameters, no body. */
  function NewApiRequest(path: string, verb: Method): ApiRequest {
    ApiRequest(path, verb, [], None)
  }

  /**
   * One part of a multipart/form-data body: the `name` and optional `filename` of its
   * Content-Disposition, its optional Content-Type, and its content.
   */
  datatype Part = Part(name: string, filename: Option<string>, contentType: Option<string>, content: string)

  /** The part `multipart.Writer.WriteField(name, value)` writes. */
  function FieldPart(name: string, value: string): Part {
    Part(name, None, None, value)
  }

  /** `multipart.Writer.CreateFormFile` gives file parts this content type. */
  const OCTET_STREAM := "application/octet-stream"

  /** A call of `RequestMultipart(method, path, body, contentType)`, the body given as its parts. */
  datatype MultipartRequest = MultipartRequest(verb: Method, path: string, form: seq<Part>)

  /** A request built by hand with `http.NewRequest` and sent with `http.Client.Do`. */
  datatype RawRequest = RawRequest(verb: Method, url: string, headers: map<string, string>, body: string)

  /** What `http.Client.Do` answers: a status code and a body that may fail to be read. */
  datatype RawResponse = RawResponse(status: int, body: Fallible<string>)

  /** An effect that either delivers a value or fails with a cause. */
  datatype Fallible<+T> = Done(value: T) | Failed(cause: string)

  /** The process-wide `REQUEST_PROTOCOL`, `BASE_URL` and `API_VERSION`. */
  datatype Endpoint = Endpoint(protocol: string, baseUrl: string, apiVersion: string)

  /**
   * The request client: `Execute` for JSON requests, `RequestMultipart` for form
   * uploads, `send` for `http.Client.Do`, and the access token it holds.
   */
  datatype Requester = Requester(
    execute: ApiRequest -> Fallible<string>,
    requestMultipart: MultipartRequest -> Fallible<string>,
    send: RawRequest -> Fallible<RawResponse>,
    accessToken: string,
    endpoint: Endpoint)

  /** The errors the managers return, by kind; `Wrapped` is `fmt.Errorf("<context>: %w", inner)`. */
  datatype Error =
    | Transport(cause: string)                // the request client or the HTTP client failed
    | Io(cause: string)                       // a local stream could not be read
    | Decode(context: string)                 // json.Unmarshal refused the reply
    | MissingField(field: string, raw: string) // a decoded reply lacks the value the call returns
    | Rejected(raw: string)                   // a decoded reply says success=false
    | BadStatus(status: int, raw: string)     // an HTTP status outside [200, 300)
    | Wrapped(context: string, inner: Error)

  /** The decoded reply, when the exchange delivered text and `decode` accepted it. */
  function Decoded<T>(reply: Fallible<string>, decode: string -> Option<T>): Option<T> {
    if reply.Done? then decode(reply.value) else None
  }

  /**
   * The in-memory multipart body that `multipart.NewWriter(&buf)` fills: parts are
   * appended in the order they are created, and a part's content grows by writes to
   * it. Writing to an in-memory buffer cannot fail, so these methods have no error path.
   */
  class FormWriter {
    var parts: seq<Part>
    var closed: bool

    constructor ()
      ensures parts == [] && !closed
    {
      parts := [];
      closed := false;
    }

    /** `WriteField`: a new part without filename or content type, holding `value`. */
    method WriteField(name: string, value: string)
      requires !closed
      modifies this
      ensures parts == old(parts) + [FieldPart(name, value)]
      ensures closed == old(closed)
    {
      parts := parts + [FieldPart(name, value)];
    }

    /** `CreatePart` with the given Content-Disposition and Content-Type: a new, empty part. */
    method CreatePart(name: string, filename: Option<string>, contentType: Option<string>)
      requires !closed
      modifies this
      ensures parts == old(parts) + [Part(name, filename, contentType, "")]
      ensures closed == old(closed)
    {
      parts := parts + [Part(name, filename, contentType, "")];
    }

    /** `CreateFormFile(fieldname, filename)`: a new, empty file part of type application/octet-stream. */
    method CreateFormFile(fieldname: string, filename: string)
      requires !closed
      modifies this
      ensures parts == old(parts) + [Part(fieldname, Some(filename), Some(OCTET_STREAM), "")]
      ensures closed == old(closed)
    {
      CreatePart(fieldname, Some(filename), Some(OCTET_STREAM));
    }

    /** A write to the writer of the part created last: its content grows by `data`. */
    method Write(data: string)
      requires parts != [] && !closed
      modifies this
      ensures |parts| == |old(parts)|
      ensures parts[..|parts| - 1] == old(parts)[..|parts| - 1]
      ensures parts[|parts| - 1] == old(parts)[|parts| - 1].(content := old(parts)[|parts| - 1].content + data)
      ensures closed == old(closed)
    {
      var last := parts[|parts| - 1];
      parts := parts[..|parts| - 1] + [last.(content := last.content + data)];
    }

    /** `Close`: writes the closing boundary; the parts are final and no part may be added or written to after it. */
    method Close()
      modifies this
      ensures closed && parts == old(parts)
    {
      closed := true;
    }
  }
}
