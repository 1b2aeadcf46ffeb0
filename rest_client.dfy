/**
 * The transport layer of the account API client (rest-client.go): client settings and their
 * defaults, request construction with the `{"data": …}` envelope, and the ordered decision
 * procedure that turns a received response body into the caller's result and fills the
 * caller's `data` and `links` destinations.
 *
 * The network exchange (http.Client.Do and reading the body) and the JSON codec are not
 * modelled: they enter as oracles, and the model consumes their verdicts.
 */
module RestClient {
  import opened Wrappers

  /** A Go `error`, observed through the text its Error() method returns. */
  datatype Error = Error(message: string)

  /** Go's 64-bit `int`, also the representation of `time.Duration`. */
  type Int64 = x: int | -0x8000_0000_0000_0000 <= x < 0x8000_0000_0000_0000

  const TwoTo64: int := 0x1_0000_0000_0000_0000

  /** Two's-complement wrap-around into 64 bits, as Go's int64 arithmetic overflows. */
  function Wrap64(x: int): (r: Int64)
    ensures (x - r) % TwoTo64 == 0
    ensures -0x8000_0000_0000_0000 <= x < 0x8000_0000_0000_0000 ==> r == x
  {
    (x + 0x8000_0000_0000_0000) % TwoTo64 - 0x8000_0000_0000_0000
  }

  // ---------------------------------------------------------------------------
  // Client settings

  /** `time.Millisecond`, in nanoseconds. */
  const Millisecond: int := 1_000_000

  /** The largest millisecond count whose Duration fits in 64 bits. */
  const MaxMilliseconds: int := 0x7FFF_FFFF_FFFF_FFFF / Millisecond

  /** `time.Duration(ms) * time.Millisecond`: nanoseconds, wrapping on overflow. */
  function DurationOf(ms: Int64): (d: Int64)
    ensures -MaxMilliseconds <= ms <= MaxMilliseconds ==> d == ms * Millisecond
  {
    Wrap64(ms * Millisecond)
  }

  /** `Duration.Milliseconds()`: the whole milliseconds in `d`, truncated toward zero. */
  function Milliseconds(d: Int64): Int64 {
    var magnitude: int := if d >= 0 then d else 0 - d as int;
    if d >= 0 then magnitude / Millisecond else -(magnitude / Millisecond)
  }

  /** Within range, the configured timeout is exactly `timeout` milliseconds long. */
  lemma MillisecondsOfDuration(ms: Int64)
    requires -MaxMilliseconds <= ms <= MaxMilliseconds
    ensures Milliseconds(DurationOf(ms)) == ms
  {
    if ms < 0 {
      assert -DurationOf(ms) == (-ms) * Millisecond;
    }
  }

  /** ClientSetting: the base URL and the timeout in milliseconds. */
  datatype ClientSetting = ClientSetting(baseUrl: string, timeout: Int64)

  const DefaultBaseUrl: string := "http://accountapi:8080/v1/organisation/accounts"

  /** CLIENT_SETTING_DEFAULT. */
  const ClientSettingDefault: ClientSetting := ClientSetting(DefaultBaseUrl, 5000)

  /** The setting NewHttpClient uses: the given one, or the default when it is nil. */
  function SettingOrDefault(setting: Option<ClientSetting>): ClientSetting {
    match setting
    case None => ClientSettingDefault
    case Some(s) => s
  }

  /** A client built without settings talks to the well-known API root with a five-second timeout. */
  lemma DefaultClientSetting()
    ensures SettingOrDefault(None).baseUrl == "http://accountapi:8080/v1/organisation/accounts"
    ensures DurationOf(SettingOrDefault(None).timeout) == 5_000_000_000
    ensures Milliseconds(DurationOf(SettingOrDefault(None).timeout)) == 5000
  {
  }

  // ---------------------------------------------------------------------------
  // Requests

  datatype HttpMethod = GET | POST | DELETE

  const ContentType: string := "Content-Type"
  const JsonMediaType: string := "application/json"

  /** `ResponseBody{Data: payload}`: the envelope an outgoing payload travels in. */
  datatype RequestBody<P> = DataEnvelope(data: P)

  /** What a request carries: method, URL, optional body and header fields. */
  datatype RequestView<P> = RequestView(
    verb: HttpMethod,
    url: string,
    body: Option<RequestBody<P>>,
    header: map<string, string>)

  /**
   * The verdicts of library code outside the model: `json.Marshal` on an outgoing envelope,
   * and `http.NewRequest` on a method and URL (a malformed URL is refused there).
   */
  datatype Library<!P> = Library(
    marshal: RequestBody<P> -> Option<Error>,
    newRequest: (HttpMethod, string) -> Option<Error>)

  /** The request newHttpRequest builds, or the error that stopped it. */
  function BuildRequest<P>(verb: HttpMethod, url: string, payload: Option<P>, lib: Library<P>)
    : (r: Result<RequestView<P>, Error>)
    ensures r.Ok? ==> r.value.verb == verb && r.value.url == url
    ensures r.Ok? ==> r.value.header == map[ContentType := JsonMediaType]
    ensures r.Ok? ==> (r.value.body.Some? <==> payload.Some?)
    ensures r.Ok? && payload.Some? ==> r.value.body.value.data == payload.value
    ensures r.Err? <==>
      (payload.Some? && lib.marshal(DataEnvelope(payload.value)).Some?) || lib.newRequest(verb, url).Some?
    ensures payload.Some? && lib.marshal(DataEnvelope(payload.value)).Some? ==>
      r == Err(lib.marshal(DataEnvelope(payload.value)).value)
    ensures (payload.None? || lib.marshal(DataEnvelope(payload.value)).None?) && lib.newRequest(verb, url).Some? ==>
      r == Err(lib.newRequest(verb, url).value)
  {
    if payload.Some? && lib.marshal(DataEnvelope(payload.value)).Some? then
      Err(lib.marshal(DataEnvelope(payload.value)).value)
    else if lib.newRequest(verb, url).Some? then
      Err(lib.newRequest(verb, url).value)
    else
      var body := if payload.Some? then Some(DataEnvelope(payload.value)) else None;
      Ok(RequestView(verb, url, body, map[ContentType := JsonMediaType]))
  }

  /** An `*http.Request`: fixed method, URL and body, and a header that is set after creation. */
  class HttpRequest<P> {
    const verb: HttpMethod
    const url: string
    const body: Option<RequestBody<P>>
    var header: map<string, string>

    constructor (verb: HttpMethod, url: string, body: Option<RequestBody<P>>)
      ensures View() == RequestView(verb, url, body, map[])
    {
      this.verb := verb;
      this.url := url;
      this.body := body;
      header := map[];
    }

    function View(): RequestView<P>
      reads this
    {
      RequestView(verb, url, body, header)
    }

    /** `Header.Set`: the key now holds exactly this value. */
    method SetHeader(key: string, value: string)
      modifies this
      ensures View() == old(View()).(header := old(header)[key := value])
    {
      header := header[key := value];
    }
  }

  // ---------------------------------------------------------------------------
  // Responses

  datatype Response = Response(statusCode: int)

  /**
   * The `ResponseError{}` probe after `json.Unmarshal`: the `error_message` it holds (empty when
   * the field is absent) and whether Unmarshal reported an error, which the client ignores.
   */
  datatype ErrorProbe = ErrorProbe(message: string, failed: bool)

  /**
   * One envelope field on its way into a destination: re-marshalling the field failed,
   * decoding the re-marshalled JSON into the destination failed, or it decoded to a value.
   */
  datatype FieldDecode<T> = RemarshalFailed(error: Error) | DecodeFailed(error: Error) | Decoded(value: T)

  /** Decoding the body as a `ResponseBody` envelope, and each of its two fields. */
  datatype Envelope<D, L> =
    | EnvelopeRejected(error: Error)
    | EnvelopeDecoded(data: FieldDecode<D>, links: FieldDecode<L>)

  /** What the JSON codec makes of one response body. */
  datatype Body<D, L> = Body(probe: ErrorProbe, envelope: Envelope<D, L>)

  /** The network exchange: `Do` failed, reading the body failed, or a response and its body arrived. */
  datatype Exchange<D, L> =
    | DoFailed(error: Error)
    | ReadFailed(error: Error)
    | Received(response: Response, body: Body<D, L>)

  /** The result pair of one call, and what it wrote into the data and links destinations. */
  datatype Outcome<D, L> = Outcome(
    response: Option<Response>,
    error: Option<Error>,
    data: Option<D>,
    links: Option<L>)

  /** The success envelope is malformed for the caller's destinations. */
  predicate DecodeRejects<D, L>(e: Envelope<D, L>) {
    e.EnvelopeRejected? || e.data.DecodeFailed? || e.links.DecodeFailed?
  }

  /**
   * The ordered decision `perform` makes once the exchange is over; `decodeInto` says that the
   * caller supplied both destinations.
   */
  function Respond<D, L>(x: Exchange<D, L>, decodeInto: bool): (o: Outcome<D, L>)
    // A transport or read failure: nil response, the underlying error, nothing written.
    ensures !x.Received? ==> o == Outcome(None, Some(x.error), None, None)
    // A non-empty error_message wins, whatever the status and the envelope.
    ensures x.Received? && x.body.probe.message != "" ==>
      o == Outcome(Some(x.response), Some(Error(x.body.probe.message)), None, None)
    // Without both destinations nothing is decoded and the response comes back without error.
    ensures !decodeInto ==> o.data.None? && o.links.None?
    ensures x.Received? && x.body.probe.message == "" && !decodeInto ==>
      o == Outcome(Some(x.response), None, None, None)
    // Decoding into the destinations is strict: a malformed envelope or field is fatal.
    ensures x.Received? && x.body.probe.message == "" && decodeInto ==>
      (o.response.None? <==> DecodeRejects(x.body.envelope))
    // A nil response always comes with an error; a returned response is the original one,
    // and the only error it comes with is the API error.
    ensures o.response.None? ==> o.error.Some?
    ensures o.response.Some? ==> x.Received? && o.response.value == x.response
    ensures o.response.Some? && o.error.Some? ==> x.body.probe.message != ""
    // What is written is what the codec decoded, and links only on the success path.
    ensures o.data.Some? ==>
      decodeInto && x.Received? && x.body.envelope.EnvelopeDecoded? &&
      x.body.envelope.data == Decoded(o.data.value)
    ensures o.links.Some? ==>
      o.error.None? && decodeInto && x.Received? && x.body.envelope.EnvelopeDecoded? &&
      x.body.envelope.links == Decoded(o.links.value)
    ensures decodeInto && x.Received? && x.body.probe.message == "" && x.body.envelope.EnvelopeDecoded? ==>
      && (x.body.envelope.data.Decoded? ==> o.data == Some(x.body.envelope.data.value))
      && (x.body.envelope.links.Decoded? && !x.body.envelope.data.DecodeFailed? ==>
            o.links == Some(x.body.envelope.links.value))
  {
    match x
    case DoFailed(e) => Outcome(None, Some(e), None, None)
    case ReadFailed(e) => Outcome(None, Some(e), None, None)
    case Received(response, body) =>
      if body.probe.message != "" then
        Outcome(Some(response), Some(Error(body.probe.message)), None, None)
      else if !decodeInto then
        Outcome(Some(response), None, None, None)
      else
        match body.envelope
        case EnvelopeRejected(e) => Outcome(None, Some(e), None, None)
        case EnvelopeDecoded(data, links) =>
          var dataWritten := if data.Decoded? then Some(data.value) else None;
          if data.DecodeFailed? then
            Outcome(None, Some(data.error), None, None)
          else if links.DecodeFailed? then
            Outcome(None, Some(links.error), dataWritten, None)
          else
            Outcome(Some(response), None, dataWritten, if links.Decoded? then Some(links.value) else None)
  }

  /** Whether the probe's own Unmarshal reported an error makes no difference to the call. */
  lemma ProbeFailureIgnored<D, L>(response: Response, message: string, envelope: Envelope<D, L>, decodeInto: bool)
    ensures Respond(Received(response, Body(ErrorProbe(message, true), envelope)), decodeInto)
         == Respond(Received(response, Body(ErrorProbe(message, false), envelope)), decodeInto)
  {
  }

  /** A failed re-marshal skips that destination silently: the call still succeeds. */
  lemma RemarshalFailureSkipped<D, L>(response: Response, probe: ErrorProbe, e1: Error, e2: Error)
    requires probe.message == ""
    ensures Respond(Received(response, Body(probe, Envelope<D, L>.EnvelopeDecoded(RemarshalFailed(e1), RemarshalFailed(e2)))), true)
         == Outcome(Some(response), None, None, None)
  {
  }

  /** The data destination is written before the links are decoded, so it stays written when they fail. */
  lemma DataKeptWhenLinksDecodeFails<D, L>(response: Response, probe: ErrorProbe, d: D, e: Error)
    requires probe.message == ""
    ensures Respond(Received(response, Body(probe, Envelope<D, L>.EnvelopeDecoded(Decoded(d), DecodeFailed(e)))), true)
         == Outcome(None, Some(e), Some(d), None)
  {
  }

  /** The content of a destination after a write that may not have happened. */
  function Overwrite<T>(current: T, written: Option<T>): T {
    match written
    case None => current
    case Some(v) => v
  }

  predicate Same(a: object?, b: object?) {
    a == b
  }

  /** A caller-owned decode target: the pointer handed to `json.Unmarshal`. */
  class Destination<T> {
    var value: T

    constructor (initial: T)
      ensures value == initial
    {
      value := initial;
    }
  }

  /**
   * The destinations hold what the outcome wrote into them, in the order data then links,
   * and otherwise what they held before (a caller may pass one pointer as both).
   */
  twostate predicate Delivered<D, L>(new o: Outcome<D, L>, dataDest: Destination?<D>, linksDest: Destination?<L>)
    reads dataDest, linksDest
  {
    && (dataDest != null && !Same(dataDest, linksDest) ==> dataDest.value == Overwrite(old(dataDest.value), o.data))
    && (linksDest != null && !Same(dataDest, linksDest) ==> linksDest.value == Overwrite(old(linksDest.value), o.links))
    && (dataDest != null && Same(dataDest, linksDest) ==>
          if o.links.Some? then linksDest.value == o.links.value
          else dataDest.value == Overwrite(old(dataDest.value), o.data))
  }

  /**
   * What one Get, Post or Delete yields: a request-construction failure short-circuits with a
   * nil response; otherwise the exchange with the server is decided by Respond.
   */
  function Call<P, D, L>(
    verb: HttpMethod, url: string, payload: Option<P>, decodeInto: bool,
    lib: Library<P>, serve: (RequestView<P>, Int64) -> Exchange<D, L>, timeout: Int64)
    : (o: Outcome<D, L>)
    ensures BuildRequest(verb, url, payload, lib).Err? ==>
      o == Outcome(None, Some(BuildRequest(verb, url, payload, lib).error), None, None)
    ensures o.response.Some? ==>
      && BuildRequest(verb, url, payload, lib).Ok?
      && serve(BuildRequest(verb, url, payload, lib).value, timeout).Received?
      && o.response.value == serve(BuildRequest(verb, url, payload, lib).value, timeout).response
  {
    match BuildRequest(verb, url, payload, lib)
    case Err(e) => Outcome(None, Some(e), None, None)
    case Ok(request) => Respond(serve(request, timeout), decodeInto)
  }

  /** An `*HttpClient`: the base URL and the timeout of the `http.Client` it owns. */
  class HttpClient {
    /** `http.Client.Timeout`, in nanoseconds. */
    var timeout: Int64
    var baseUrl: string

    /** NewHttpClient. */
    constructor (setting: Option<ClientSetting>)
      ensures baseUrl == SettingOrDefault(setting).baseUrl
      ensures timeout == DurationOf(SettingOrDefault(setting).timeout)
    {
      var s := if setting.None? then ClientSettingDefault else setting.value;
      timeout := DurationOf(s.timeout);
      baseUrl := s.baseUrl;
    }

    /** newHttpRequest. */
    method NewHttpRequest<P>(verb: HttpMethod, url: string, payload: Option<P>, lib: Library<P>)
      returns (request: HttpRequest?<P>, err: Option<Error>)
      ensures BuildRequest(verb, url, payload, lib).Ok? ==>
        request != null && fresh(request) && err.None? &&
        request.View() == BuildRequest(verb, url, payload, lib).value
      ensures BuildRequest(verb, url, payload, lib).Err? ==>
        request == null && err == Some(BuildRequest(verb, url, payload, lib).error)
    {
      var body: Option<RequestBody<P>> := None;
      if payload.Some? {
        var envelope := DataEnvelope(payload.value);
        var marshalErr := lib.marshal(envelope);
        if marshalErr.Some? {
          return null, marshalErr;
        }
        body := Some(envelope);
      }
      var newErr := lib.newRequest(verb, url);
      if newErr.Some? {
        return null, newErr;
      }
      request := new HttpRequest(verb, url, body);
      request.SetHeader(ContentType, JsonMediaType);
      err := None;
    }

    /** perform: exchange the request, probe for an API error, then fill the destinations. */
    method Perform<P, D, L>(
      request: HttpRequest<P>, dataDest: Destination?<D>, linksDest: Destination?<L>,
      serve: (RequestView<P>, Int64) -> Exchange<D, L>)
      returns (response: Option<Response>, err: Option<Error>)
      modifies dataDest, linksDest
      ensures var o := Respond(serve(request.View(), timeout), dataDest != null && linksDest != null);
        response == o.response && err == o.error && Delivered(o, dataDest, linksDest)
    {
      var exchange := serve(request.View(), timeout);
      if !exchange.Received? {
        return None, Some(exchange.error);
      }
      var httpResponse, body := exchange.response, exchange.body;
      // The probe's own decode error is discarded; only its message counts.
      if body.probe.message != "" {
        return Some(httpResponse), Some(Error(body.probe.message));
      }
      err := None;
      if dataDest != null && linksDest != null {
        if body.envelope.EnvelopeRejected? {
          return None, Some(body.envelope.error);
        }
        // `encodedData, err := …` declares a new err for this block; the err returned at the
        // end is the outer one, which is nil here.
        var err: Option<Error>;
        match body.envelope.data {
          case RemarshalFailed(e) =>
            err := Some(e);
          case DecodeFailed(e) =>
            return None, Some(e);
          case Decoded(d) =>
            err := None;
            dataDest.value := d;
        }
        match body.envelope.links {
          case RemarshalFailed(e) =>
            err := Some(e);
          case DecodeFailed(e) =>
            return None, Some(e);
          case Decoded(l) =>
            err := None;
            linksDest.value := l;
        }
      }
      return Some(httpResponse), err;
    }

    method Get<P, D, L>(
      url: string, payload: Option<P>, dataDest: Destination?<D>, linksDest: Destination?<L>,
      lib: Library<P>, serve: (RequestView<P>, Int64) -> Exchange<D, L>)
      returns (response: Option<Response>, err: Option<Error>)
      modifies dataDest, linksDest
      ensures var o := Call(GET, url, payload, dataDest != null && linksDest != null, lib, serve, timeout);
        response == o.response && err == o.error && Delivered(o, dataDest, linksDest)
    {
      var request, requestErr := NewHttpRequest(GET, url, payload, lib);
      if requestErr.Some? {
        return None, requestErr;
      }
      response, err := Perform(request, dataDest, linksDest, serve);
    }

    method Post<P, D, L>(
      url: string, payload: Option<P>, dataDest: Destination?<D>, linksDest: Destination?<L>,
      lib: Library<P>, serve: (RequestView<P>, Int64) -> Exchange<D, L>)
      returns (response: Option<Response>, err: Option<Error>)
      modifies dataDest, linksDest
      ensures var o := Call(POST, url, payload, dataDest != null && linksDest != null, lib, serve, timeout);
        response == o.response && err == o.error && Delivered(o, dataDest, linksDest)
    {
      var request, requestErr := NewHttpRequest(POST, url, payload, lib);
      if requestErr.Some? {
        return None, requestErr;
      }
      response, err := Perform(request, dataDest, linksDest, serve);
    }

    /** Delete sends no payload and passes no destinations, so the body is only probed. */
    method Delete<P, D, L>(url: string, lib: Library<P>, serve: (RequestView<P>, Int64) -> Exchange<D, L>)
      returns (response: Option<Response>, err: Option<Error>)
      ensures var o := Call(DELETE, url, None, false, lib, serve, timeout);
        response == o.response && err == o.error
      ensures err.None? ==> response.Some?
    {
      var request, requestErr := NewHttpRequest(DELETE, url, None, lib);
      if requestErr.Some? {
        return None, requestErr;
      }
      response, err := Perform<P, D, L>(request, null, null, serve);
    }
  }

  /**
   * A DELETE whose body carries no error message returns the response and no error whatever its
   * status (204 and 404 alike): the caller must branch on the status.
   */
  lemma DeleteSucceedsWithoutErrorMessage<P, D, L>(
    url: string, lib: Library<P>, serve: (RequestView<P>, Int64) -> Exchange<D, L>, timeout: Int64,
    response: Response, probe: ErrorProbe, envelope: Envelope<D, L>)
    requires BuildRequest(DELETE, url, None, lib).Ok?
    requires serve(BuildRequest(DELETE, url, None, lib).value, timeout) == Received(response, Body(probe, envelope))
    requires probe.message == ""
    ensures Call(DELETE, url, None, false, lib, serve, timeout) == Outcome(Some(response), None, None, None)
    ensures BuildRequest(DELETE, url, None, lib).value.body.None?
  {
  }
}
