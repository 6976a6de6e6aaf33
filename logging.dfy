/**
 * The request-logging middleware of pkg/middleware: the status-recording
 * response wrapper, the header fallbacks for the real IP and the request id,
 * the two map formatters, the content-type allow-list, and the decisions of
 * WithLogger's handler (read the request body or not, answer 500 or 400 or
 * let the request through, set the correlation headers, observe the
 * response without changing it).
 *
 * JSON, XML and form parsing are predicates handed in as a Parsers value;
 * the generated UUID and the span's identifiers are handed in as values.
 * Log emission itself is not modelled; the records the handler would log are
 * returned instead.
 */
module Logging {
  import opened Wrappers
  import opened Text
  import opened Http

  // ---------------------------------------------------------------- options

  /** LoggerOptions. MaxBodyLength is carried but never consulted by the handler. */
  datatype LoggerOptions = LoggerOptions(logRequestBody: bool, logResponseBody: bool, maxBodyLength: int)

  /** DefaultLoggerOptions: log both bodies, MaxBodyLength 512. */
  const DefaultLoggerOptions := LoggerOptions(true, true, 512)

  /** The two configurable header names the middleware reads. */
  datatype Configuration = Configuration(realIPHeader: string, requestIDHeader: string)

  // -------------------------------------------------------- header fallbacks

  /** getRealIP: the configured header when it is non-empty, else the transport peer address. */
  function RealIP(h: Header, remoteAddr: string, conf: Configuration): (ip: string)
    ensures ip == Get(h, conf.realIPHeader) || ip == remoteAddr
    ensures ip == "" ==> remoteAddr == ""
  {
    if |Get(h, conf.realIPHeader)| > 0 then Get(h, conf.realIPHeader) else remoteAddr
  }

  /** getRequestID: the configured header when it is non-empty, else the freshly generated id. */
  function RequestID(h: Header, conf: Configuration, generated: string): (id: string)
    ensures id == Get(h, conf.requestIDHeader) || id == generated
    ensures id == "" ==> generated == ""
  {
    if |Get(h, conf.requestIDHeader)| > 0 then Get(h, conf.requestIDHeader) else generated
  }

  /**
   * The real IP is the first value of the configured header, verbatim, when
   * that is non-empty; the peer address is used exactly when the header is
   * absent, has no values, or its first value is empty.
   */
  lemma RealIPFallback(h: Header, remoteAddr: string, conf: Configuration, value: string)
    ensures Get(h, conf.realIPHeader) != "" ==> RealIP(h, remoteAddr, conf) == Get(h, conf.realIPHeader)
    ensures Get(h, conf.realIPHeader) == "" ==> RealIP(h, remoteAddr, conf) == remoteAddr
    ensures RealIP(Set(h, conf.realIPHeader, value), remoteAddr, conf) == if value == "" then remoteAddr else value
    ensures RealIP(h - {conf.realIPHeader}, remoteAddr, conf) == remoteAddr
  {
  }

  /**
   * The request id echoes the configured header when it is non-empty, else
   * it is the generated id; so it is never empty when the generated id is
   * not (a UUID string has 36 runes).
   */
  lemma RequestIDFallback(h: Header, conf: Configuration, generated: string)
    ensures Get(h, conf.requestIDHeader) != "" ==> RequestID(h, conf, generated) == Get(h, conf.requestIDHeader)
    ensures Get(h, conf.requestIDHeader) == "" ==> RequestID(h, conf, generated) == generated
    ensures generated != "" ==> RequestID(h, conf, generated) != ""
  {
  }

  // ------------------------------------------------------------- formatters

  /** The map formatHeaders builds: every key with a value, mapped to its first value. */
  function FirstValues(h: Header): map<string, string> {
    map k | k in h && h[k] != [] :: h[k][0]
  }

  /** The map formatFormValues builds: every key, mapped to its values joined with ",". */
  function JoinedValues(f: Header): map<string, string> {
    map k | k in f :: Join(f[k], ",")
  }

  /** formatHeaders: keeps exactly the keys whose value list is non-empty, each with its first value. */
  method FormatHeaders(h: Header) returns (headers: map<string, string>)
    ensures headers.Keys == set k | k in h && h[k] != []
    ensures forall k :: k in headers ==> headers[k] == h[k][0]
    ensures headers == FirstValues(h)
  {
    headers := map[];
    var pending := h.Keys;
    while pending != {}
      invariant pending <= h.Keys
      invariant headers.Keys == set k | k in h.Keys - pending && h[k] != []
      invariant forall k :: k in headers ==> headers[k] == h[k][0]
      decreases pending
    {
      var key :| key in pending;
      var values := h[key];
      if |values| > 0 {
        headers := headers[key := values[0]];
      }
      pending := pending - {key};
    }
  }

  /** formatFormValues: keeps every key, with its values joined by "," (an empty list gives ""). */
  method FormatFormValues(f: Header) returns (formValues: map<string, string>)
    ensures formValues.Keys == f.Keys
    ensures forall k :: k in formValues ==> formValues[k] == Join(f[k], ",")
    ensures forall k :: k in f && f[k] == [] ==> formValues[k] == ""
    ensures formValues == JoinedValues(f)
  {
    formValues := map[];
    var pending := f.Keys;
    while pending != {}
      invariant pending <= f.Keys
      invariant formValues.Keys == f.Keys - pending
      invariant forall k :: k in formValues ==> formValues[k] == Join(f[k], ",")
      decreases pending
    {
      var key :| key in pending;
      formValues := formValues[key := Join(f[key], ",")];
      pending := pending - {key};
    }
  }

  /** The logged form value of a key gives back its values when none of them contains a comma. */
  lemma JoinedValuesRecoverable(f: Header, k: string)
    requires k in f && f[k] != []
    requires forall j :: 0 <= j < |f[k]| ==> ',' !in f[k][j]
    ensures SplitOn(JoinedValues(f)[k], ',') == f[k]
  {
    SplitJoin(f[k]);
  }

  // ------------------------------------------------------ content-type gate

  /** The allow-list, in lower case. */
  const AllowedContentTypes: seq<string> :=
    ["application/json", "application/x-www-form-urlencoded", "application/xml", "text/xml"]

  /** shouldLogBody: the lower-cased type contains one of the four allow-listed types. */
  predicate ShouldLogBody(contentType: string)
    ensures ShouldLogBody(contentType) ==> |contentType| >= |"text/xml"|
  {
    var ct := ToLower(contentType);
    Contains(ct, "application/json") ||
    Contains(ct, "application/x-www-form-urlencoded") ||
    Contains(ct, "application/xml") ||
    Contains(ct, "text/xml")
  }

  /** The gate ignores case: two types equal up to case are treated alike, and lower-casing first changes nothing. */
  lemma ShouldLogBodyIgnoresCase(a: string, b: string)
    requires ToLower(a) == ToLower(b)
    ensures ShouldLogBody(a) == ShouldLogBody(b)
    ensures ShouldLogBody(ToLower(a)) == ShouldLogBody(a)
  {
    ToLowerIdempotent(a);
  }

  /** All allow-list entries are lower case. */
  lemma AllowListIsLower()
    ensures forall k :: 0 <= k < |AllowedContentTypes| ==> IsLower(AllowedContentTypes[k])
  {
  }

  /** Every allow-listed type, with any parameters after it, passes the gate. */
  lemma {:induction false} AllowListPasses(k: int, params: string)
    requires 0 <= k < |AllowedContentTypes|
    ensures ShouldLogBody(AllowedContentTypes[k] + params)
  {
    var ct := AllowedContentTypes[k] + params;
    AllowListIsLower();
    ToLowerSlice(ct, 0, |AllowedContentTypes[k]|);
    assert ct[..|AllowedContentTypes[k]|] == AllowedContentTypes[k];
    assert OccursAt(ToLower(ct), AllowedContentTypes[k], 0);
  }

  // --------------------------------------------------------- parse branches

  datatype Format = Json | Form | Xml

  /** Which parse the body gets: one of the three formats, or logging as raw text. */
  datatype Branch = Parse(format: Format) | Raw

  /**
   * The request-body switch: case-sensitive tests on the content type as
   * received, in the order JSON, form, XML / text-XML, raw.
   */
  function RequestBranch(contentType: string): (b: Branch)
    ensures b == Parse(Json) <==> Contains(contentType, "application/json")
    ensures b == Parse(Form) <==>
      !Contains(contentType, "application/json") && Contains(contentType, "application/x-www-form-urlencoded")
    ensures b == Parse(Xml) <==>
      && !Contains(contentType, "application/json") && !Contains(contentType, "application/x-www-form-urlencoded")
      && (Contains(contentType, "application/xml") || Contains(contentType, "text/xml"))
    ensures b == Raw <==>
      && !Contains(contentType, "application/json") && !Contains(contentType, "application/x-www-form-urlencoded")
      && !Contains(contentType, "application/xml") && !Contains(contentType, "text/xml")
  {
    if Contains(contentType, "application/json") then Parse(Json)
    else if Contains(contentType, "application/x-www-form-urlencoded") then Parse(Form)
    else if Contains(contentType, "application/xml") || Contains(contentType, "text/xml") then Parse(Xml)
    else Raw
  }

  /** The response-body switch: like the request's, but it has no form branch. */
  function ResponseBranch(contentType: string): (b: Branch)
    ensures b != Parse(Form)
    ensures b == Parse(Json) <==> Contains(contentType, "application/json")
    ensures b == Parse(Xml) <==>
      !Contains(contentType, "application/json") && (Contains(contentType, "application/xml") || Contains(contentType, "text/xml"))
    ensures b == Raw <==>
      !Contains(contentType, "application/json") && !Contains(contentType, "application/xml") && !Contains(contentType, "text/xml")
  {
    if Contains(contentType, "application/json") then Parse(Json)
    else if Contains(contentType, "application/xml") || Contains(contentType, "text/xml") then Parse(Xml)
    else Raw
  }

  /** The bare media types select their branch in both switches; a type naming none of them is logged raw. */
  lemma {:induction false} MediaTypesSelectTheirBranch()
    ensures RequestBranch("application/json") == Parse(Json) && ResponseBranch("application/json") == Parse(Json)
    ensures RequestBranch("application/xml") == Parse(Xml) && ResponseBranch("application/xml") == Parse(Xml)
    ensures RequestBranch("text/xml") == Parse(Xml) && ResponseBranch("text/xml") == Parse(Xml)
    ensures RequestBranch("text/plain") == Raw && ResponseBranch("text/plain") == Raw
  {
    assert OccursAt("application/json", "application/json", 0);
    assert OccursAt("application/xml", "application/xml", 0);
    assert OccursAt("text/xml", "text/xml", 0);
    var plain := "text/plain";
    assert 'm' !in plain;
    if Contains(plain, "text/xml") {
      ContainsRunes(plain, "text/xml", 6);
    }
  }

  /** A type that selects a parse branch always passes the gate. */
  lemma {:induction false} ParseBranchPassesGate(contentType: string)
    requires RequestBranch(contentType) != Raw || ResponseBranch(contentType) != Raw
    ensures ShouldLogBody(contentType)
  {
    AllowListIsLower();
    assert IsLower(AllowedContentTypes[0]) && IsLower(AllowedContentTypes[1]);
    assert IsLower(AllowedContentTypes[2]) && IsLower(AllowedContentTypes[3]);
    if Contains(contentType, "application/json") {
      ContainsLower(contentType, "application/json");
    } else if Contains(contentType, "application/x-www-form-urlencoded") {
      ContainsLower(contentType, "application/x-www-form-urlencoded");
    } else if Contains(contentType, "application/xml") {
      ContainsLower(contentType, "application/xml");
    } else {
      ContainsLower(contentType, "text/xml");
    }
  }

  /** A form type passes the gate, but its response is logged as raw text: the response switch has no form branch. */
  lemma FormResponseIsRaw(contentType: string)
    requires RequestBranch(contentType) == Parse(Form)
    requires !Contains(contentType, "application/xml") && !Contains(contentType, "text/xml")
    ensures ShouldLogBody(contentType)
    ensures ResponseBranch(contentType) == Raw
  {
    ParseBranchPassesGate(contentType);
  }

  lemma LowerOfMixedCaseJson()
    ensures ToLower("Application/JSON") == "application/json"
  {
  }

  /** A mixed-case JSON type passes the case-insensitive gate but takes the case-sensitive raw branch. */
  lemma MixedCaseJsonIsLoggedRaw()
    ensures ShouldLogBody("Application/JSON")
    ensures RequestBranch("Application/JSON") == Raw
    ensures ResponseBranch("Application/JSON") == Raw
  {
    var ct := "Application/JSON";
    LowerOfMixedCaseJson();
    assert OccursAt(ToLower(ct), "application/json", 0);
    ContainsSameLength(ct, "application/json");
    assert 'x' !in ct;
    if Contains(ct, "application/xml") {
      ContainsRunes(ct, "application/xml", 12);
    }
    if Contains(ct, "text/xml") {
      ContainsRunes(ct, "text/xml", 5);
    }
  }

  // -------------------------------------------------------------- request body

  /** What io.Copy gets from a body: all of its bytes, or an error. */
  datatype ReadOutcome = ReadAll(data: seq<Byte>) | ReadError

  /** A request body: absent (nil), or a stream that yields `read` when copied out. */
  datatype Body = NoBody | Stream(read: ReadOutcome)

  /**
   * The foreign parsers: json.Unmarshal and xml.Unmarshal succeed or not,
   * r.ParseForm yields the request's form values or fails. `formMediaType`
   * tells whether mime.ParseMediaType finds the form media type in a
   * Content-Type value, the test r.ParseForm makes before it reads the body.
   */
  datatype Parsers = Parsers(json: seq<Byte> -> bool, form: seq<Byte> -> Option<Header>, xml: seq<Byte> -> bool,
                             formMediaType: string -> bool)

  /** Whether the parser of a branch accepts the bytes; the raw branch accepts everything. */
  predicate Accepts(b: Branch, data: seq<Byte>, p: Parsers) {
    match b
    case Raw => true
    case Parse(Json) => p.json(data)
    case Parse(Form) => p.form(data).Some?
    case Parse(Xml) => p.xml(data)
  }

  /** The body as it appears in the "request-body parsed" record. */
  datatype LoggedBody = LoggedJson(data: seq<Byte>) | LoggedForm(fields: map<string, string>) | LoggedXml(data: seq<Byte>) | LoggedRaw(data: seq<Byte>)

  /** The outcome of the request-body step. */
  datatype BodyCheck =
    | NotRead
    | ReadFailed
    | Rejected(format: Format, data: seq<Byte>)
    | Accepted(logged: LoggedBody, data: seq<Byte>)

  const ReadFailedMessage := "failed to read request-body"

  /** The plain-text message of the 400 answer for each parse failure. */
  function ParseFailedMessage(f: Format): string {
    match f
    case Json => "failed to parse JSON request-body"
    case Form => "failed to parse form-urlencoded request-body"
    case Xml => "failed to parse XML request-body"
  }

  /** The request is read only when body logging is on, the type passes the gate and there is a body. */
  predicate ReadsRequestBody(logRequestBody: bool, contentType: string, body: Body) {
    logRequestBody && ShouldLogBody(contentType) && body != NoBody
  }

  /** The request-body decision of WithLogger. */
  function CheckRequestBody(logRequestBody: bool, contentType: string, body: Body, p: Parsers): (c: BodyCheck)
    ensures c != NotRead <==> ReadsRequestBody(logRequestBody, contentType, body)
    ensures c == ReadFailed <==> c != NotRead && body == Stream(ReadError)
    ensures c.Rejected? || c.Accepted? ==> body == Stream(ReadAll(c.data))
    ensures c.Rejected? ==> RequestBranch(contentType) == Parse(c.format)
    ensures c.Rejected? || c.Accepted? ==> (c.Accepted? <==> Accepts(RequestBranch(contentType), c.data, p))
    ensures c.Accepted? && RequestBranch(contentType) == Raw ==> c.logged == LoggedRaw(c.data)
    ensures c.Accepted? && RequestBranch(contentType) == Parse(Form) ==> c.logged == LoggedForm(JoinedValues(p.form(c.data).value))
  {
    if !ReadsRequestBody(logRequestBody, contentType, body) then NotRead
    else
      match body.read
      case ReadError => ReadFailed
      case ReadAll(data) =>
        match RequestBranch(contentType)
        case Parse(Json) => if p.json(data) then Accepted(LoggedJson(data), data) else Rejected(Json, data)
        case Parse(Form) =>
          (match p.form(data)
           case None => Rejected(Form, data)
           case Some(values) => Accepted(LoggedForm(JoinedValues(values)), data))
        case Parse(Xml) => if p.xml(data) then Accepted(LoggedXml(data), data) else Rejected(Xml, data)
        case Raw => Accepted(LoggedRaw(data), data)
  }

  /** The answer the middleware writes itself, if any: 500 for a read error, 400 for a parse error. */
  function ErrorAnswer(c: BodyCheck): (a: Option<(int, string)>)
    ensures c == ReadFailed ==> a == Some((500, ReadFailedMessage))
    ensures c.Rejected? ==> a == Some((400, ParseFailedMessage(c.format)))
    ensures c.NotRead? || c.Accepted? <==> a == None
  {
    match c
    case ReadFailed => Some((500, ReadFailedMessage))
    case Rejected(f, _) => Some((400, ParseFailedMessage(f)))
    case _ => None
  }

  /** A raw-branch body is never refused, whatever its bytes: only a parse branch or a read error blocks. */
  lemma RawBranchNeverRejects(logRequestBody: bool, contentType: string, data: seq<Byte>, p: Parsers)
    requires RequestBranch(contentType) == Raw
    ensures ErrorAnswer(CheckRequestBody(logRequestBody, contentType, Stream(ReadAll(data)), p)) == None
  {
  }

  /** Bad JSON under a JSON type with body logging on is answered 400 with the JSON message. */
  lemma BadJsonIsRejected(contentType: string, data: seq<Byte>, p: Parsers)
    requires Contains(contentType, "application/json") && !p.json(data)
    ensures ErrorAnswer(CheckRequestBody(true, contentType, Stream(ReadAll(data)), p)) == Some((400, "failed to parse JSON request-body"))
  {
    ParseBranchPassesGate(contentType);
  }

  /** A read body that its branch's parser accepts lets the request through, whatever the switch picked. */
  lemma ParsableBodyProceeds(logRequestBody: bool, contentType: string, data: seq<Byte>, p: Parsers)
    requires Accepts(RequestBranch(contentType), data, p)
    ensures ErrorAnswer(CheckRequestBody(logRequestBody, contentType, Stream(ReadAll(data)), p)) == None
  {
  }

  /** A read body that its parse branch's parser refuses is answered 400 with that format's message. */
  lemma {:induction false} UnparsableBodyAnswered400(contentType: string, data: seq<Byte>, p: Parsers)
    requires RequestBranch(contentType).Parse? && !Accepts(RequestBranch(contentType), data, p)
    ensures ErrorAnswer(CheckRequestBody(true, contentType, Stream(ReadAll(data)), p)) ==
      Some((400, ParseFailedMessage(RequestBranch(contentType).format)))
  {
    ParseBranchPassesGate(contentType);
  }

  /** A body that cannot be read, under a type that passes the gate, is answered 500 whatever the type. */
  lemma ReadErrorAnswered500(contentType: string, p: Parsers)
    requires ShouldLogBody(contentType)
    ensures ErrorAnswer(CheckRequestBody(true, contentType, Stream(ReadError), p)) == Some((500, "failed to read request-body"))
  {
  }

  /** The bare form type passes the gate and selects the form branch. */
  lemma {:induction false} FormTypeSelectsForm()
    ensures ShouldLogBody("application/x-www-form-urlencoded")
    ensures RequestBranch("application/x-www-form-urlencoded") == Parse(Form)
  {
    var ct := "application/x-www-form-urlencoded";
    assert OccursAt(ct, "application/x-www-form-urlencoded", 0);
    assert 'j' !in ct;
    if Contains(ct, "application/json") {
      ContainsRunes(ct, "application/json", 12);
    }
    ParseBranchPassesGate(ct);
  }

  /** A form the form parser refuses, under the form type, is answered 400 with the form message. */
  lemma BadFormIsRejected(data: seq<Byte>, p: Parsers)
    requires p.form(data).None?
    ensures ErrorAnswer(CheckRequestBody(true, "application/x-www-form-urlencoded", Stream(ReadAll(data)), p)) ==
      Some((400, "failed to parse form-urlencoded request-body"))
  {
    FormTypeSelectsForm();
    UnparsableBodyAnswered400("application/x-www-form-urlencoded", data, p);
  }

  /** Unparsable XML under an XML type is answered 400 with the XML message. */
  lemma {:induction false} BadXmlIsRejected(contentType: string, data: seq<Byte>, p: Parsers)
    requires RequestBranch(contentType) == Parse(Xml) && !p.xml(data)
    ensures ErrorAnswer(CheckRequestBody(true, contentType, Stream(ReadAll(data)), p)) ==
      Some((400, "failed to parse XML request-body"))
  {
    ParseBranchPassesGate(contentType);
  }

  /** With request-body logging switched off the body is never read, so nothing is ever refused. */
  lemma LoggingOffNeverBlocks(contentType: string, body: Body, p: Parsers)
    ensures CheckRequestBody(false, contentType, body, p) == NotRead
    ensures ErrorAnswer(CheckRequestBody(false, contentType, body, p)) == None
  {
  }

  // -------------------------------------------------------- response writers

  datatype HijackResult = Hijacked(conn: nat) | HijackFailed(message: string)

  const NotHijackerMessage := "underlying ResponseWriter does not implement http.Hijacker"

  /** What a response sink has received so far. */
  datatype SinkState = SinkState(header: Header, codes: seq<int>, body: string, flushes: nat, hijacks: nat)

  /**
   * The underlying http.ResponseWriter, modelled as a sink that records what
   * it receives. Its optional capabilities (http.Flusher, http.Hijacker,
   * io.Reader) are fixed when it is created.
   */
  class ResponseSink {
    const canFlush: bool
    const canHijack: bool
    const readable: bool
    const hijackOutcome: HijackResult
    var header: Header
    var codes: seq<int>
    var body: string
    var flushes: nat
    var hijacks: nat

    ghost function State(): SinkState
      reads this
    {
      SinkState(header, codes, body, flushes, hijacks)
    }

    constructor (canFlush: bool, canHijack: bool, readable: bool, hijackOutcome: HijackResult)
      ensures this.canFlush == canFlush && this.canHijack == canHijack && this.readable == readable
      ensures this.hijackOutcome == hijackOutcome
      ensures State() == SinkState(map[], [], "", 0, 0)
    {
      this.canFlush := canFlush;
      this.canHijack := canHijack;
      this.readable := readable;
      this.hijackOutcome := hijackOutcome;
      header, codes, body, flushes, hijacks := map[], [], "", 0, 0;
    }

    method WriteHeader(code: int)
      modifies this
      ensures State() == old(State()).(codes := old(codes) + [code])
    {
      codes := codes + [code];
    }

    method Write(text: string)
      modifies this
      ensures State() == old(State()).(body := old(body) + text)
    {
      body := body + text;
    }

    /** Header().Set(key, value). */
    method SetHeader(key: string, value: string)
      modifies this
      ensures State() == old(State()).(header := Set(old(header), key, value))
    {
      header := Set(header, key, value);
    }

    method Flush()
      requires canFlush
      modifies this
      ensures State() == old(State()).(flushes := old(flushes) + 1)
    {
      flushes := flushes + 1;
    }

    method Hijack() returns (r: HijackResult)
      requires canHijack
      modifies this
      ensures r == hijackOutcome
      ensures State() == old(State()).(hijacks := old(hijacks) + 1)
    {
      hijacks := hijacks + 1;
      r := hijackOutcome;
    }
  }

  /** The status Status() reports after the given WriteHeader calls: the last code, or 200 while it is 0. */
  function StatusOf(codes: seq<int>): (status: int)
    ensures status != 0
    ensures codes != [] && codes[|codes| - 1] != 0 ==> status == codes[|codes| - 1]
  {
    if codes == [] || codes[|codes| - 1] == 0 then 200 else codes[|codes| - 1]
  }

  /** http.Error: plain-text headers, the status, and the message followed by a newline. */
  method HttpError(w: ResponseSink, message: string, code: int)
    modifies w
    ensures w.State() == ErrorWritten(old(w.State()), code, message)
  {
    w.SetHeader("Content-Type", "text/plain; charset=utf-8");
    w.SetHeader("X-Content-Type-Options", "nosniff");
    w.WriteHeader(code);
    w.Write(message + "\n");
  }

  /** The sink state after http.Error(w, message, code). */
  ghost function ErrorWritten(s: SinkState, code: int, message: string): SinkState {
    s.(header := Set(Set(s.header, "Content-Type", "text/plain; charset=utf-8"), "X-Content-Type-Options", "nosniff"),
       codes := s.codes + [code],
       body := s.body + message + "\n")
  }

  /**
   * An error answer is written before the correlation headers are set, so a
   * response that had no X-Request-Id still has none after it.
   */
  lemma ErrorAnswerHasNoRequestID(s: SinkState, logRequestBody: bool, contentType: string, body: Body, p: Parsers)
    requires ErrorAnswer(CheckRequestBody(logRequestBody, contentType, body, p)).Some?
    requires "X-Request-Id" !in s.header
    ensures var answer := ErrorAnswer(CheckRequestBody(logRequestBody, contentType, body, p)).value;
      Values(ErrorWritten(s, answer.0, answer.1).header, "X-Request-Id") == []
  {
  }

  /** The error answer with X-Request-Id set first, so that it carries the request id as every other response does. */
  ghost function ErrorWrittenWithID(s: SinkState, requestID: string, code: int, message: string): (r: SinkState)
    ensures Values(r.header, "X-Request-Id") == [requestID]
    ensures Get(r.header, "Content-Type") == "text/plain; charset=utf-8" && Get(r.header, "X-Content-Type-Options") == "nosniff"
    ensures r.codes == s.codes + [code] && r.body == s.body + message + "\n"
    ensures r.flushes == s.flushes && r.hijacks == s.hijacks
  {
    ErrorWritten(s.(header := Set(s.header, "X-Request-Id", requestID)), code, message)
  }

  /**
   * statusResponseWriter: forwards everything to `inner` and remembers the
   * last status code passed to WriteHeader (0 while there was none). The
   * ghost field `written` lists those codes.
   */
  class StatusResponseWriter {
    const inner: ResponseSink
    var statusCode: int
    ghost var written: seq<int>

    ghost predicate Valid()
      reads this
    {
      statusCode == if written == [] then 0 else written[|written| - 1]
    }

    /** wrapResponseWriter: no code recorded yet. */
    constructor Wrap(w: ResponseSink)
      ensures inner == w && statusCode == 0 && written == [] && Valid()
    {
      inner := w;
      statusCode := 0;
      written := [];
    }

    /** WriteHeader: record the code, then forward it unchanged. */
    method WriteHeader(code: int)
      requires Valid()
      modifies this, inner
      ensures Valid() && written == old(written) + [code]
      ensures inner.State() == old(inner.State()).(codes := old(inner.codes) + [code])
    {
      statusCode := code;
      written := written + [code];
      inner.WriteHeader(code);
    }

    /** Status: 200 while no code (or the code 0) was recorded, else the last code. */
    function Status(): (code: int)
      reads this
      requires Valid()
      ensures code == StatusOf(written)
      ensures written == [] ==> code == 200
    {
      if statusCode == 0 then 200 else statusCode
    }

    /** Write passes through; it does not touch the recorded code. */
    method Write(text: string)
      modifies inner
      ensures inner.State() == old(inner.State()).(body := old(inner.body) + text)
    {
      inner.Write(text);
    }

    /** Header().Set passes through. */
    method SetHeader(key: string, value: string)
      modifies inner
      ensures inner.State() == old(inner.State()).(header := Set(old(inner.header), key, value))
    {
      inner.SetHeader(key, value);
    }

    /** Flush: delegates when the sink can flush, otherwise does nothing. */
    method Flush()
      modifies inner
      ensures inner.State() == old(inner.State()).(flushes := old(inner.flushes) + if inner.canFlush then 1 else 0)
    {
      if inner.canFlush {
        inner.Flush();
      }
    }

    /** Hijack: delegates when the sink can hijack, otherwise fails with a descriptive error. */
    method Hijack() returns (r: HijackResult)
      modifies inner
      ensures inner.canHijack ==> r == inner.hijackOutcome
      ensures !inner.canHijack ==> r == HijackFailed(NotHijackerMessage)
      ensures inner.State() == old(inner.State()).(hijacks := old(inner.hijacks) + if inner.canHijack then 1 else 0)
    {
      if inner.canHijack {
        r := inner.Hijack();
      } else {
        r := HijackFailed(NotHijackerMessage);
      }
    }
  }

  /** Wrapping a fresh sink and passing it `codes`: Status() reports StatusOf(codes), and the sink saw every code. */
  method StatusAfterWriteHeaders(codes: seq<int>) returns (status: int, forwarded: seq<int>)
    ensures status == StatusOf(codes)
    ensures forwarded == codes
    ensures codes == [] ==> status == 200
    ensures codes != [] && codes[|codes| - 1] != 0 ==> status == codes[|codes| - 1]
  {
    var sink := new ResponseSink(false, false, false, HijackFailed(""));
    var w := new StatusResponseWriter.Wrap(sink);
    var i := 0;
    while i < |codes|
      invariant 0 <= i <= |codes|
      invariant w.inner == sink && w.Valid()
      invariant w.written == codes[..i] && sink.codes == codes[..i]
    {
      w.WriteHeader(codes[i]);
      i := i + 1;
    }
    assert codes[..i] == codes;
    status := w.Status();
    forwarded := sink.codes;
  }

  /** Flush and Hijack on a wrapper over a sink with the given capabilities. */
  method CapabilitiesAfterWrap(canFlush: bool, canHijack: bool, outcome: HijackResult)
    returns (flushed: nat, hijack: HijackResult)
    ensures flushed == if canFlush then 1 else 0
    ensures hijack == if canHijack then outcome else HijackFailed(NotHijackerMessage)
  {
    var sink := new ResponseSink(canFlush, canHijack, false, outcome);
    var w := new StatusResponseWriter.Wrap(sink);
    w.Flush();
    hijack := w.Hijack();
    flushed := sink.flushes;
  }

  // -------------------------------------------------------------- the handler

  /** The incoming request; WithLogger replaces only its body. */
  class Request {
    const httpMethod: string
    const requestURI: string
    const remoteAddr: string
    const header: Header
    var body: Body

    constructor (httpMethod: string, requestURI: string, remoteAddr: string, header: Header, body: Body)
      ensures this.httpMethod == httpMethod && this.requestURI == requestURI && this.remoteAddr == remoteAddr
      ensures this.header == header && this.body == body
    {
      this.httpMethod := httpMethod;
      this.requestURI := requestURI;
      this.remoteAddr := remoteAddr;
      this.header := header;
      this.body := body;
    }
  }

  /** The identifiers of the span, present only when the span has a trace id. */
  datatype TraceIDs = TraceIDs(traceID: string, spanID: string)

  /** The "request started" record. */
  datatype StartedLog = StartedLog(requestID: string, ip: string, requestHeaders: map<string, string>)

  /** The "request completed" record. */
  datatype CompletedLog = CompletedLog(status: int, statusClass: int, responseHeaders: map<string, string>)

  /** What the response-body phase logs. */
  datatype ResponseLog =
    | ResponseNotLogged
    | ResponseNotReadable
    | ResponseReadFailed
    | ResponseParseFailed(format: Format)
    | ResponseLogged(branch: Branch, data: seq<Byte>)

  /**
   * The response headers the middleware sets before the handler: trace ids
   * when present, then X-Request-Id. X-Request-Id always carries exactly the
   * id; the trace headers are set exactly when there is a trace id; every
   * other header keeps its values.
   */
  function CorrelationHeaders(h: Header, trace: Option<TraceIDs>, requestID: string): (r: Header)
    ensures Values(r, "X-Request-Id") == [requestID]
    ensures trace.Some? ==> Values(r, "X-Trace-Id") == [trace.value.traceID] && Values(r, "X-Span-Id") == [trace.value.spanID]
    ensures trace.None? ==> r == Set(h, "X-Request-Id", requestID)
    ensures forall k :: k !in {"X-Request-Id", "X-Trace-Id", "X-Span-Id"} ==> Values(r, k) == Values(h, k)
  {
    var traced := if trace.Some? then Set(Set(h, "X-Trace-Id", trace.value.traceID), "X-Span-Id", trace.value.spanID) else h;
    Set(traced, "X-Request-Id", requestID)
  }

  /** status-class: the code divided by 100, truncated toward zero as Go's integer division is. */
  function StatusClass(code: int): (c: int)
    ensures 100 <= code <= 599 ==> 1 <= c <= 5 && 100 * c <= code < 100 * c + 100
    ensures -99 <= code <= 99 ==> c == 0
  {
    if code >= 0 then code / 100 else -((-code) / 100)
  }

  /** The response-body decision: logging only, never an answer. */
  function CheckResponseBody(logResponseBody: bool, contentType: string, readable: bool, read: ReadOutcome, p: Parsers): (l: ResponseLog)
    ensures l != ResponseNotLogged <==> logResponseBody && ShouldLogBody(contentType)
    ensures l.ResponseParseFailed? ==> l.format != Form
    ensures l.ResponseLogged? ==> l.branch == ResponseBranch(contentType) && read == ReadAll(l.data)
    ensures logResponseBody && ShouldLogBody(contentType) && !readable ==> l == ResponseNotReadable
    ensures logResponseBody && ShouldLogBody(contentType) && readable && read == ReadError ==> l == ResponseReadFailed
    ensures logResponseBody && ShouldLogBody(contentType) && readable && read.ReadAll? ==>
      (l.ResponseLogged? <==> Accepts(ResponseBranch(contentType), read.data, p)) &&
      (l.ResponseParseFailed? <==> !Accepts(ResponseBranch(contentType), read.data, p))
    ensures l.ResponseParseFailed? ==> ResponseBranch(contentType) == Parse(l.format)
  {
    if !(logResponseBody && ShouldLogBody(contentType)) then ResponseNotLogged
    else if !readable then ResponseNotReadable
    else
      match read
      case ReadError => ResponseReadFailed
      case ReadAll(data) =>
        match ResponseBranch(contentType)
        case Parse(Json) => if p.json(data) then ResponseLogged(Parse(Json), data) else ResponseParseFailed(Json)
        case Parse(Xml) => if p.xml(data) then ResponseLogged(Parse(Xml), data) else ResponseParseFailed(Xml)
        case Parse(Form) => ResponseLogged(Raw, data)
        case Raw => ResponseLogged(Raw, data)
  }

  /** r.ParseForm reads the request body only for these methods. */
  predicate ParseFormReadsBody(httpMethod: string) {
    httpMethod == "POST" || httpMethod == "PUT" || httpMethod == "PATCH"
  }

  /**
   * The request body `next` is handed. A successful read replaces the body
   * by a buffer over the same bytes; on the form branch r.ParseForm then
   * reads that buffer to its end when the method is POST, PUT or PATCH and
   * the media type is the form type, so the body downstream is drained.
   * Every other path leaves the body as received.
   */
  function DownstreamBody(logRequestBody: bool, httpMethod: string, contentType: string, body: Body, p: Parsers): (b: Body)
    ensures b != body ==> RequestBranch(contentType) == Parse(Form) && ParseFormReadsBody(httpMethod)
    ensures b != body ==> b == Stream(ReadAll([]))
    ensures !ReadsRequestBody(logRequestBody, contentType, body) ==> b == body
  {
    if ReadsRequestBody(logRequestBody, contentType, body) && body.read.ReadAll? &&
       RequestBranch(contentType) == Parse(Form) && ParseFormReadsBody(httpMethod) && p.formMediaType(contentType)
    then Stream(ReadAll([]))
    else body
  }

  /**
   * The request-body phase of the handler: the gate, the read, the parse.
   * On a read failure the body is left as it was; on a successful read it is
   * replaced by a buffer over the same bytes, which r.ParseForm may then
   * drain. On an error the response is the error answer; otherwise nothing
   * is written.
   */
  method LogRequestBody(w: ResponseSink, r: Request, opts: LoggerOptions, p: Parsers)
    returns (proceed: bool, bodyLog: Option<LoggedBody>)
    modifies w, r
    ensures var c := CheckRequestBody(opts.logRequestBody, Get(r.header, "Content-Type"), old(r.body), p);
      && proceed == (ErrorAnswer(c) == None)
      && (!proceed ==> w.State() == ErrorWritten(old(w.State()), ErrorAnswer(c).value.0, ErrorAnswer(c).value.1))
      && (proceed ==> w.State() == old(w.State()))
      && (bodyLog == if c.Accepted? then Some(c.logged) else None)
    ensures r.body == DownstreamBody(opts.logRequestBody, r.httpMethod, Get(r.header, "Content-Type"), old(r.body), p)
  {
    bodyLog := None;
    proceed := true;
    var contentType := Get(r.header, "Content-Type");
    ghost var c := CheckRequestBody(opts.logRequestBody, contentType, r.body, p);
    if opts.logRequestBody && ShouldLogBody(contentType) && r.body != NoBody {
      match r.body.read
      case ReadError =>
        assert c == ReadFailed;
        HttpError(w, ReadFailedMessage, 500);
        proceed := false;
      case ReadAll(data) =>
        // io.Copy drained the stream; it is replaced by a buffer over the same bytes
        r.body := Stream(ReadAll(data));
        match RequestBranch(contentType)
        case Parse(Json) =>
          if !p.json(data) {
            assert c == Rejected(Json, data);
            HttpError(w, ParseFailedMessage(Json), 400);
            proceed := false;
          } else {
            assert c == Accepted(LoggedJson(data), data);
            bodyLog := Some(LoggedJson(data));
          }
        case Parse(Form) =>
          if ParseFormReadsBody(r.httpMethod) && p.formMediaType(contentType) {
            // r.ParseForm reads the buffer to its end
            r.body := Stream(ReadAll([]));
          }
          var values := p.form(data);
          if values.None? {
            assert c == Rejected(Form, data);
            HttpError(w, ParseFailedMessage(Form), 400);
            proceed := false;
          } else {
            var fields := FormatFormValues(values.value);
            assert c == Accepted(LoggedForm(fields), data);
            bodyLog := Some(LoggedForm(fields));
          }
        case Parse(Xml) =>
          if !p.xml(data) {
            assert c == Rejected(Xml, data);
            HttpError(w, ParseFailedMessage(Xml), 400);
            proceed := false;
          } else {
            assert c == Accepted(LoggedXml(data), data);
            bodyLog := Some(LoggedXml(data));
          }
        case Raw =>
          assert c == Accepted(LoggedRaw(data), data);
          bodyLog := Some(LoggedRaw(data));
    } else {
      assert c == NotRead;
    }
  }

  /** Outside the form branch, or for a method r.ParseForm does not read, `next` gets the body as received. */
  lemma DownstreamBodyKept(logRequestBody: bool, httpMethod: string, contentType: string, body: Body, p: Parsers)
    requires RequestBranch(contentType) != Parse(Form) || !ParseFormReadsBody(httpMethod)
    ensures DownstreamBody(logRequestBody, httpMethod, contentType, body, p) == body
  {
  }

  /**
   * A POST of a well-formed, non-empty form under the form type, with
   * request-body logging on, is let through, but `next` gets a drained body
   * instead of the bytes sent.
   */
  lemma {:induction false} FormPostReachesNextDrained(data: seq<Byte>, p: Parsers)
    requires data != [] && p.form(data).Some? && p.formMediaType("application/x-www-form-urlencoded")
    ensures var ct := "application/x-www-form-urlencoded";
      && ErrorAnswer(CheckRequestBody(true, ct, Stream(ReadAll(data)), p)) == None
      && DownstreamBody(true, "POST", ct, Stream(ReadAll(data)), p) == Stream(ReadAll([]))
      && DownstreamBody(true, "POST", ct, Stream(ReadAll(data)), p) != Stream(ReadAll(data))
  {
    FormTypeSelectsForm();
  }

  /**
   * The request-body phase that restores the buffered body again after the
   * switch, so that what `next` is handed is the body received even when
   * r.ParseForm has read the first restored copy: the decision, the answer
   * and the body log are those of LogRequestBody.
   */
  method LogRequestBodyRestored(w: ResponseSink, r: Request, opts: LoggerOptions, p: Parsers)
    returns (proceed: bool, bodyLog: Option<LoggedBody>)
    modifies w, r
    ensures var c := CheckRequestBody(opts.logRequestBody, Get(r.header, "Content-Type"), old(r.body), p);
      && proceed == (ErrorAnswer(c) == None)
      && (!proceed ==> w.State() == ErrorWritten(old(w.State()), ErrorAnswer(c).value.0, ErrorAnswer(c).value.1))
      && (proceed ==> w.State() == old(w.State()))
      && (bodyLog == if c.Accepted? then Some(c.logged) else None)
    ensures r.body == old(r.body)
  {
    var received := r.body;
    proceed, bodyLog := LogRequestBody(w, r, opts, p);
    if ReadsRequestBody(opts.logRequestBody, Get(r.header, "Content-Type"), received) && received.read.ReadAll? {
      r.body := Stream(ReadAll(received.read.data));
    }
  }

  /**
   * The steps of WithLogger's handler before `next`: resolve the request id,
   * decide on the request body, and either answer the error itself or set
   * the correlation headers and let the request through.
   */
  method BeforeNext(w: ResponseSink, r: Request, opts: LoggerOptions, conf: Configuration,
                    generatedID: string, trace: Option<TraceIDs>, p: Parsers)
    returns (proceed: bool, requestID: string, started: StartedLog, bodyLog: Option<LoggedBody>)
    modifies w, r
    ensures requestID == RequestID(r.header, conf, generatedID)
    ensures started == StartedLog(requestID, RealIP(r.header, r.remoteAddr, conf), FirstValues(r.header))
    ensures var c := CheckRequestBody(opts.logRequestBody, Get(r.header, "Content-Type"), old(r.body), p);
      && proceed == (ErrorAnswer(c) == None)
      && (!proceed ==> w.State() == ErrorWritten(old(w.State()), ErrorAnswer(c).value.0, ErrorAnswer(c).value.1))
      && (proceed ==> w.State() == old(w.State()).(header := CorrelationHeaders(old(w.header), trace, requestID)))
      && (bodyLog == if c.Accepted? then Some(c.logged) else None)
    ensures r.body == DownstreamBody(opts.logRequestBody, r.httpMethod, Get(r.header, "Content-Type"), old(r.body), p)
  {
    requestID := RequestID(r.header, conf, generatedID);
    var headers := FormatHeaders(r.header);
    started := StartedLog(requestID, RealIP(r.header, r.remoteAddr, conf), headers);
    proceed, bodyLog := LogRequestBody(w, r, opts, p);
    if !proceed {
      return;
    }
    if trace.Some? {
      w.SetHeader("X-Trace-Id", trace.value.traceID);
      w.SetHeader("X-Span-Id", trace.value.spanID);
    }
    w.SetHeader("X-Request-Id", requestID);
  }

  /** What the downstream handler does with the wrapped writer, one call at a time. */
  datatype HandlerStep = WriteHeaderStep(code: int) | WriteStep(text: string) | SetHeaderStep(key: string, value: string) | FlushStep

  /** The status codes among the handler's steps, in order. */
  function CodesOf(steps: seq<HandlerStep>): seq<int> {
    if steps == [] then []
    else CodesOf(steps[..|steps| - 1]) + (if steps[|steps| - 1].WriteHeaderStep? then [steps[|steps| - 1].code] else [])
  }

  /** Collecting codes distributes over running one list of steps after another. */
  lemma {:induction false} CodesOfAppend(a: seq<HandlerStep>, b: seq<HandlerStep>)
    ensures CodesOf(a + b) == CodesOf(a) + CodesOf(b)
    decreases |b|
  {
    if b == [] {
      assert a + b == a;
    } else {
      assert (a + b)[..|a + b| - 1] == a + b[..|b| - 1];
      CodesOfAppend(a, b[..|b| - 1]);
    }
  }

  /** What one step of the handler does to the sink, through the wrapper. */
  function StepSink(s: SinkState, step: HandlerStep, canFlush: bool): SinkState {
    match step
    case WriteHeaderStep(code) => s.(codes := s.codes + [code])
    case WriteStep(text) => s.(body := s.body + text)
    case SetHeaderStep(key, value) => s.(header := Set(s.header, key, value))
    case FlushStep => s.(flushes := s.flushes + if canFlush then 1 else 0)
  }

  /**
   * The sink after the handler's steps, in order. The codes it received are
   * exactly the steps' codes; nothing is hijacked; there is at most one
   * flush per step.
   */
  function AfterSteps(s: SinkState, steps: seq<HandlerStep>, canFlush: bool): (r: SinkState)
    ensures r.codes == s.codes + CodesOf(steps)
    ensures r.hijacks == s.hijacks
    ensures s.flushes <= r.flushes <= s.flushes + |steps|
    ensures |r.body| >= |s.body|
    decreases |steps|
  {
    if steps == [] then s
    else StepSink(AfterSteps(s, steps[..|steps| - 1], canFlush), steps[|steps| - 1], canFlush)
  }

  /** Running two lists of steps one after the other is running their concatenation. */
  lemma {:induction false} AfterStepsAppend(s: SinkState, a: seq<HandlerStep>, b: seq<HandlerStep>, canFlush: bool)
    ensures AfterSteps(AfterSteps(s, a, canFlush), b, canFlush) == AfterSteps(s, a + b, canFlush)
    decreases |b|
  {
    if b == [] {
      assert a + b == a;
    } else {
      assert (a + b)[..|a + b| - 1] == a + b[..|b| - 1];
      AfterStepsAppend(s, a, b[..|b| - 1], canFlush);
    }
  }

  /** next.ServeHTTP(wrappedWriter, ...): the handler's steps, applied through the wrapper. */
  method RunHandler(ww: StatusResponseWriter, steps: seq<HandlerStep>)
    requires ww.Valid()
    modifies ww, ww.inner
    ensures ww.Valid() && ww.written == old(ww.written) + CodesOf(steps)
    ensures ww.inner.State() == AfterSteps(old(ww.inner.State()), steps, ww.inner.canFlush)
  {
    var i := 0;
    while i < |steps|
      invariant 0 <= i <= |steps|
      invariant ww.Valid()
      invariant ww.written == old(ww.written) + CodesOf(steps[..i])
      invariant ww.inner.State() == AfterSteps(old(ww.inner.State()), steps[..i], ww.inner.canFlush)
    {
      assert steps[..i + 1][..i] == steps[..i];
      match steps[i] {
        case WriteHeaderStep(code) => ww.WriteHeader(code);
        case WriteStep(text) => ww.Write(text);
        case SetHeaderStep(key, value) => ww.SetHeader(key, value);
        case FlushStep => ww.Flush();
      }
      i := i + 1;
    }
    assert steps[..i] == steps;
  }

  /**
   * The response-body phase: flush the wrapper, then read the sink back and
   * log it by content type. It leaves the status, the headers and the body of
   * the response as they were.
   */
  method LogResponse(ww: StatusResponseWriter, opts: LoggerOptions, read: ReadOutcome, p: Parsers)
    returns (log: ResponseLog)
    modifies ww.inner
    ensures log == CheckResponseBody(opts.logResponseBody, Get(old(ww.inner.header), "Content-Type"), ww.inner.readable, read, p)
    ensures ww.inner.State() == old(ww.inner.State()).(flushes := old(ww.inner.flushes) +
      if log != ResponseNotLogged && ww.inner.canFlush then 1 else 0)
  {
    var contentType := Get(ww.inner.header, "Content-Type");
    log := ResponseNotLogged;
    if opts.logResponseBody && ShouldLogBody(contentType) {
      ww.Flush();
      if ww.inner.readable {
        match read
        case ReadError =>
          log := ResponseReadFailed;
        case ReadAll(data) =>
          match ResponseBranch(contentType)
          case Parse(Json) =>
            log := if p.json(data) then ResponseLogged(Parse(Json), data) else ResponseParseFailed(Json);
          case Parse(Xml) =>
            log := if p.xml(data) then ResponseLogged(Parse(Xml), data) else ResponseParseFailed(Xml);
          case _ =>
            log := ResponseLogged(Raw, data);
      } else {
        log := ResponseNotReadable;
      }
    }
  }

  /**
   * WithLogger's handler from end to end, with the downstream handler given
   * as its steps and the read-back of the response given as `responseRead`.
   */
  method HandleWithLogger(w: ResponseSink, r: Request, opts: LoggerOptions, conf: Configuration,
                          generatedID: string, trace: Option<TraceIDs>, p: Parsers,
                          handler: seq<HandlerStep>, responseRead: ReadOutcome)
    returns (ranNext: bool, requestID: string, completed: Option<CompletedLog>, responseLog: ResponseLog)
    modifies w, r
    ensures requestID == RequestID(r.header, conf, generatedID)
    ensures var c := CheckRequestBody(opts.logRequestBody, Get(r.header, "Content-Type"), old(r.body), p);
      && ranNext == (ErrorAnswer(c) == None)
      && (!ranNext ==> w.State() == ErrorWritten(old(w.State()), ErrorAnswer(c).value.0, ErrorAnswer(c).value.1))
      && (!ranNext ==> completed == None && responseLog == ResponseNotLogged)
    ensures ranNext ==>
      var status := StatusOf(CodesOf(handler));
      var before := old(w.State()).(header := CorrelationHeaders(old(w.header), trace, requestID));
      var after := AfterSteps(before, handler, w.canFlush);
      && completed == Some(CompletedLog(status, StatusClass(status), FirstValues(after.header)))
      && responseLog == CheckResponseBody(opts.logResponseBody, Get(after.header, "Content-Type"), w.readable, responseRead, p)
      && w.State() == after.(flushes := after.flushes + if responseLog != ResponseNotLogged && w.canFlush then 1 else 0)
    ensures ranNext ==> w.codes == old(w.codes) + CodesOf(handler)
    ensures r.body == DownstreamBody(opts.logRequestBody, r.httpMethod, Get(r.header, "Content-Type"), old(r.body), p)
  {
    var started, bodyLog;
    ranNext, requestID, started, bodyLog := BeforeNext(w, r, opts, conf, generatedID, trace, p);
    completed := None;
    responseLog := ResponseNotLogged;
    if !ranNext {
      return;
    }
    ghost var before := w.State();
    var ww := new StatusResponseWriter.Wrap(w);
    RunHandler(ww, handler);
    ghost var after := w.State();
    assert after == AfterSteps(before, handler, w.canFlush);
    var status := ww.Status();
    var responseHeaders := FormatHeaders(ww.inner.header);
    completed := Some(CompletedLog(status, StatusClass(status), responseHeaders));
    responseLog := LogResponse(ww, opts, responseRead, p);
  }
}
