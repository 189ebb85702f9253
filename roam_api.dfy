/**
 * The client of Roam's append-blocks endpoint: the request a note or a to-do
 * becomes, and how the endpoint's answer is classified into success or a failure
 * the sync worker can act on.
 *
 * The request body is a JSON tree; the bytes it serialises to, the HTTP transport
 * and the parsing of a response body are not modelled: a response enters as a
 * `Response` value that already carries the parsed JSON (if the body parsed) and
 * the body decoded as UTF-8 (if it decoded).
 */
module Roam {
  import opened Options
  import opened Text
  import opened Clock

  datatype Json =
    | JNull
    | JBool(b: bool)
    | JNumber(n: int)
    | JString(s: string)
    | JArray(elems: seq<Json>)
    | JObject(fields: map<string, Json>)

  /** Where a block is appended: today's daily-note page, or a page by title. */
  datatype RoamLocation = DailyNote | Page(title: string)

  /** `RoamAPI(graphName:apiToken:)` */
  datatype RoamApi = RoamApi(graphName: string, apiToken: string)

  /** What `sendNoteBlock` hands to the transport. */
  datatype Request = Request(url: string, httpMethod: string, headers: map<string, string>, body: Json)

  const TodoMarker: string := "{{[[TODO]]}} "

  function AppendBlocksUrl(graphName: string): string {
    "https://append-api.roamresearch.com/api/graph/" + graphName + "/append-blocks"
  }

  /** The `location` object: the page (by daily-note key or by title) and, when
      the trimmed `nestUnder` is non-empty, the block to nest under. `dateKey` is
      the `MM-dd-yyyy` key of the local day the request is built on. */
  function LocationPayload(location: RoamLocation, dateKey: string, nestUnder: Option<string>): Json {
    var page := map["page" := PagePayload(location, dateKey)];
    var nest := if nestUnder.Some? then Trim(nestUnder.value) else "";
    if nest != "" then JObject(page["nest-under" := JObject(map["string" := JString(nest)])])
    else JObject(page)
  }

  /** The `page` object: the daily note's key, or the page's title. */
  function PagePayload(location: RoamLocation, dateKey: string): Json {
    var title :=
      match location
      case DailyNote => JObject(map["daily-note-page" := JString(dateKey)])
      case Page(t) => JString(t);
    JObject(map["title" := title])
  }

  /** The request body of an append: the location object and a single block. */
  function Payload(content: string, location: RoamLocation, dateKey: string, nestUnder: Option<string>): Json {
    JObject(map["location" := LocationPayload(location, dateKey, nestUnder),
                "append-data" := JArray([JObject(map["string" := JString(content)])])])
  }

  /** The page a location names, as a body reads it back. */
  function TargetFor(location: RoamLocation, dateKey: string): Target {
    match location
    case DailyNote => DailyNotePage(dateKey)
    case Page(t) => PageTitle(t)
  }

  /** The trimmed block to nest under, if any is left after trimming. */
  function NestFor(nestUnder: Option<string>): Option<string> {
    if nestUnder.Some? && Trim(nestUnder.value) != "" then Some(Trim(nestUnder.value)) else None
  }

  /** Reading a payload back gives the one block's text, the page it goes to and
      the trimmed block to nest under, if any is left after trimming. */
  lemma PayloadReadsBack(content: string, location: RoamLocation, dateKey: string, nestUnder: Option<string>)
    ensures var j := Payload(content, location, dateKey, nestUnder);
            && ReadAppendData(j) == Some([content])
            && ReadTarget(j) == Some(TargetFor(location, dateKey))
            && ReadNestUnder(j) == NestFor(nestUnder)
  {
    var entry := JObject(map["string" := JString(content)]);
    var loc := LocationPayload(location, dateKey, nestUnder);
    var j := Payload(content, location, dateKey, nestUnder);
    SingleBlock(content);
    PageReadsBack(location, dateKey, nestUnder);
    NestReadsBack(location, dateKey, nestUnder);
    assert Field(j, "location") == Some(loc);
    assert Field(j, "append-data") == Some(JArray([entry]));
  }

  lemma SingleBlock(content: string)
    ensures BlockStrings([JObject(map["string" := JString(content)])]) == Some([content])
  {
    var entry := JObject(map["string" := JString(content)]);
    assert Field(entry, "string") == Some(JString(content));
    assert [entry][1..] == [] && BlockStrings([]) == Some([]);
    assert [content] + [] == [content];
  }

  lemma PageReadsBack(location: RoamLocation, dateKey: string, nestUnder: Option<string>)
    ensures TargetOf(LocationPayload(location, dateKey, nestUnder)) == Some(TargetFor(location, dateKey))
  {
    var loc := LocationPayload(location, dateKey, nestUnder);
    assert Field(loc, "page") == Some(PagePayload(location, dateKey));
    PageObjectReadsBack(location, dateKey);
  }

  lemma PageObjectReadsBack(location: RoamLocation, dateKey: string)
    ensures PageTarget(PagePayload(location, dateKey)) == Some(TargetFor(location, dateKey))
  {
    var page := PagePayload(location, dateKey);
    if location.DailyNote? {
      var title := JObject(map["daily-note-page" := JString(dateKey)]);
      assert Field(page, "title") == Some(title);
      assert Field(title, "daily-note-page") == Some(JString(dateKey));
    } else {
      assert Field(page, "title") == Some(JString(location.title));
    }
  }

  lemma NestReadsBack(location: RoamLocation, dateKey: string, nestUnder: Option<string>)
    ensures NestOf(LocationPayload(location, dateKey, nestUnder)) == NestFor(nestUnder)
  {
    var loc := LocationPayload(location, dateKey, nestUnder);
    if nestUnder.Some? && Trim(nestUnder.value) != "" {
      var nest := JObject(map["string" := JString(Trim(nestUnder.value))]);
      assert Field(loc, "nest-under") == Some(nest);
      assert Field(nest, "string") == Some(JString(Trim(nestUnder.value)));
    } else {
      assert Field(loc, "nest-under") == None;
    }
  }

  /** `sendNoteBlock`: a POST of the payload to the graph's endpoint, with the
      token as a bearer credential. */
  function NoteRequest(api: RoamApi, content: string, location: RoamLocation, today: LocalDateTime, nestUnder: Option<string>): (r: Request)
    requires 1 <= today.month <= 12 && 1 <= today.day <= 31
    ensures r.url == AppendBlocksUrl(api.graphName) && r.httpMethod == "POST"
    ensures r.headers == map["Authorization" := "Bearer " + api.apiToken, "Content-Type" := "application/json"]
    ensures r.body == Payload(content, location, FormatDateKey(today), nestUnder)
  {
    Request(AppendBlocksUrl(api.graphName), "POST",
            map["Authorization" := "Bearer " + api.apiToken, "Content-Type" := "application/json"],
            Payload(content, location, FormatDateKey(today), nestUnder))
  }

  /** `sendTodoBlock`: a note whose text carries the TODO marker. */
  function TodoRequest(api: RoamApi, content: string, location: RoamLocation, today: LocalDateTime, nestUnder: Option<string>): Request
    requires 1 <= today.month <= 12 && 1 <= today.day <= 31
  {
    NoteRequest(api, TodoMarker + content, location, today, nestUnder)
  }

  /** A to-do request and a note request differ only in the text appended: the
      same endpoint, headers, page and nesting. */
  lemma TodoIsMarkedNote(api: RoamApi, content: string, location: RoamLocation, today: LocalDateTime, nestUnder: Option<string>)
    requires 1 <= today.month <= 12 && 1 <= today.day <= 31
    ensures var todo := TodoRequest(api, content, location, today, nestUnder);
            var note := NoteRequest(api, content, location, today, nestUnder);
            && todo.url == note.url && todo.httpMethod == note.httpMethod && todo.headers == note.headers
            && ReadTarget(todo.body) == ReadTarget(note.body)
            && ReadNestUnder(todo.body) == ReadNestUnder(note.body)
            && ReadAppendData(todo.body) == Some([TodoMarker + content])
            && ReadAppendData(note.body) == Some([content])
  {
    PayloadReadsBack(content, location, FormatDateKey(today), nestUnder);
    PayloadReadsBack(TodoMarker + content, location, FormatDateKey(today), nestUnder);
  }

  // ---------------------------------------------------------------------------
  // Reading a request body back

  datatype Target = DailyNotePage(dateKey: string) | PageTitle(title: string)

  function Field(j: Json, key: string): Option<Json> {
    if j.JObject? && key in j.fields then Some(j.fields[key]) else None
  }

  /** The page a body appends to. */
  function ReadTarget(body: Json): Option<Target> {
    var location := Field(body, "location");
    if location.Some? then TargetOf(location.value) else None
  }

  /** The page a location object names. */
  function TargetOf(location: Json): Option<Target> {
    var page := Field(location, "page");
    if page.Some? then PageTarget(page.value) else None
  }

  /** The page a page object names. */
  function PageTarget(page: Json): Option<Target> {
    var title := Field(page, "title");
    if title.None? then None
    else match title.value
      case JString(t) => Some(PageTitle(t))
      case JObject(_) =>
        var key := Field(title.value, "daily-note-page");
        if key.Some? && key.value.JString? then Some(DailyNotePage(key.value.s)) else None
      case _ => None
  }

  /** The block text a body nests under, if it names one. */
  function ReadNestUnder(body: Json): Option<string> {
    var location := Field(body, "location");
    if location.Some? then NestOf(location.value) else None
  }

  /** The block text a location object nests under, if it names one. */
  function NestOf(location: Json): Option<string> {
    var nest := Field(location, "nest-under");
    var text := if nest.Some? then Field(nest.value, "string") else None;
    if text.Some? && text.value.JString? then Some(text.value.s) else None
  }

  /** The block texts a body appends, if every entry is a `{string: ...}` object. */
  function ReadAppendData(body: Json): Option<seq<string>> {
    var data := Field(body, "append-data");
    if data.Some? && data.value.JArray? then BlockStrings(data.value.elems) else None
  }

  function BlockStrings(entries: seq<Json>): Option<seq<string>> {
    if entries == [] then Some([])
    else
      var text := Field(entries[0], "string");
      var rest := BlockStrings(entries[1..]);
      if text.Some? && text.value.JString? && rest.Some? then Some([text.value.s] + rest.value) else None
  }

  // ---------------------------------------------------------------------------
  // Responses

  /** A response body: its JSON parse (absent if it did not parse) and its UTF-8
      decoding (absent if it did not decode). */
  datatype ResponseData = ResponseData(json: Option<Json>, utf8: Option<string>)

  datatype Response =
    | TransportError(description: string)          // the data task failed
    | NonHttpResponse                              // the response is not an HTTPURLResponse
    | HttpResponse(statusCode: int, data: Option<ResponseData>)

  /** The errors a send completes with: `RoamAPIError`, or any other `Error`
      (which carries no status code). */
  datatype SendError =
    | RoamApiError(message: string, statusCode: Option<int>)
    | SystemError(description: string)

  datatype SendResult = Sent | Failed(error: SendError)

  /** `NSError(domain:code:).localizedDescription` */
  function NSErrorDescription(domain: string, code: int): string {
    "The operation couldn’t be completed. (" + domain + " error " + IntToString(code) + ".)"
  }

  /** `error.localizedDescription`: a `RoamAPIError` describes itself by its message. */
  function LocalizedDescription(e: SendError): string {
    match e
    case RoamApiError(message, _) => message
    case SystemError(description) => description
  }

  /** `(error as? RoamAPIError)?.statusCode` */
  function StatusCodeOf(e: SendError): (code: Option<int>)
    ensures e.SystemError? ==> code.None?
  {
    if e.RoamApiError? then e.statusCode else None
  }

  /** The body parsed as a JSON object whose `message` is a non-empty string. */
  predicate HasJsonMessage(data: Option<ResponseData>) {
    && data.Some? && data.value.json.Some?
    && var message := Field(data.value.json.value, "message");
       message.Some? && message.value.JString? && message.value.s != ""
  }

  /** The body decodes as non-empty UTF-8 text. */
  predicate HasTextBody(data: Option<ResponseData>) {
    data.Some? && data.value.utf8.Some? && data.value.utf8.value != ""
  }

  /** The server's explanation: a non-empty JSON `message` string, else the
      non-empty body text. */
  function ServerMessage(data: Option<ResponseData>): (m: Option<string>)
    ensures m.Some? ==> m.value != ""
    ensures HasJsonMessage(data) ==> m == Some(Field(data.value.json.value, "message").value.s)
    ensures !HasJsonMessage(data) && HasTextBody(data) ==> m == data.value.utf8
    ensures !HasJsonMessage(data) && !HasTextBody(data) ==> m.None?
  {
    if data.None? then None
    else
      var message := if data.value.json.Some? then Field(data.value.json.value, "message") else None;
      if message.Some? && message.value.JString? && message.value.s != "" then Some(message.value.s)
      else if data.value.utf8.Some? && data.value.utf8.value != "" then data.value.utf8
      else None
  }

  /** The message of the error a non-200 status completes with. */
  function ErrorMessage(statusCode: int, data: Option<ResponseData>): (m: string)
    ensures var head := "HTTP " + IntToString(statusCode);
            && (ServerMessage(data).None? ==> m == head)
            && (ServerMessage(data).Some? ==> m == head + " - " + ServerMessage(data).value)
  {
    var head := "HTTP " + IntToString(statusCode);
    match ServerMessage(data)
    case Some(msg) => head + " - " + msg
    case None => head
  }

  /** What the send completes with, for each response. */
  function Classify(response: Response): (r: SendResult)
    ensures r.Sent? <==> response.HttpResponse? && response.statusCode == 200
    ensures r.Failed? && response.HttpResponse? ==> StatusCodeOf(r.error) == Some(response.statusCode)
    ensures r.Failed? && !response.HttpResponse? ==> StatusCodeOf(r.error).None?
    ensures r.Failed? && response.HttpResponse? ==>
              r.error == RoamApiError(ErrorMessage(response.statusCode, response.data), Some(response.statusCode))
    ensures response.TransportError? ==> r == Failed(SystemError(response.description))
    ensures response.NonHttpResponse? ==> r == Failed(SystemError(NSErrorDescription("NoHTTPResponse", -2)))
  {
    match response
    case TransportError(description) => Failed(SystemError(description))
    case NonHttpResponse => Failed(SystemError(NSErrorDescription("NoHTTPResponse", -2)))
    case HttpResponse(code, data) =>
      if code == 200 then Sent
      else Failed(RoamApiError(ErrorMessage(code, data), Some(code)))
  }

  /** The message of a rejected request begins with the status line, and its
      status code can be read back from it. */
  lemma ErrorMessageNamesStatus(statusCode: int, data: Option<ResponseData>)
    requires statusCode != 200
    ensures var m := LocalizedDescription(Classify(HttpResponse(statusCode, data)).error);
            var code := IntToString(statusCode);
            && |m| >= 5 + |code| && m[..5] == "HTTP " && m[5..5 + |code|] == code
            && (5 + |code| == |m| || m[5 + |code|] == ' ')
  {
    var m := LocalizedDescription(Classify(HttpResponse(statusCode, data)).error);
    var code := IntToString(statusCode);
    assert m[..5 + |code|] == "HTTP " + code;
    assert m[..5] == "HTTP ";
    assert ("HTTP " + code)[5..] == code;
  }
}
