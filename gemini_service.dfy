/** The request-building and response-checking logic of the counting client
    (services/geminiService.ts, `countObjectsInImage`). The call to the remote
    model and `JSON.parse` are outside the model: their combined outcome is the
    `Reply` parameter. */
module GeminiService {
  import opened Wrappers
  import opened JsString
  import opened Types

  /** A JSON value as `JSON.parse` produces it (numbers modelled as integers;
      duplicate object keys already resolved, the last one winning). */
  datatype Json =
    | JNull
    | JBool(b: bool)
    | JNumber(n: int)
    | JString(s: string)
    | JArray(items: seq<Json>)
    | JObject(members: map<string, Json>)

  /** JavaScript truthiness of a parsed value: `null`, `false`, `0` and `""` are
      falsy; every array and object, even an empty one, is truthy. */
  predicate JsonTruthy(v: Json) {
    match v
    case JNull => false
    case JBool(b) => b
    case JNumber(n) => n != 0
    case JString(s) => s != ""
    case JArray(_) => true
    case JObject(_) => true
  }

  /** The property read `v.counts`; `None` stands for `undefined`. No JSON
      value other than an object has a property of that name. */
  function CountsProperty(v: Json): Option<Json> {
    match v
    case JObject(m) => if "counts" in m then Some(m["counts"]) else None
    case _ => None
  }

  /** `Array.isArray` of a property read. */
  predicate IsArray(p: Option<Json>) {
    p.Some? && p.value.JArray?
  }

  const InvalidMimeType := "Invalid image MIME type"
  const InvalidResponseFormat := "Invalid response format from API."
  const FailurePrefix := "Failed to analyze image: "
  const UnknownFailure := "An unknown error occurred while analyzing the image."

  const CountPromptPrefix := "Analyze the image and count the occurrences of the following objects: "
  const AutoDetectPrompt := "Analyze the image and identify all distinct objects. For each object type you identify, provide its name and the total count of its occurrences in the image. Return an empty array if no objects are found."

  /** Everything after the first comma of a data URI, or the whole string when
      there is no comma (`indexOf` gives -1 and `substring(0)` is the identity). */
  function StripBase64Prefix(dataUri: string): (r: string)
    ensures |r| <= |dataUri| && dataUri == dataUri[..|dataUri| - |r|] + r
    ensures ',' !in dataUri ==> r == dataUri
    ensures ',' in dataUri ==> |r| < |dataUri|
    ensures ',' in dataUri ==> (dataUri[|dataUri| - |r| - 1] == ',' && ',' !in dataUri[..|dataUri| - |r| - 1])
  {
    var r := SubstringFrom(dataUri, IndexOf(dataUri, ',') + 1);
    assert dataUri == dataUri[..|dataUri| - |r|] + r;
    r
  }

  /** `imageUri.substring(5, imageUri.indexOf(';'))`: the text between `data:`
      and the first `;`. Without a `;` the end argument is -1, so `substring`
      swaps its arguments and yields the first five characters. */
  function MimeTypeOf(imageUri: string): (r: string)
    ensures ';' !in imageUri ==> r == imageUri[..Clamp(5, |imageUri|)]
    ensures |r| <= |imageUri|
  {
    Substring(imageUri, 5, IndexOf(imageUri, ';'))
  }

  predicate IsImageMimeType(mimeType: string) {
    StartsWith(mimeType, "image/")
  }

  /** The instruction sent with the image: the requested labels joined by
      `", "`, or the auto-detect instruction when the list is empty. */
  function PromptFor(labels: seq<string>): (p: string)
    ensures |labels| > 0 ==> p == CountPromptPrefix + Join(labels, ", ") + "."
    ensures |labels| == 0 ==> p == AutoDetectPrompt
  {
    if |labels| > 0 then CountPromptPrefix + Join(labels, ", ") + "."
    else AutoDetectPrompt
  }

  /** The shape test `result && Array.isArray(result.counts)`: the array is
      returned as it is, anything else raises the format error. */
  function CheckResponse(result: Json): (r: Result<seq<Json>, Thrown>)
    ensures r.Success? <==>
      result.JObject? && "counts" in result.members && result.members["counts"].JArray?
    ensures r.Success? ==> r.value == result.members["counts"].items
    ensures r.Failure? ==> r.error == ErrorObject("Invalid response format from API.")
  {
    if JsonTruthy(result) && IsArray(CountsProperty(result)) then Success(CountsProperty(result).value.items)
    else Failure(ErrorObject(InvalidResponseFormat))
  }

  /** The `catch` block: an `Error` is rethrown with the prefix in front of its
      message, anything else as the fixed unknown-failure message. */
  function WrapFailure(t: Thrown): (message: string)
    ensures t.ErrorObject? ==> |message| == |FailurePrefix| + |t.message|
    ensures t.ErrorObject? ==> StartsWith(message, "Failed to analyze image: ")
    ensures t.ErrorObject? ==> message[|FailurePrefix|..] == t.message
    ensures t.NonError? ==> message == "An unknown error occurred while analyzing the image."
  {
    match t
    case ErrorObject(m) => FailurePrefix + m
    case NonError => UnknownFailure
  }

  /** The single request made to the model: image payload, its MIME type and the prompt. */
  datatype Request = Request(model: GeminiModel, data: string, mimeType: string, prompt: string)

  /** How the awaited model call and `JSON.parse` of its trimmed text settle. */
  datatype Reply =
    | CallRejected(thrown: Thrown)
    | Unparsable(syntaxError: string)
    | Parsed(result: Json)

  /** What one call of `countObjectsInImage` does: the request it sends (at most
      one) and how its promise settles (the records, or the message of the `Error`
      it throws). */
  datatype Counted = Counted(request: Option<Request>, outcome: Result<seq<Json>, string>)

  /** How the promise settles once the request has been sent: a rejected call
      or unparsable text is wrapped, a parsed value goes through the shape test. */
  function Settle(reply: Reply): (outcome: Result<seq<Json>, string>)
    ensures outcome.Success? <==> reply.Parsed? && CheckResponse(reply.result).Success?
    ensures outcome.Success? ==> outcome.value == CheckResponse(reply.result).value
    ensures reply.CallRejected? ==> outcome == Failure(WrapFailure(reply.thrown))
    ensures reply.Unparsable? ==> outcome == Failure(WrapFailure(ErrorObject(reply.syntaxError)))
    ensures reply.Parsed? && CheckResponse(reply.result).Failure? ==> outcome == Failure(FailurePrefix + InvalidResponseFormat)
    ensures outcome.Failure? ==> StartsWith(outcome.error, FailurePrefix) || outcome.error == UnknownFailure
  {
    match reply
    case CallRejected(t) => Failure(WrapFailure(t))
    case Unparsable(m) => Failure(WrapFailure(ErrorObject(m)))
    case Parsed(result) =>
      match CheckResponse(result)
      case Success(counts) => Success(counts)
      case Failure(t) => Failure(WrapFailure(t))
  }

  function CountObjectsInImage(imageUri: string, labels: seq<string>, model: GeminiModel, reply: Reply): (c: Counted)
    ensures c.request.None? <==> !IsImageMimeType(MimeTypeOf(imageUri))
    ensures c.request.None? ==> c.outcome == Failure(FailurePrefix + InvalidMimeType)
    ensures c.request.Some? ==> c.request.value == Request(model, StripBase64Prefix(imageUri), MimeTypeOf(imageUri), PromptFor(labels))
    ensures c.request.Some? ==> c.outcome == Settle(reply)
    ensures c.outcome.Failure? ==> StartsWith(c.outcome.error, FailurePrefix) || c.outcome.error == UnknownFailure
  {
    var base64Data := StripBase64Prefix(imageUri);
    var mimeType := MimeTypeOf(imageUri);
    if !IsImageMimeType(mimeType) then
      Counted(None, Failure(WrapFailure(ErrorObject(InvalidMimeType))))
    else
      Counted(Some(Request(model, base64Data, mimeType, PromptFor(labels))), Settle(reply))
  }

  /** Data URIs of the `data:<mediatype>;base64,<data>` form of RFC 2397, section 3,
      come apart into their media type and payload. */
  lemma DataUriRoundTrip(mimeType: string, payload: string)
    requires ';' !in mimeType && ',' !in mimeType
    ensures MimeTypeOf("data:" + mimeType + ";base64," + payload) == mimeType
    ensures StripBase64Prefix("data:" + mimeType + ";base64," + payload) == payload
  {
    DataUriMimeType(mimeType, payload);
    DataUriPayload(mimeType, payload);
  }

  lemma DataUriMimeType(mimeType: string, payload: string)
    requires ';' !in mimeType
    ensures MimeTypeOf("data:" + mimeType + ";base64," + payload) == mimeType
  {
    var uri := "data:" + mimeType + ";base64," + payload;
    assert uri == ("data:" + mimeType) + [';'] + ("base64," + payload);
    IndexOfAfter("data:" + mimeType, ';', "base64," + payload);
    assert uri[5..5 + |mimeType|] == mimeType;
  }

  lemma DataUriPayload(mimeType: string, payload: string)
    requires ',' !in mimeType
    ensures StripBase64Prefix("data:" + mimeType + ";base64," + payload) == payload
  {
    var uri := "data:" + mimeType + ";base64," + payload;
    assert uri == ("data:" + mimeType + ";base64") + [','] + payload;
    IndexOfAfter("data:" + mimeType + ";base64", ',', payload);
    assert uri[5 + |mimeType| + 8..] == payload;
  }

  /** A string with no `;` never passes the MIME check: its "MIME type" is at most five characters. */
  lemma NoSemicolonIsRejected(imageUri: string, labels: seq<string>, model: GeminiModel, reply: Reply)
    requires ';' !in imageUri
    ensures CountObjectsInImage(imageUri, labels, model, reply).request.None?
  {
  }

  /** A rejected MIME type is decided before any request: the reply plays no part. */
  lemma InvalidMimeIgnoresReply(imageUri: string, labels: seq<string>, model: GeminiModel, r1: Reply, r2: Reply)
    requires !IsImageMimeType(MimeTypeOf(imageUri))
    ensures CountObjectsInImage(imageUri, labels, model, r1) == CountObjectsInImage(imageUri, labels, model, r2)
  {
  }

  /** A well-formed image data URI is sent as its MIME type and payload, and an
      accepted reply returns the `counts` array exactly as parsed. */
  lemma SendsPayloadReturnsCounts(mimeType: string, payload: string, labels: seq<string>, model: GeminiModel, counts: seq<Json>, others: map<string, Json>)
    requires ';' !in mimeType && ',' !in mimeType && StartsWith(mimeType, "image/")
    ensures var c := CountObjectsInImage("data:" + mimeType + ";base64," + payload, labels, model,
                                         Parsed(JObject(others["counts" := JArray(counts)])));
            c.request == Some(Request(model, payload, mimeType, PromptFor(labels))) && c.outcome == Success(counts)
  {
    var uri := "data:" + mimeType + ";base64," + payload;
    DataUriRoundTrip(mimeType, payload);
    assert IsImageMimeType(MimeTypeOf(uri));
    CountsArrayAccepted(counts, others);
  }

  /** An object whose `counts` property is an array settles to that array,
      whatever its other properties. */
  lemma CountsArrayAccepted(counts: seq<Json>, others: map<string, Json>)
    ensures Settle(Parsed(JObject(others["counts" := JArray(counts)]))) == Success(counts)
  {
    var m := others["counts" := JArray(counts)];
    assert "counts" in m && m["counts"] == JArray(counts);
    assert CheckResponse(JObject(m)) == Success(counts);
  }

  /** `{}` is truthy but has no `counts` array, so it is refused with the format error. */
  lemma EmptyObjectRejected()
    ensures Settle(Parsed(JObject(map[]))) == Failure(FailurePrefix + InvalidResponseFormat)
  {
    var empty: map<string, Json> := map[];
    assert CheckResponse(JObject(empty)) == Failure(ErrorObject(InvalidResponseFormat));
  }

  /** The worked example: `{"counts":[{"label":"zebra","count":3},{"label":"tree","count":0}]}`. */
  lemma ZebraTreeExample(labels: seq<string>, model: GeminiModel)
    ensures var zebra := JObject(map["label" := JString("zebra"), "count" := JNumber(3)]);
            var tree := JObject(map["label" := JString("tree"), "count" := JNumber(0)]);
            CountObjectsInImage("data:image/png;base64,AAAA", labels, model,
                                Parsed(JObject(map["counts" := JArray([zebra, tree])]))).outcome
            == Success([zebra, tree])
  {
    var zebra := JObject(map["label" := JString("zebra"), "count" := JNumber(3)]);
    var tree := JObject(map["label" := JString("tree"), "count" := JNumber(0)]);
    var empty: map<string, Json> := map[];
    assert "data:image/png;base64,AAAA" == "data:" + "image/png" + ";base64," + "AAAA";
    assert StartsWith("image/png", "image/");
    SendsPayloadReturnsCounts("image/png", "AAAA", labels, model, [zebra, tree], empty);
    assert empty["counts" := JArray([zebra, tree])] == map["counts" := JArray([zebra, tree])];
  }
}
