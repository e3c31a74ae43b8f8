/** The application coordinator (App.tsx): the component's state fields as a
    class, its event handlers as methods, and the two pure helpers it uses, the
    label parse and the fold of the service's records into a dictionary.
    Outcomes of asynchronous browser work (file reads, image loads, fetches,
    the counting call) are parameters of the handlers. */
module App {
  import opened Wrappers
  import opened JsString
  import opened Types
  import opened GeminiService
  import opened ResultDisplay

  // ---------------------------------------------------------------------------
  // Label parsing: labels.split(',').map(l => l.trim()).filter(l => l)

  /** A label as the parse delivers it: non-empty, comma-free, trimmed. */
  predicate IsLabel(x: string) {
    x != "" && ',' !in x && IsTrimmed(x)
  }

  predicate AllLabels(xs: seq<string>) {
    forall i :: 0 <= i < |xs| ==> IsLabel(xs[i])
  }

  lemma AllLabelsConcat(xs: seq<string>, ys: seq<string>)
    requires AllLabels(xs) && AllLabels(ys)
    ensures AllLabels(xs + ys)
  {
    forall i | 0 <= i < |xs + ys| ensures IsLabel((xs + ys)[i]) {
      if i >= |xs| { assert (xs + ys)[i] == ys[i - |xs|]; }
    }
  }

  /** The label kept for one token by `.map(l => l.trim()).filter(l => l)`:
      the trimmed token, or nothing when trimming leaves the (falsy) empty string. */
  function CleanToken(t: string): seq<string> {
    if Trim(t) == "" then [] else [Trim(t)]
  }

  /** `.map(l => l.trim()).filter(l => l)`, one token at a time and in order. */
  function Clean(tokens: seq<string>): seq<string>
    decreases |tokens|
  {
    if tokens == [] then [] else CleanToken(tokens[0]) + Clean(tokens[1..])
  }

  lemma {:induction false} CleanConcat(xs: seq<string>, ys: seq<string>)
    ensures Clean(xs + ys) == Clean(xs) + Clean(ys)
    decreases |xs|
  {
    if xs == [] {
      assert xs + ys == ys;
    } else {
      assert (xs + ys)[0] == xs[0] && (xs + ys)[1..] == xs[1..] + ys;
      CleanConcat(xs[1..], ys);
    }
  }

  /** A comma-free token yields a label or nothing. */
  lemma CleanTokenIsLabel(t: string)
    requires ',' !in t
    ensures AllLabels(CleanToken(t))
  {
    TrimAddsNothing(t, ',');
    TrimIsTrimmed(t);
  }

  /** Cleaning comma-free tokens leaves only labels. */
  lemma {:induction false} CleanTokensAreLabels(tokens: seq<string>)
    requires forall i :: 0 <= i < |tokens| ==> ',' !in tokens[i]
    ensures AllLabels(Clean(tokens))
    decreases |tokens|
  {
    if tokens != [] {
      var t, rest := tokens[0], tokens[1..];
      assert forall i :: 0 <= i < |rest| ==> ',' !in rest[i];
      CleanTokensAreLabels(rest);
      CleanTokenIsLabel(t);
      AllLabelsConcat(CleanToken(t), Clean(rest));
    }
  }

  /** The label list sent with a submit. */
  function ParseLabels(text: string): seq<string> {
    Clean(Split(text, ','))
  }

  /** Every parsed label is non-empty, comma-free and trimmed. */
  lemma ParseLabelsAreLabels(text: string)
    ensures AllLabels(ParseLabels(text))
  {
    SplitPiecesLackSeparator(text, ',');
    CleanTokensAreLabels(Split(text, ','));
  }

  /** Cutting the text at a comma cuts the label list at the same place. */
  lemma ParseLabelsConcat(a: string, b: string)
    ensures ParseLabels(a + "," + b) == ParseLabels(a) + ParseLabels(b)
  {
    SplitConcat(a, ',', b);
    CleanConcat(Split(a, ','), Split(b, ','));
  }

  /** Text without a comma is one token: the label is the trimmed text, unless that is empty. */
  lemma ParseLabelsToken(t: string)
    requires ',' !in t
    ensures ParseLabels(t) == if Trim(t) == "" then [] else [Trim(t)]
  {
    SplitNoSeparator(t, ',');
    assert Clean([t]) == CleanToken(t) + Clean([]);
  }

  /** The example `"cat, , dog,"` generalised to any two labels: the blank entry
      and the trailing comma vanish. */
  lemma BlankEntriesVanish(x: string, y: string)
    requires IsLabel(x) && IsLabel(y)
    ensures ParseLabels(x + ", , " + y + ",") == [x, y]
  {
    var tail := " " + "," + (" " + y + "," + "");
    ExampleCuts(x, y);
    ParseLabelsConcat(x, tail);
    assert "" + x == x;
    ParseLabelsSingle("", x);
    BlankEntriesVanishTail(y);
  }

  lemma ExampleCuts(x: string, y: string)
    ensures x + ", , " + y + "," == x + "," + (" " + "," + (" " + y + "," + ""))
  {
    var r := x + "," + (" " + "," + (" " + y + "," + ""));
    assert |r| == |x| + 4 + |y| + 1;
    forall k | 0 <= k < |r| ensures r[k] == (x + ", , " + y + ",")[k] {
    }
  }

  lemma BlankEntriesVanishTail(y: string)
    requires IsLabel(y)
    ensures ParseLabels(" " + "," + (" " + y + "," + "")) == [y]
  {
    var w := " ";
    assert AllWhitespace(w);
    ParseLabelsConcat(w, w + y + "," + "");
    ParseLabelsBlank(w);
    ParseLabelsConcat(w + y, "");
    ParseLabelsSingle(w, y);
    ParseLabelsBlank("");
  }

  lemma WhitespaceHasNoComma(w: string)
    requires AllWhitespace(w)
    ensures ',' !in w
  {
    forall k | 0 <= k < |w| ensures w[k] != ',' {
      assert IsWhitespace(w[k]);
    }
  }

  /** A single well-formed label behind white space parses to itself. */
  lemma ParseLabelsSingle(w: string, x: string)
    requires AllWhitespace(w) && IsLabel(x)
    ensures ParseLabels(w + x) == [x]
  {
    WhitespaceHasNoComma(w);
    TrimAfterWhitespace(w, x);
    ParseLabelsToken(w + x);
  }

  /** Text made only of white space has no labels. */
  lemma ParseLabelsBlank(w: string)
    requires AllWhitespace(w)
    ensures ParseLabels(w) == []
  {
    WhitespaceHasNoComma(w);
    TrimEmpty(w);
    ParseLabelsToken(w);
  }

  lemma JoinStep(w: string, labels: seq<string>)
    requires |labels| >= 2
    ensures w + Join(labels, ", ") == (w + labels[0]) + "," + (" " + Join(labels[1..], ", "))
  {
  }

  lemma ParseLabelsStep(w: string, labels: seq<string>)
    requires |labels| >= 2
    ensures ParseLabels(w + Join(labels, ", ")) == ParseLabels(w + labels[0]) + ParseLabels(" " + Join(labels[1..], ", "))
  {
    JoinStep(w, labels);
    ParseLabelsConcat(w + labels[0], " " + Join(labels[1..], ", "));
  }

  /** One step of the induction below: a label, the separator, and a tail that parses back. */
  lemma ParseLabelsCons(w: string, labels: seq<string>)
    requires AllWhitespace(w) && |labels| >= 2 && IsLabel(labels[0])
    requires ParseLabels(" " + Join(labels[1..], ", ")) == labels[1..]
    ensures ParseLabels(w + Join(labels, ", ")) == labels
  {
    assert labels == [labels[0]] + labels[1..];
    ParseLabelsStep(w, labels);
    ParseLabelsSingle(w, labels[0]);
  }

  lemma {:induction false} ParseLabelsAfterWhitespace(w: string, labels: seq<string>)
    requires AllWhitespace(w)
    requires AllLabels(labels)
    ensures ParseLabels(w + Join(labels, ", ")) == labels
    decreases |labels|
  {
    if |labels| == 0 {
      assert w + Join(labels, ", ") == w;
      ParseLabelsBlank(w);
    } else if |labels| == 1 {
      assert w + Join(labels, ", ") == w + labels[0];
      ParseLabelsSingle(w, labels[0]);
    } else {
      assert AllWhitespace(" ");
      ParseLabelsAfterWhitespace(" ", labels[1..]);
      ParseLabelsCons(w, labels);
    }
  }

  /** Parsing undoes `join(', ')` on well-formed labels. */
  lemma ParseLabelsJoin(labels: seq<string>)
    requires AllLabels(labels)
    ensures ParseLabels(Join(labels, ", ")) == labels
  {
    assert "" + Join(labels, ", ") == Join(labels, ", ");
    ParseLabelsAfterWhitespace("", labels);
  }

  /** The prompt carries the parsed labels, in order, recoverably: the text between
      the fixed prefix and the final period parses back to the same list. */
  lemma PromptCarriesLabels(text: string)
    ensures var labels := ParseLabels(text);
            var p := PromptFor(labels);
            (labels == [] ==> p == AutoDetectPrompt) &&
            (labels != [] ==> StartsWith(p, CountPromptPrefix) && p[|p| - 1] == '.' &&
                              ParseLabels(p[|CountPromptPrefix|..|p| - 1]) == labels)
  {
    var labels := ParseLabels(text);
    ParseLabelsAreLabels(text);
    if labels != [] {
      var p := PromptFor(labels);
      assert p[|CountPromptPrefix|..|p| - 1] == Join(labels, ", ");
      ParseLabelsJoin(labels);
    }
  }

  // ---------------------------------------------------------------------------
  // The fold of the service's records: acc[item.label] = item.count

  /** The dictionary after writing every record in order, starting from `{}`. */
  function Reduce(items: seq<CountResult>): ObjectCounts
    decreases |items|
  {
    if items == [] then []
    else
      var n := |items| - 1;
      Assign(Reduce(items[..n]), items[n].objectLabel, items[n].count)
  }

  /** The labels occurring in the records. */
  function LabelsOf(items: seq<CountResult>): set<string>
    decreases |items|
  {
    if items == [] then {} else LabelsOf(items[..|items| - 1]) + {items[|items| - 1].objectLabel}
  }

  /** The dictionary's keys are exactly the labels of the records, bar `__proto__`,
      each stored once. */
  lemma {:induction false} ReduceKeys(items: seq<CountResult>)
    ensures Keys(Reduce(items)) == LabelsOf(items) - {ProtoKey}
    ensures DistinctKeys(Reduce(items))
    decreases |items|
  {
    if items != [] {
      var n := |items| - 1;
      ReduceKeys(items[..n]);
      if items[n].objectLabel != ProtoKey {
        PutKeepsKeysDistinct(Reduce(items[..n]), items[n].objectLabel, items[n].count);
      }
    }
  }

  /** Last write wins: a label maps to the count of the last record carrying it. */
  lemma {:induction false} ReduceLastWins(items: seq<CountResult>, i: nat)
    requires i < |items|
    requires items[i].objectLabel != ProtoKey
    requires forall j :: i < j < |items| ==> items[j].objectLabel != items[i].objectLabel
    ensures Lookup(Reduce(items), items[i].objectLabel) == Some(items[i].count)
    decreases |items|
  {
    var n, prefix := |items| - 1, items[..|items| - 1];
    assert Reduce(items) == Assign(Reduce(prefix), items[n].objectLabel, items[n].count);
    if i < n {
      assert prefix[i] == items[i];
      assert forall j :: i < j < |prefix| ==> prefix[j] == items[j];
      ReduceLastWins(prefix, i);
      assert items[n].objectLabel != items[i].objectLabel;
    }
  }

  /** The worked example: zebra 3 and tree 0 become `{zebra: 3, tree: 0}`, in that order. */
  lemma ReduceExample()
    ensures Reduce([CountResult("zebra", 3), CountResult("tree", 0)]) == [Entry("zebra", 3), Entry("tree", 0)]
  {
    var items := [CountResult("zebra", 3), CountResult("tree", 0)];
    assert items[..1] == [CountResult("zebra", 3)];
    assert items[..1][..0] == [];
    assert Reduce(items[..1]) == [Entry("zebra", 3)];
    assert "tree" !in Keys([Entry("zebra", 3)]);
    PutOrder([Entry("zebra", 3)], "tree", 0);
  }

  /** A record labelled `__proto__` stores nothing, so on its own it leaves the
      panel showing that no results were found. */
  lemma ProtoRecordIsDropped(count: int, hasSubmitted: bool)
    ensures Reduce([CountResult(ProtoKey, count)]) == []
    ensures RenderContent(false, None, Some(Reduce([CountResult(ProtoKey, count)])), hasSubmitted) == NoResults
  {
    assert [CountResult(ProtoKey, count)][..0] == [];
  }

  /** `apiResults.reduce(...)`: writes one record at a time into the accumulator. */
  method ReduceResults(items: seq<CountResult>) returns (acc: ObjectCounts)
    ensures acc == Reduce(items)
  {
    acc := [];
    var i := 0;
    while i < |items|
      invariant 0 <= i <= |items|
      invariant acc == Reduce(items[..i])
    {
      assert items[..i + 1][..i] == items[..i];
      acc := Assign(acc, items[i].objectLabel, items[i].count);
      i := i + 1;
    }
    assert items[..i] == items;
  }

  // ---------------------------------------------------------------------------
  // The coordinator's inputs from the browser

  /** How `fetch(url)` and the reading of its body settle in `imageUrlToDataUrl`. */
  datatype FetchOutcome =
    | FetchRejected(message: string)   // `fetch` rejects with an Error
    | HttpNotOk(statusText: string)    // `response.ok` is false
    | ReaderFailed                     // FileReader `onerror`: rejects with a non-Error event
    | Loaded(dataUrl: string)          // FileReader `onloadend` with the data URL

  /** `imageUrlToDataUrl(url)`. */
  function ImageUrlToDataUrl(url: string, outcome: FetchOutcome): (r: Result<string, Thrown>)
    ensures r.Success? <==> outcome.Loaded?
    ensures outcome.Loaded? ==> r.value == outcome.dataUrl
    ensures outcome.FetchRejected? ==> r == Failure(ErrorObject(outcome.message))
    ensures outcome.HttpNotOk? ==> r == Failure(ErrorObject("Failed to fetch image from " + url + ": " + outcome.statusText))
    ensures outcome.ReaderFailed? ==> r == Failure(NonError)
  {
    match outcome
    case FetchRejected(m) => Failure(ErrorObject(m))
    case HttpNotOk(statusText) => Failure(ErrorObject("Failed to fetch image from " + url + ": " + statusText))
    case ReaderFailed => Failure(NonError)
    case Loaded(d) => Success(d)
  }

  /** The image handed to the counting call: a `data:image` string unchanged,
      anything else converted first. */
  function ImageForApi(selected: string, conversion: FetchOutcome): (r: Result<string, Thrown>)
    ensures StartsWith(selected, "data:image") ==> r == Success(selected)
    ensures !StartsWith(selected, "data:image") ==> r == ImageUrlToDataUrl(selected, conversion)
  {
    if StartsWith(selected, "data:image") then Success(selected) else ImageUrlToDataUrl(selected, conversion)
  }

  /** `err instanceof Error ? err.message : 'An unexpected error occurred.'` */
  function MessageOf(t: Thrown): (m: string)
    ensures t.ErrorObject? ==> m == t.message
    ensures t.NonError? ==> m == "An unexpected error occurred."
  {
    match t
    case ErrorObject(m) => m
    case NonError => "An unexpected error occurred."
  }

  /** How one preset image load of a refresh ends: the random part of its URL and whether it loaded. */
  datatype PresetLoad = PresetLoad(nonce: string, loaded: bool)

  /** The new source of a preset: `https://picsum.photos/seed/${id}${Math.random()}/800/600`. */
  function RefreshUrl(id: string, nonce: string): string {
    "https://picsum.photos/seed/" + id + nonce + "/800/600"
  }

  predicate AllLoaded(loads: seq<PresetLoad>) {
    forall i :: 0 <= i < |loads| ==> loads[i].loaded
  }

  /** `{ ...img, src: newSrc }` for every preset, in order. */
  function Refreshed(presets: seq<PresetImage>, loads: seq<PresetLoad>): (r: seq<PresetImage>)
    requires |loads| == |presets|
    ensures |r| == |presets|
    ensures forall i :: 0 <= i < |r| ==>
      r[i].id == presets[i].id && r[i].alt == presets[i].alt && r[i].src == RefreshUrl(presets[i].id, loads[i].nonce)
    ensures forall i :: 0 <= i < |r| ==> StartsWith(r[i].src, "https://picsum.photos/seed/" + r[i].id)
  {
    seq(|presets|, i requires 0 <= i < |presets| => presets[i].(src := RefreshUrl(presets[i].id, loads[i].nonce)))
  }

  /** What a user file selection delivers: no file, or the end of the read with
      `reader.result` (`null` when the read failed). */
  datatype Upload = NoFile | ReadEnded(result: Option<string>)

  /** The arguments of one `countObjectsInImage` call. */
  datatype ServiceCall = ServiceCall(imageUri: string, labels: seq<string>, model: GeminiModel)

  const NoImageMessage := "Please select or upload an image."
  const RefreshFailedMessage := "Failed to load new images. Please try again."
  const DefaultLabels := "zebra, elephant, tree"

  /** Every failure message of the counting call is truthy, so the result panel shows it. */
  lemma ServiceFailuresAreShown(imageUri: string, labels: seq<string>, model: GeminiModel, reply: Reply)
    ensures var c := CountObjectsInImage(imageUri, labels, model, reply);
            c.outcome.Failure? ==> RenderContent(false, Some(c.outcome.error), None, true) == ErrorText(c.outcome.error)
  {
  }

  // ---------------------------------------------------------------------------
  // The records of the service's answer

  /** `item.label` and `item.count` of one element of the returned array, when it
      is an object with a string `label` and a number `count`, the shape the
      `CountResult` type declares. */
  function RecordOf(item: Json): Option<CountResult> {
    match item
    case JObject(m) =>
      if "label" in m && m["label"].JString? && "count" in m && m["count"].JNumber?
      then Some(CountResult(m["label"].s, m["count"].n))
      else None
    case _ => None
  }

  /** Every element of the returned array has the `CountResult` shape. */
  predicate WellTyped(items: seq<Json>) {
    forall i :: 0 <= i < |items| ==> RecordOf(items[i]).Some?
  }

  /** The returned array read as `CountResult[]`. */
  function Records(items: seq<Json>): (records: seq<CountResult>)
    requires WellTyped(items)
    ensures |records| == |items|
    ensures forall i :: 0 <= i < |items| ==> RecordOf(items[i]) == Some(records[i])
  {
    seq(|items|, i requires 0 <= i < |items| => RecordOf(items[i]).value)
  }

  /** The JSON object `{"label": ..., "count": ...}` of a record. */
  function RecordJson(r: CountResult): Json {
    JObject(map["label" := JString(r.objectLabel), "count" := JNumber(r.count)])
  }

  /** Records encoded as JSON objects are read back as the same records. */
  lemma RecordsRoundTrip(records: seq<CountResult>)
    ensures var items := seq(|records|, i requires 0 <= i < |records| => RecordJson(records[i]));
            WellTyped(items) && Records(items) == records
  {
    var items := seq(|records|, i requires 0 <= i < |records| => RecordJson(records[i]));
    forall i | 0 <= i < |items| ensures RecordOf(items[i]) == Some(records[i]) {
      var m := map["label" := JString(records[i].objectLabel), "count" := JNumber(records[i].count)];
      assert items[i] == JObject(m);
      assert "label" in m && m["label"] == JString(records[i].objectLabel);
      assert "count" in m && m["count"] == JNumber(records[i].count);
    }
  }

  // ---------------------------------------------------------------------------
  // The component's state

  /** How a submit with an image settles: the URL handed to `imageUrlToDataUrl`
      (if any), the counting call made (if any), and the new `results` and `error`. */
  datatype Submission = Submission(convertedUrl: Option<string>, call: Option<ServiceCall>,
                                   results: Option<ObjectCounts>, error: Option<string>)

  /** The settled outcome of `handleSubmit` for a selected image. `reply` is how
      the remote model call inside `countObjectsInImage` settles; `untypedFold` is
      how the fold settles on an array whose elements are not all `CountResult`
      objects, which the model does not compute. */
  function Analysis(image: string, labelList: seq<string>, model: GeminiModel,
                    conversion: FetchOutcome, reply: Reply, untypedFold: Result<ObjectCounts, Thrown>): Submission
  {
    var convertedUrl := if StartsWith(image, "data:image") then None else Some(image);
    match ImageForApi(image, conversion)
    case Failure(t) => Submission(convertedUrl, None, None, Some(MessageOf(t)))
    case Success(uri) =>
      var call := Some(ServiceCall(uri, labelList, model));
      match CountObjectsInImage(uri, labelList, model, reply).outcome
      case Failure(message) => Submission(convertedUrl, call, None, Some(message))
      case Success(items) =>
        if WellTyped(items) then Submission(convertedUrl, call, Some(Reduce(Records(items))), None)
        else match untypedFold
          case Success(o) => Submission(convertedUrl, call, Some(o), None)
          case Failure(t) => Submission(convertedUrl, call, None, Some(MessageOf(t)))
  }

  /** What a submit with an image promises: only non-data URLs are converted; the
      service is called exactly when the image for the API is available, with the
      parsed labels and selected model; a failed call shows the service's message,
      and records of the declared shape are folded; either results or exactly one
      error message is set. */
  lemma AnalysisSettles(image: string, labelList: seq<string>, model: GeminiModel,
                        conversion: FetchOutcome, reply: Reply, untypedFold: Result<ObjectCounts, Thrown>)
    ensures var o := Analysis(image, labelList, model, conversion, reply, untypedFold);
            && (o.convertedUrl.None? <==> StartsWith(image, "data:image"))
            && (o.convertedUrl.Some? ==> o.convertedUrl.value == image)
            && (o.call.Some? <==> ImageForApi(image, conversion).Success?)
            && (o.call.Some? ==> o.call.value == ServiceCall(ImageForApi(image, conversion).value, labelList, model))
            && (o.results.Some? <==> o.error.None?)
            && (o.call.None? ==> o.error == Some(MessageOf(ImageForApi(image, conversion).error)))
  {
    var o := Analysis(image, labelList, model, conversion, reply, untypedFold);
    if ImageForApi(image, conversion).Success? {
      var c := CountObjectsInImage(ImageForApi(image, conversion).value, labelList, model, reply).outcome;
      if c.Success? && !WellTyped(c.value) {
        assert o.results.Some? <==> untypedFold.Success?;
      }
    }
  }

  /** Once the service has been called, its outcome decides the submit: a
      failure shows the service's message, well-shaped records are folded. */
  lemma AnalysisFollowsService(image: string, labelList: seq<string>, model: GeminiModel,
                               conversion: FetchOutcome, reply: Reply, untypedFold: Result<ObjectCounts, Thrown>)
    requires ImageForApi(image, conversion).Success?
    ensures var o := Analysis(image, labelList, model, conversion, reply, untypedFold);
            var c := CountObjectsInImage(ImageForApi(image, conversion).value, labelList, model, reply).outcome;
            && (c.Failure? ==> o.results == None && o.error == Some(c.error))
            && (c.Success? && WellTyped(c.value) ==> o.results == Some(Reduce(Records(c.value))) && o.error == None)
  {
  }

  /** A `data:image` string whose MIME type is not `image/...` (say
      `"data:imagex;base64,AA"`) is sent unconverted and refused by the service,
      whatever the model would have answered. */
  lemma BadDataUriFails(image: string, labelList: seq<string>, model: GeminiModel,
                        conversion: FetchOutcome, reply: Reply, untypedFold: Result<ObjectCounts, Thrown>)
    requires StartsWith(image, "data:image") && !IsImageMimeType(MimeTypeOf(image))
    ensures var o := Analysis(image, labelList, model, conversion, reply, untypedFold);
            o.call == Some(ServiceCall(image, labelList, model)) &&
            o.results == None && o.error == Some(FailurePrefix + InvalidMimeType)
  {
  }

  /** Every error a submit sets is shown by the panel, given that the browser's
      own rejection messages are non-empty; and results are shown as a list or
      as "no results". */
  lemma SubmitOutcomeIsShown(image: string, labelList: seq<string>, model: GeminiModel,
                             conversion: FetchOutcome, reply: Reply, untypedFold: Result<ObjectCounts, Thrown>)
    requires conversion.FetchRejected? ==> conversion.message != ""
    requires untypedFold.Failure? && untypedFold.error.ErrorObject? ==> untypedFold.error.message != ""
    ensures var o := Analysis(image, labelList, model, conversion, reply, untypedFold);
            var v := RenderContent(false, o.error, o.results, true);
            && (o.error.Some? ==> v == ErrorText(o.error.value))
            && (o.results.Some? ==> v.NoResults? || v.ResultList?)
  {
    if ImageForApi(image, conversion).Success? {
      ServiceFailuresAreShown(ImageForApi(image, conversion).value, labelList, model, reply);
    }
  }

  /** The worked example end to end: a PNG data URL whose reply counts zebra 3
      and tree 0 leaves `{zebra: 3, tree: 0}` as the results. */
  lemma ZebraTreeSubmit(labelList: seq<string>, model: GeminiModel,
                        conversion: FetchOutcome, untypedFold: Result<ObjectCounts, Thrown>)
    ensures var records := [CountResult("zebra", 3), CountResult("tree", 0)];
            var reply := Parsed(JObject(map["counts" := JArray([RecordJson(records[0]), RecordJson(records[1])])]));
            var o := Analysis("data:image/png;base64,AAAA", labelList, model, conversion, reply, untypedFold);
            o.results == Some([Entry("zebra", 3), Entry("tree", 0)]) && o.error == None
  {
    var records := [CountResult("zebra", 3), CountResult("tree", 0)];
    var items := seq(|records|, i requires 0 <= i < |records| => RecordJson(records[i]));
    assert items == [RecordJson(records[0]), RecordJson(records[1])];
    RecordsRoundTrip(records);
    assert StartsWith("data:image/png;base64,AAAA", "data:image");
    ZebraTreeExample(labelList, model);
    ReduceExample();
  }

  /** A data URL is sent as it is: the fetch outcome plays no part. */
  lemma DataUrlSkipsConversion(image: string, labelList: seq<string>, model: GeminiModel,
                               c1: FetchOutcome, c2: FetchOutcome, reply: Reply, untypedFold: Result<ObjectCounts, Thrown>)
    requires StartsWith(image, "data:image")
    ensures Analysis(image, labelList, model, c1, reply, untypedFold) == Analysis(image, labelList, model, c2, reply, untypedFold)
    ensures Analysis(image, labelList, model, c1, reply, untypedFold).call == Some(ServiceCall(image, labelList, model))
  {
  }

  /** A failed conversion reports its own error and never reaches the service. */
  lemma ConversionFailureStopsSubmit(url: string, labelList: seq<string>, model: GeminiModel,
                                     statusText: string, reply: Reply, untypedFold: Result<ObjectCounts, Thrown>)
    requires !StartsWith(url, "data:image")
    ensures var o := Analysis(url, labelList, model, HttpNotOk(statusText), reply, untypedFold);
            o.call == None && o.results == None &&
            o.error == Some("Failed to fetch image from " + url + ": " + statusText)
  {
  }

  /** The body of `handleSubmit` once an image is selected: convert a non-data URL,
      call the service, fold its records. */
  method Analyze(image: string, labelList: seq<string>, model: GeminiModel,
                 conversion: FetchOutcome, reply: Reply, untypedFold: Result<ObjectCounts, Thrown>)
    returns (outcome: Submission)
    ensures outcome == Analysis(image, labelList, model, conversion, reply, untypedFold)
  {
    var imageForApi := Success(image);
    var convertedUrl := None;
    if !StartsWith(image, "data:image") {
      convertedUrl := Some(image);
      imageForApi := ImageUrlToDataUrl(image, conversion);
    }
    match imageForApi {
      case Failure(t) =>
        outcome := Submission(convertedUrl, None, None, Some(MessageOf(t)));
      case Success(uri) =>
        var call := Some(ServiceCall(uri, labelList, model));
        var apiResults := CountObjectsInImage(uri, labelList, model, reply).outcome;
        match apiResults {
          case Failure(message) =>
            outcome := Submission(convertedUrl, call, None, Some(message));
          case Success(items) =>
            if WellTyped(items) {
              var counts := ReduceResults(Records(items));
              outcome := Submission(convertedUrl, call, Some(counts), None);
            } else {
              match untypedFold {
                case Success(o) =>
                  outcome := Submission(convertedUrl, call, Some(o), None);
                case Failure(t) =>
                  outcome := Submission(convertedUrl, call, None, Some(MessageOf(t)));
              }
            }
        }
    }
  }

  class App {
    var presetImages: seq<PresetImage>
    var selectedImage: Option<string>
    var labels: string
    var selectedModel: GeminiModel
    var results: Option<ObjectCounts>
    var isLoading: bool
    var error: Option<string>
    var hasSubmitted: bool
    var isRefreshingPresets: bool

    /** The catalogue keeps its keys, descriptions and order across refreshes. */
    ghost predicate Valid()
      reads this
    {
      && |presetImages| == |PRESET_IMAGES|
      && forall i :: 0 <= i < |presetImages| ==>
           presetImages[i].id == PRESET_IMAGES[i].id && presetImages[i].alt == PRESET_IMAGES[i].alt
    }

    constructor ()
      ensures Valid()
      ensures presetImages == PRESET_IMAGES && selectedImage == Some(PRESET_IMAGES[0].src)
      ensures labels == DefaultLabels && selectedModel == MODELS[0].id
      ensures results == None && !isLoading && error == None && !hasSubmitted && !isRefreshingPresets
    {
      presetImages := PRESET_IMAGES;
      selectedImage := Some(PRESET_IMAGES[0].src);
      labels := DefaultLabels;
      selectedModel := MODELS[0].id;
      results := None;
      isLoading := false;
      error := None;
      hasSubmitted := false;
      isRefreshingPresets := false;
    }

    /** `selectedImage` is truthy. */
    predicate HasImage()
      reads this
    {
      StringTruthy(selectedImage)
    }

    /** `isButtonDisabled`: a submit is in flight or there is no image. */
    function IsButtonDisabled(): (disabled: bool)
      reads this
      ensures disabled <==> isLoading || selectedImage == None || selectedImage == Some("")
    {
      isLoading || !HasImage()
    }

    /** What the result panel shows for the current state. The panel sits over
        the selected image, so without one it is not rendered at all (`None`: the
        page asks for an image instead). */
    function View(): Option<View>
      reads this
    {
      if HasImage() then Some(RenderContent(isLoading, error, results, hasSubmitted)) else None
    }

    method HandlePresetSelect(src: string)
      requires Valid()
      modifies this
      ensures Valid()
      ensures selectedImage == Some(src)
      ensures results == None && error == None && !hasSubmitted
      ensures presetImages == old(presetImages) && labels == old(labels) && selectedModel == old(selectedModel)
      ensures isLoading == old(isLoading) && isRefreshingPresets == old(isRefreshingPresets)
      ensures !isLoading && src != "" ==> View() == Some(Placeholder)
      ensures src == "" ==> View() == None
    {
      selectedImage := Some(src);
      results := None;
      error := None;
      hasSubmitted := false;
    }

    method HandleFileUpload(upload: Upload)
      requires Valid()
      modifies this
      ensures Valid()
      ensures upload.NoFile? ==>
        selectedImage == old(selectedImage) && results == old(results) && error == old(error) && hasSubmitted == old(hasSubmitted)
      ensures upload.ReadEnded? ==>
        selectedImage == upload.result && results == None && error == None && !hasSubmitted
      ensures presetImages == old(presetImages) && labels == old(labels) && selectedModel == old(selectedModel)
      ensures isLoading == old(isLoading) && isRefreshingPresets == old(isRefreshingPresets)
    {
      match upload
      case NoFile =>
      case ReadEnded(result) =>
        selectedImage := result;
        results := None;
        error := None;
        hasSubmitted := false;
    }

    /** Reloads every preset; commits only if every image loaded. */
    method HandleRefreshPresets(loads: seq<PresetLoad>)
      requires Valid() && |loads| == |presetImages|
      modifies this
      ensures Valid()
      ensures !isRefreshingPresets
      ensures labels == old(labels) && selectedModel == old(selectedModel) && isLoading == old(isLoading)
      ensures AllLoaded(loads) ==>
        && presetImages == Refreshed(old(presetImages), loads)
        && selectedImage == Some(presetImages[0].src)
        && results == None && error == None && !hasSubmitted
      ensures !AllLoaded(loads) ==>
        && presetImages == old(presetImages)
        && error == Some(RefreshFailedMessage)
        && selectedImage == old(selectedImage) && results == old(results) && hasSubmitted == old(hasSubmitted)
    {
      isRefreshingPresets := true;
      if AllLoaded(loads) {
        var newPresets := Refreshed(presetImages, loads);
        presetImages := newPresets;
        // The catalogue invariant keeps `newPresets[0]` defined.
        HandlePresetSelect(newPresets[0].src);
      } else {
        error := Some(RefreshFailedMessage);
      }
      isRefreshingPresets := false;
    }

    method HandleLabelsChange(text: string)
      requires Valid()
      modifies this
      ensures Valid()
      ensures labels == text
      ensures presetImages == old(presetImages) && selectedImage == old(selectedImage) && selectedModel == old(selectedModel)
      ensures results == old(results) && error == old(error) && hasSubmitted == old(hasSubmitted)
      ensures isLoading == old(isLoading) && isRefreshingPresets == old(isRefreshingPresets)
    {
      labels := text;
    }

    method HandleModelChange(model: GeminiModel)
      requires Valid()
      modifies this
      ensures Valid()
      ensures selectedModel == model
      ensures presetImages == old(presetImages) && selectedImage == old(selectedImage) && labels == old(labels)
      ensures results == old(results) && error == old(error) && hasSubmitted == old(hasSubmitted)
      ensures isLoading == old(isLoading) && isRefreshingPresets == old(isRefreshingPresets)
    {
      selectedModel := model;
    }

    /** Runs one analysis to completion. `conversion` is how the fetch inside
        `imageUrlToDataUrl` would settle, `reply` how the remote model call inside
        `countObjectsInImage` settles, `untypedFold` how the fold settles on records
        not of the declared shape. Returns the URL converted (if any) and the
        counting call made (if any). */
    method HandleSubmit(conversion: FetchOutcome, reply: Reply, untypedFold: Result<ObjectCounts, Thrown>)
      returns (convertedUrl: Option<string>, call: Option<ServiceCall>)
      requires Valid()
      modifies this
      ensures Valid()
      ensures unchanged(this`presetImages, this`selectedImage, this`labels, this`selectedModel, this`isRefreshingPresets)
      ensures !old(HasImage()) ==>
        && error == Some(NoImageMessage) && convertedUrl == None && call == None
        && results == old(results) && isLoading == old(isLoading) && hasSubmitted == old(hasSubmitted)
      ensures old(HasImage()) ==> !isLoading && hasSubmitted
      ensures old(HasImage()) ==>
        Submission(convertedUrl, call, results, error)
          == Analysis(old(selectedImage.value), ParseLabels(old(labels)), old(selectedModel), conversion, reply, untypedFold)
    {
      if !HasImage() {
        error := Some(NoImageMessage);
        return None, None;
      }
      // While the awaits are pending the component shows `isLoading` with error and
      // results cleared; the model runs the submit to completion, so only the
      // settled values are observable.
      var outcome := Analyze(selectedImage.value, ParseLabels(labels), selectedModel, conversion, reply, untypedFold);
      convertedUrl, call := outcome.convertedUrl, outcome.call;
      results, error, hasSubmitted, isLoading := outcome.results, outcome.error, true, false;
      assert Submission(convertedUrl, call, results, error) == outcome;
    }
  }
}
