/** The view chosen by `renderContent` of the result panel
    (components/ResultDisplay.tsx): a chain of guarded early returns over the
    four props, loading first, then the error, then the results, then whether
    anything was submitted. */
module ResultDisplay {
  import opened Wrappers
  import opened Types

  /** One `<li>` of the result list. */
  datatype ListItem = ListItem(itemLabel: string, count: int)

  datatype View =
    | Spinner                      // "Analyzing image..."
    | ErrorText(message: string)   // the error message
    | NoResults                    // "No results found for the given labels."
    | ResultList(items: seq<ListItem>)
    | Nothing                      // `null`: nothing is rendered
    | Placeholder                  // "Results will be displayed here."

  /** Truthiness of a `string | null` prop: `null` and `""` are falsy. */
  predicate StringTruthy(s: Option<string>) {
    s.Some? && s.value != ""
  }

  /** `Object.entries(results).map(...)`: one item per own property, in order. */
  function ItemsOf(results: ObjectCounts): seq<ListItem> {
    seq(|results|, i requires 0 <= i < |results| => ListItem(results[i].key, results[i].value))
  }

  function RenderContent(isLoading: bool, error: Option<string>, results: Option<ObjectCounts>, hasSubmitted: bool): (v: View)
    ensures v.Spinner? <==> isLoading
    ensures v.ErrorText? <==> !isLoading && StringTruthy(error)
    ensures v.ErrorText? ==> error == Some(v.message)
    ensures v.NoResults? <==> !isLoading && !StringTruthy(error) && results == Some([])
    ensures v.ResultList? <==> !isLoading && !StringTruthy(error) && results.Some? && results.value != []
    ensures v.ResultList? ==> |v.items| == |results.value|
    ensures v.ResultList? ==> forall i :: 0 <= i < |v.items| ==>
              v.items[i].itemLabel == results.value[i].key && v.items[i].count == results.value[i].value
    ensures v.Nothing? <==> !isLoading && !StringTruthy(error) && results.None? && hasSubmitted
    ensures v.Placeholder? <==> !isLoading && !StringTruthy(error) && results.None? && !hasSubmitted
  {
    if isLoading then Spinner
    else if StringTruthy(error) then ErrorText(error.value)
    else if results.Some? then
      if |results.value| == 0 then NoResults
      else ResultList(ItemsOf(results.value))
    else if hasSubmitted then Nothing
    else Placeholder
  }

  /** Once a submit has settled (not loading, submitted), the panel shows neither
      the spinner nor the placeholder: an error, the counts, "no objects" or nothing. */
  lemma SettledSubmitShowsOutcome(error: Option<string>, results: Option<ObjectCounts>)
    ensures var v := RenderContent(false, error, results, true);
            v != Spinner && v != Placeholder
  {
  }

  /** While loading, the other three props make no difference. */
  lemma LoadingHidesEverything(e1: Option<string>, r1: Option<ObjectCounts>, h1: bool,
                               e2: Option<string>, r2: Option<ObjectCounts>, h2: bool)
    ensures RenderContent(true, e1, r1, h1) == RenderContent(true, e2, r2, h2) == Spinner
  {
  }

  /** An empty error message is falsy: the panel falls through to the results or placeholder. */
  lemma EmptyErrorIsIgnored(results: Option<ObjectCounts>, hasSubmitted: bool)
    ensures RenderContent(false, Some(""), results, hasSubmitted) == RenderContent(false, None, results, hasSubmitted)
  {
  }

  /** A listed map shows every label it holds, each with its own count. */
  lemma ListedLabelsAreTheKeys(results: ObjectCounts, hasSubmitted: bool, key: string)
    requires results != []
    ensures var v := RenderContent(false, None, Some(results), hasSubmitted);
            v.ResultList? && (key in Keys(results) <==> exists i :: 0 <= i < |v.items| && v.items[i].itemLabel == key)
  {
    KeysAt(results, key);
  }
}
