/** The webhook payload transformer: turns the comma-separated strings an
    automation webhook sends into chart data with exactly one dataset.

    Two foreign functions are parameters rather than definitions:
    `toNumber` is JavaScript's `Number` coercion of one token, with `N` the
    JavaScript number type; `parseJson` is `JSON.parse`, giving `None` when it
    throws and otherwise the properties an object spread copies out of the
    parsed value. */
module Zapier {
  import opened Wrappers
  import opened CommaSplit

  /** A JSON value whose numbers have type `N`. */
  datatype Json<N> =
    | JNull
    | JBool(b: bool)
    | JNum(n: N)
    | JStr(s: string)
    | JArr(items: seq<Json<N>>)
    | JObj(fields: map<string, Json<N>>)

  /** The fields of the webhook body the transformer reads; each may be absent. */
  datatype WebhookBody = WebhookBody(labels: Option<string>, data: Option<string>, options: Option<string>)

  /** One dataset: an object whose keys are property names. */
  type Dataset<N> = map<string, Json<N>>

  /** The chart-data record handed to the charting library. */
  datatype ChartData<N> = ChartData(labels: seq<string>, datasets: seq<Dataset<N>>)

  /** The one way the transformer fails: `JSON.parse` throws on `options`. */
  datatype TransformError = OptionsSyntaxError

  /** The options field causes no throw: it is absent, empty, or parses. */
  predicate OptionsParse<N>(options: Option<string>, parseJson: string -> Option<map<string, Json<N>>>)
  {
    Truthy(options) ==> parseJson(options.value).Some?
  }

  const DefaultLabel: string := "Data from Zapier"
  const LabelKey: string := "label"
  const DataKey: string := "data"

  /** `labels?.split(",") || []`: absent labels give no labels; present ones,
      even the empty string, are split with nothing trimmed or dropped. */
  function ParseLabels(labels: Option<string>): (r: seq<string>)
    ensures labels.None? ==> r == []
    ensures labels.Some? ==> Join(r) == labels.value
    ensures labels.Some? ==> |r| == CommaCount(labels.value) + 1 && CommaFree(r)
  {
    match labels
    case None => []
    case Some(s) => JoinSplit(s); SplitShape(s); Split(s)
  }

  /** `data?.split(",").map(Number) || []`: one coerced value per token, in
      input order; no token is rejected. */
  function ParseData<N>(data: Option<string>, toNumber: string -> N): (r: seq<N>)
    ensures data.None? ==> r == []
    ensures data.Some? ==> |r| == CommaCount(data.value) + 1
    ensures data.Some? ==> |r| == |Split(data.value)|
    ensures data.Some? ==> forall i :: 0 <= i < |r| ==> r[i] == toNumber(Split(data.value)[i])
  {
    match data
    case None => []
    case Some(s) =>
      SplitShape(s);
      var tokens := Split(s);
      seq(|tokens|, i requires 0 <= i < |tokens| => toNumber(tokens[i]))
  }

  /** `options ? JSON.parse(options) : {}`: an absent or empty string means no
      options; otherwise the parse decides, and a throw becomes an error. */
  function ParseOptions<N>(options: Option<string>, parseJson: string -> Option<map<string, Json<N>>>)
    : (r: Result<map<string, Json<N>>, TransformError>)
    ensures !Truthy(options) ==> r == Success(map[])
    ensures Truthy(options) ==> (r.Failure? <==> parseJson(options.value).None?)
    ensures Truthy(options) && r.Success? ==> r.value == parseJson(options.value).value
  {
    if !Truthy(options) then Success(map[])
    else
      match parseJson(options.value)
      case None => Failure(OptionsSyntaxError)
      case Some(m) => Success(m)
  }

  /** The numbers of the dataset as a JSON array. */
  function NumberArray<N>(values: seq<N>): Json<N>
  {
    JArr(seq(|values|, i requires 0 <= i < |values| => JNum(values[i])))
  }

  /** `{ label: "Data from Zapier", data, ...options }`: the two defaults with
      every option property laid over them. Options win on `label` and `data`;
      keys they lack keep their defaults; nothing else is added. */
  function BuildDataset<N>(values: seq<N>, options: map<string, Json<N>>): (d: Dataset<N>)
    ensures d.Keys == {LabelKey, DataKey} + options.Keys
    ensures forall k :: k in options ==> d[k] == options[k]
    ensures LabelKey !in options ==> d[LabelKey] == JStr(DefaultLabel)
    ensures DataKey !in options ==> d[DataKey] == NumberArray(values)
  {
    map[LabelKey := JStr(DefaultLabel), DataKey := NumberArray(values)] + options
  }

  /** `transformZapierData`: labels from the `labels` field alone, one dataset
      built from `data` and `options`, and failure only when `JSON.parse`
      throws. Label and data counts are never compared. */
  function Transform<N>(body: WebhookBody, toNumber: string -> N,
                        parseJson: string -> Option<map<string, Json<N>>>)
    : (r: Result<ChartData<N>, TransformError>)
    ensures r.Failure? <==> Truthy(body.options) && parseJson(body.options.value).None?
    ensures r.Success? ==> |r.value.datasets| == 1
    ensures r.Success? ==> r.value.labels == ParseLabels(body.labels)
    ensures r.Success? && !Truthy(body.options) ==>
              r.value.datasets[0] == map[LabelKey := JStr(DefaultLabel),
                                         DataKey := NumberArray(ParseData(body.data, toNumber))]
    ensures r.Success? && Truthy(body.options) ==>
              r.value.datasets[0] == BuildDataset(ParseData(body.data, toNumber),
                                                  parseJson(body.options.value).value)
  {
    var labels := ParseLabels(body.labels);
    var values := ParseData(body.data, toNumber);
    match ParseOptions(body.options, parseJson)
    case Failure(e) => Failure(e)
    case Success(options) => Success(ChartData(labels, [BuildDataset(values, options)]))
  }

  /** The dataset a successful transform produces. */
  function OnlyDataset<N>(r: Result<ChartData<N>, TransformError>): Dataset<N>
    requires r.Success? && |r.value.datasets| == 1
  {
    r.value.datasets[0]
  }

  /** Labels round-trip: whatever else the body holds, joining the output
      labels with "," restores the `labels` input, and each separator in it
      starts a new label. */
  lemma LabelsRoundTrip<N>(body: WebhookBody, toNumber: string -> N,
                           parseJson: string -> Option<map<string, Json<N>>>)
    requires body.labels.Some?
    requires Transform(body, toNumber, parseJson).Success?
    ensures Join(Transform(body, toNumber, parseJson).value.labels) == body.labels.value
    ensures |Transform(body, toNumber, parseJson).value.labels| == CommaCount(body.labels.value) + 1
  {
  }

  /** The inverse direction: a body whose `labels` is any comma-free list
      joined with "," yields exactly that list. */
  lemma {:induction false} LabelsFromList<N>(ls: seq<string>, data: Option<string>, options: Option<string>,
                                             toNumber: string -> N,
                                             parseJson: string -> Option<map<string, Json<N>>>)
    requires |ls| >= 1 && CommaFree(ls)
    requires OptionsParse(options, parseJson)
    ensures Transform(WebhookBody(Some(Join(ls)), data, options), toNumber, parseJson).Success?
    ensures Transform(WebhookBody(Some(Join(ls)), data, options), toNumber, parseJson).value.labels == ls
  {
    SplitJoin(ls);
  }

  /** Without options, a body whose `data` is any comma-free token list joined
      with "," yields a dataset whose `data` holds each token's coercion, in
      order, and whose `label` is the default. */
  lemma {:induction false} DataFromTokens<N>(labels: Option<string>, tokens: seq<string>, options: Option<string>,
                                             toNumber: string -> N,
                                             parseJson: string -> Option<map<string, Json<N>>>)
    requires |tokens| >= 1 && CommaFree(tokens)
    requires !Truthy(options)
    ensures Transform(WebhookBody(labels, Some(Join(tokens)), options), toNumber, parseJson).Success?
    ensures var d := OnlyDataset(Transform(WebhookBody(labels, Some(Join(tokens)), options), toNumber, parseJson));
            d.Keys == {LabelKey, DataKey} &&
            d[LabelKey] == JStr(DefaultLabel) &&
            d[DataKey].JArr? && |d[DataKey].items| == |tokens| &&
            forall i :: 0 <= i < |tokens| ==> d[DataKey].items[i] == JNum(toNumber(tokens[i]))
  {
    SplitJoin(tokens);
  }

  /** Option properties are spread last: each one replaces the default of the
      same name, and `label` and `data` keep their defaults only when the
      options lack them. */
  lemma OptionsOverrideDefaults<N>(body: WebhookBody, toNumber: string -> N,
                                   parseJson: string -> Option<map<string, Json<N>>>)
    requires Truthy(body.options) && parseJson(body.options.value).Some?
    ensures Transform(body, toNumber, parseJson).Success?
    ensures var options := parseJson(body.options.value).value;
            var d := OnlyDataset(Transform(body, toNumber, parseJson));
            d.Keys == {LabelKey, DataKey} + options.Keys &&
            (forall k :: k in options ==> d[k] == options[k]) &&
            (LabelKey !in options ==> d[LabelKey] == JStr(DefaultLabel)) &&
            (DataKey !in options ==> d[DataKey] == NumberArray(ParseData(body.data, toNumber)))
  {
  }

  /** Label and data counts are independent: any two strings pass through
      with their own token counts, and labels do not depend on `data` or
      `options`. */
  lemma CountsNotCompared<N>(l: string, dt: string, options: Option<string>,
                             toNumber: string -> N,
                             parseJson: string -> Option<map<string, Json<N>>>)
    requires !Truthy(options)
    ensures var r := Transform(WebhookBody(Some(l), Some(dt), options), toNumber, parseJson);
            r.Success? &&
            |r.value.labels| == CommaCount(l) + 1 &&
            r.value.datasets[0][DataKey] == NumberArray(ParseData(Some(dt), toNumber)) &&
            |r.value.datasets[0][DataKey].items| == CommaCount(dt) + 1
  {
  }

  /** Labels depend on the `labels` field alone. */
  lemma LabelsIgnoreOtherFields<N>(b1: WebhookBody, b2: WebhookBody, toNumber: string -> N,
                                   parseJson: string -> Option<map<string, Json<N>>>)
    requires b1.labels == b2.labels
    requires Transform(b1, toNumber, parseJson).Success? && Transform(b2, toNumber, parseJson).Success?
    ensures Transform(b1, toNumber, parseJson).value.labels == Transform(b2, toNumber, parseJson).value.labels
  {
  }

  /** Present labels are split even when empty: `""` gives one empty label,
      while absent labels give none. */
  lemma EmptyLabels<N>(data: Option<string>, options: Option<string>,
                       toNumber: string -> N, parseJson: string -> Option<map<string, Json<N>>>)
    requires !Truthy(options)
    ensures Transform(WebhookBody(Some(""), data, options), toNumber, parseJson).value.labels == [""]
    ensures Transform(WebhookBody(None, data, options), toNumber, parseJson).value.labels == []
  {
  }

  /** Tokens are not trimmed: a space after a separator stays at the head of
      the next label, so "Jan, Feb" gives "Jan" and " Feb". */
  lemma SpacesKept<N>(a: string, b: string, data: Option<string>, options: Option<string>,
                      toNumber: string -> N, parseJson: string -> Option<map<string, Json<N>>>)
    requires Comma !in a && Comma !in b
    requires OptionsParse(options, parseJson)
    ensures Transform(WebhookBody(Some(a + ", " + b), data, options), toNumber, parseJson).Success?
    ensures Transform(WebhookBody(Some(a + ", " + b), data, options), toNumber, parseJson).value.labels
            == [a, " " + b]
  {
    var ls := [a, " " + b];
    assert ls[1..] == [" " + b];
    assert Join(ls) == a + ", " + b;
    LabelsFromList(ls, data, options, toNumber, parseJson);
  }
}
