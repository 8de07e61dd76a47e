# zapchart: webhook payload transformer and API-key gate

This project models the two pieces of sequential decision logic in the
zapchart chart service:

- **The webhook payload transformer** (`transformZapierData`). It takes the
  comma-separated `labels` and `data` strings that an automation webhook
  sends, plus an optional JSON `options` string. It returns chart data with
  exactly one dataset. Labels and data are split on `,` with nothing trimmed.
  Each data token goes through JavaScript's `Number`. The parsed options are
  spread over the dataset defaults `label: "Data from Zapier"` and `data`.
- **The API-key gate.** The authentication endpoint (`handler`) checks the
  method first and then only checks that an `x-api-key` header is present and
  non-empty.
  The `withApiAuth` wrapper passes a request to the wrapped handler only when
  its key is non-empty and equal to the configured `API_KEY`. Every other
  request gets 401 "Unauthorized".

The model has four modules:

- `Wrappers`: `Option`, `Result`, and JavaScript truthiness of an optional string.
- `CommaSplit`: `split(",")` and `join(",")`, with both round-trips proved.
- `Zapier`: the transformer.
- `ApiAuth`: the endpoint and the gate.

Two foreign functions are parameters of the transformer. `toNumber` is the
`Number` coercion of one token into the number type `N`. `parseJson` is
`JSON.parse`: `None` means it throws, and `Some(m)` gives the properties an
object spread copies out of the parsed value. A throw is modelled as the
`OptionsSyntaxError` failure. The configured key and the headers are plain
inputs of the gate.

Tokens are neither trimmed nor rejected (`SpacesKept`, `CountsNotCompared`),
and label and data counts are never compared. The standalone endpoint
accepts any non-empty key (`EndpointIgnoresKeyValue`).

## Model

| member | source | states |
|---|---|---|
| CommaSplit.Split | utils/zapier.ts:5 | splitting never yields an empty list, so even the empty string gives one piece |
| CommaSplit.SplitShape | utils/zapier.ts:5 | splitting yields one more piece than the input has commas, and no piece contains a comma |
| CommaSplit.JoinSplit | utils/zapier.ts:5 | joining the pieces of a split with "," gives back the input exactly: nothing is trimmed or dropped |
| CommaSplit.SplitJoin | utils/zapier.ts:5 | splitting a comma-join of a non-empty comma-free list gives back that list, so split is the exact inverse of join |
| Zapier.ParseLabels | utils/zapier.ts:5 | absent labels give the empty list; present labels, the empty string included, give a list that joins back to the input, with comma-count + 1 comma-free labels |
| Zapier.ParseData | utils/zapier.ts:6 | absent data gives the empty list; present data gives one value per comma-separated token, in order, each the coercion of its token |
| Zapier.ParseOptions | utils/zapier.ts:7 | an absent or empty options string means no options; otherwise the result fails exactly when JSON parsing throws and is the parsed properties when it does not |
| Zapier.BuildDataset | utils/zapier.ts:11-15 | the dataset has the keys label, data and every option key; option values win; label and data keep their defaults only when options lack them |
| Zapier.Transform | utils/zapier.ts:3-17 | fails only when the options string is non-empty and does not parse; on success there is exactly one dataset, the labels come from the labels field alone, and without options the dataset is the default label with the parsed data |
| Zapier.LabelsRoundTrip | utils/zapier.ts:5 | whatever the other fields hold, the output labels join back to the labels input and number its commas + 1 |
| Zapier.LabelsFromList | utils/zapier.ts:5 | when the options field parses, a labels field that is any non-empty comma-free list joined with "," yields a successful transform with exactly that list as labels |
| Zapier.DataFromTokens | utils/zapier.ts:6-13 | without options, a data field that is any non-empty comma-free token list joined with "," yields a dataset with the default label and one coerced value per token, in order |
| Zapier.OptionsOverrideDefaults | utils/zapier.ts:12-14 | parsed options are spread last: every option key replaces the default of that name, and keys absent from options keep their defaults |
| Zapier.CountsNotCompared | utils/zapier.ts:5-6 | with options absent or empty, any labels and data strings pass through with their own token counts; a count mismatch is not an error |
| Zapier.LabelsIgnoreOtherFields | utils/zapier.ts:5 | two bodies with the same labels field give the same output labels |
| Zapier.EmptyLabels | utils/zapier.ts:5 | with options absent or empty, an empty labels string gives one empty label, while absent labels give none |
| Zapier.SpacesKept | utils/zapier.ts:5 | when the options field parses, a space after a separator stays at the head of the next label, so tokens are not trimmed |
| ApiAuth.ApiKey | pages/api/auth.ts:20 | the key is present exactly when the x-api-key header is sent, and it is that header's value |
| ApiAuth.Handler | pages/api/auth.ts:12-31 | the status is 405 exactly for non-POST requests, 401 exactly for POSTs without a non-empty key, and 200 exactly for POSTs with one; each status carries its fixed message body |
| ApiAuth.Gate | pages/api/auth.ts:33-45 | a request is admitted exactly when its header key is non-empty and equal to the configured key; every refusal is the 401 "Unauthorized" response |
| ApiAuth.WithApiAuth | pages/api/auth.ts:33-45 | an admitted request gets the wrapped handler's response; every other request gets 401 "Unauthorized" |
| ApiAuth.UnsetKeyRejectsAll | pages/api/auth.ts:37-41 | when API_KEY is unset or empty, no request is admitted and every response is 401 |
| ApiAuth.MethodCheckedFirst | pages/api/auth.ts:15-23 | a non-POST request gets 405 whatever its headers hold, because the method is checked before the key |
| ApiAuth.EndpointIgnoresKeyValue | pages/api/auth.ts:25-30 | any two POSTs that carry non-empty keys get the same 200 response, so the endpoint never compares keys |
| ApiAuth.GateStricterThanEndpoint | pages/api/auth.ts:21-41 | a POST that the gate admits is accepted by the endpoint, and a POST that the endpoint refuses for lack of a key is refused by the gate |

## Left out

- `Number` coercion is the abstract parameter `toNumber`. Floating point, NaN and the rules for blank or whitespace tokens are not modelled.
- `JSON.parse` is the abstract parameter `parseJson`. Its grammar is not modelled. How a non-object value (a number, a string, an array, `null`) turns into spread properties is left to that parameter.
- Strings are sequences of Unicode scalar values, while JavaScript strings are UTF-16 code units, so a lone surrogate in a JSON body has no counterpart here. Splitting on `,` and comparing keys are unaffected for well-formed strings, and Node decodes header values as latin1.
- Property order of the dataset object is not modelled; a dataset is a map from property names to values.
- The CORS middleware awaited at pages/api/auth.ts:13 is assumed to pass every request through. The `cors` library actually answers an OPTIONS preflight itself with status 200 and never resumes the endpoint. That path is not modelled, so `Handler` answers OPTIONS with 405.
- The response object is modelled as a status and a JSON body. Headers and streaming are not modelled.
- The wrapped handler of `withApiAuth` is a pure function from request to response. Its asynchrony and side effects are not modelled.
- `API_KEY` is read once from the environment. It is a plain parameter here.
- pages/api/generate-chart.ts renders with a headless browser and uploads to S3, all foreign I/O. Its only logic is a 405 guard for non-POST requests and a catch-all that turns any thrown error into a 500.
- pages/api/chart/[id].ts downloads an image from S3, foreign I/O. It has no method check; its only logic is a 404 "Chart not found" when the download fails.
- src/app/chart.tsx (a UI component), src/cors.ts (a promise wrapper over the `cors` library) and amplify/storage/resource.ts (deployment configuration) hold no logic to model.
- types/zapier.ts declares payload types only. The `ZapierWebhookBody` type that utils/zapier.ts imports is not declared there. `WebhookBody` keeps only the three fields the transformer reads.
