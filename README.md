# fetch-salesforce-data, modelled in Dafny

A model of the Evolve script in `src/index.ts` that fetches data from the
Salesforce.com REST API and writes it to an output file. The script
declares its three input parameters (`getDescription`), builds the request
URL from the connector host and the endpoint path (`prepareUrl`), makes one
GET request (`getSalesforceData`), and on success writes the body text to the
target file (`saveDataToFile`), all driven by `execute`.

Modules:

- `Url` (url.dfy): `prepareUrl` and what it does and does not do to slashes.
- `Decimal` (decimal.dfy): how a status code is rendered in a template
  string, and reading it back.
- `Retrieval` (retrieval.dfy): the outcome of the HTTP request as a value
  (`Responded(Response(status, statusText, streamShown, text))` or
  `NetworkError(reason)`), the fetch step `Retrieve` as a function of that
  outcome, and lemmas about its error messages.
- `Description` (description.dfy): the static parameter description.
- `Script` (script.dfy): the stateful part. `Network` answers each URL with a
  given outcome and records the requests made; `FileStore` holds the host's
  files as a map from path to text and records every write; `Context` and
  `OutputFile` stand for the host's context and file handle.
  `GetSalesforceData`, `SaveDataToFile` and `Execute` are methods over them.

The documentation comment of `prepareUrl` (src/index.ts:58) promises "a fully
formed URL with extra slashes stripped"; the code removes one leading slash
from the endpoint path and nothing else. The model follows the code:
`PrepareUrl("https://a.com", "/x")` is `https://a.comx`, and `//x` keeps one
slash (`PrepareUrlJoinsWithoutSlash`, `PrepareUrlKeepsSecondSlash`). A
correct URL therefore depends on the connector host ending in a slash.

The error for a non-OK response is thrown inside the `try` and so is caught
and wrapped like every other failure. Its final text is
`Unable to retrieve data from Salesforce: Error: Non-OK API response from Salesforce: <status> <statusText>: <body>`,
the `Error: ` coming from how an `Error` object renders in a template string.

## Model

| member | source | states |
|---|---|---|
| `Url.StripLeadingSlash` | src/index.ts:61 | `replace(/^\//, '')` yields a suffix of its input that is one character shorter exactly when the input starts with `/`, otherwise the input itself |
| `Url.PrepareUrl` | src/index.ts:60-62 | the host is an unchanged prefix of the URL; the URL is one character shorter than host plus endpoint iff the endpoint starts with `/`, and as long otherwise; what follows the host is a suffix of the endpoint |
| `Url.PrepareUrlKeepsSecondSlash` | src/index.ts:61 | of two leading slashes only the first is removed: `//x` becomes `/x` |
| `Url.PrepareUrlKeepsTrailingSlashes` | src/index.ts:61 | a trailing slash on the host, and on an endpoint other than `/`, survives; endpoint `/` gives the bare host |
| `Url.PrepareUrlInsertsNoSeparator` | src/index.ts:58-62 | endpoints `/p` and `p` give the same URL, host followed directly by `p`: no separator is added |
| `Url.PrepareUrlJoinsWithoutSlash` | src/index.ts:58-62 | `https://a.com` with `/x` gives `https://a.comx`, against the comment's "extra slashes stripped"; `https://a.com/` with `/x/` gives `https://a.com/x/` |
| `Decimal.DecimalString` | src/index.ts:82 | a status code renders as a non-empty string of decimal digits with no leading zero unless it is 0 |
| `Decimal.ParseDecimalString` | src/index.ts:82 | reading the rendered digits back gives the status code (round trip) |
| `Retrieval.Retrieve` | src/index.ts:74-89 | the fetch step succeeds iff a response arrived with a status in 200..299 and its text was read, and then yields that text verbatim; every failure message starts with `Unable to retrieve data from Salesforce: ` |
| `Retrieval.NonOkStatusRecoverable` | src/index.ts:80-88 | a non-OK response fails, and the numeric status can be read back from the digits after the fixed message header |
| `Retrieval.NonOkMentionsStatus` | src/index.ts:81-83 | the message of a non-OK failure contains the status code, a space and the status text |
| `Retrieval.FailureCauseFollowsPrefix` | src/index.ts:87-88 | a network error or a failed body read is reported as the prefix followed by the cause's text, unaltered |
| `Retrieval.NotFoundReported` | src/index.ts:80-88 | status 404 `Not Found` fails with a message containing `404 Not Found` from which 404 reads back |
| `Description.GetDescription` | src/index.ts:6-38 | inputs are `salesforceConnector` (Connector), `salesforceEndpointUrl` (String, default `/services/data/v54.0/sobjects/`) and `targetDataPath` (OutputResource), in that order, all required, only the endpoint with a default; no outputs |
| `Script.Network.Fetch` | src/index.ts:75-78 | one request to the URL, recorded; its outcome is the network's answer for that URL |
| `Script.Context.GetFile` | src/index.ts:104 | a fresh handle on the given path in the context's file store |
| `Script.OutputFile.Write` | src/index.ts:105 | the handle's path holds exactly the data afterwards, no other path changes, and one write is recorded |
| `Script.GetSalesforceData` | src/index.ts:70-90 | exactly one request, to the given URL, and the result `Retrieve` gives for its outcome |
| `Script.SaveDataToFile` | src/index.ts:99-107 | exactly one write, of the data, at the path; nothing else in the store changes |
| `Script.Execute` | src/index.ts:40-51 | exactly one request, to `PrepareUrl(connector, endpoint)` in that argument order; on success exactly one write, of the body text, at `targetDataPath`, and the run passes; on failure it fails with the fetch step's error and the store and write log are unchanged |
| `Script.DescriptionCoversExecute` | src/index.ts:6-49 | the declared input ids are exactly the ids `execute` reads, so parameters that include every required declared id satisfy `Execute`'s precondition |
| `Script.DefaultEndpointUrl` | src/index.ts:25 | with the default endpoint the request goes to the host followed by `services/data/v54.0/sobjects/` |

## Left out

- The real `fetch`, the `Headers` object, the `Accept: application/json` header and the GET method (src/index.ts:71-78): the request is a foreign network call, modelled by `Network.respond`, which gives the outcome for each URL.
- `Network`: the answer to a URL is fixed, so two requests to the same URL would get the same answer; `execute` makes only one request, so a single run is unaffected.
- The exact text of `${response.body}` in the non-OK message (src/index.ts:82) is runtime-defined; it is the `streamShown` field of a response, and only the status and status text are asserted to appear.
- The string forms of a rejected `fetch` or `response.text()` are runtime-defined; they are the `reason` fields, and the model only states that they follow the prefix unaltered.
- `Script.Execute`: requires the three parameter ids to be present. The host checks `required: true` parameters before running the script; what the script would do with a missing one (an `undefined` host in the URL, or a `TypeError` from `replace` thrown outside the `try`) is not modelled. `DescriptionCoversExecute` connects the requirement to the description.
- `Script.OutputFile.Write`: always succeeds. A failing write in the host (not caught by the script, src/index.ts:105) is host-defined and not modelled.
- The log line `Wrote response data to <path>` (src/index.ts:106): console output.
- `async`/`await` and promises: the steps are sequential, and a rejected promise is the `Failure`/`Fail` case of a result.
- The `Context`, `getFile` and `ScriptDescription` types of the host platform beyond the parameter map, the file store and the fields of the description used here.
