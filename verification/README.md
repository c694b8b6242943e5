# Pump.fun event scraper: a Dafny model of `process_data`

The scraper subscribes to the PumpPortal feed of token creations and
trades. It turns every received JSON event into a fifteen-column row and
appends each row whose signature is not `"N/A"` to `pump_fun_data.csv`.
It then checks the row against three thresholds. For a row of interest it
reports the token's Twitter reach and its rugcheck risk score.

This project models the synchronous per-event logic of
`pump_fun_scraper.py`:

- `record.dfy` (module `Record`): the row normaliser. An event is a
  key/value map of JSON values (`Cell`: text, number or null). `Normalize`
  is the dict literal with its `.get` defaults. `Cells` lays a row out in
  the file's column order, and `Header` is the header row. The Twitter
  column is always written, as the fifteenth column.
- `filter.dfy` (module `Filter`): the threshold test. It has the short-circuit
  order of Python's `and`. A comparison on a value that is not a number
  raises `TypeError` in Python; here it gives `None`.
- `twitter_handle.dfy` (module `TwitterHandle`): `strip("/")`, `split("/")`
  and the handle extraction of `get_twitter_user_handle`. It also has the
  function as shipped, where `urlparse` is missing (see Findings).
- `enrichment.dfy` (module `Enrichment`): the `"N/A"` guard of
  `get_twitter_url`, the influencer count and its three-way report, and the
  risk verdict.
- `csv_log.dfy` (module `CsvLog`): the CSV file as a class `Log` with a
  `fileExists` flag and a sequence of rows. `Append` is
  `to_csv(mode='a', header=not file_exists)`.
- `pipeline.dfy` (module `Pipeline`): `Process` is a function that states
  what `process_data` does with one event, with `urlparse` imported (see Findings). It
  gives the row logged, the outcome reported and the external requests
  made, in order. As shipped, the handle is never found, so no follower
  lookup is made and the report is never "fake handle" or "influencers".
  `ProcessData` is the same step as a method on the log. `Run` is the
  receive loop over a session's decoded events.
- `config.dfy` holds the thresholds and the blacklist; `wrappers.dfy` holds `Option`.

The HTTP collaborators and `urlparse` are not modelled as calls. Each is a field of
`Pipeline.World` and stands for the service's answer: the metadata
document's `"twitter"` field, a URL's path component, the TweetScout
follower lookup, and the rugcheck summary score.

Points where the code does less, or something else, than its comments say:

- The docstring at :103 promises None for a URL of the wrong format. But
  `split("/")` at :112 always has a first element, so the `return None` at
  :117 is unreachable. With `urlparse` imported (see Findings), an empty or
  all-slash path gives the handle `""`, `not a url` is its own handle, and
  the follower lookup is then made with that handle
  (`EmptyHandleIffAllSlashes`, `SlashFreePathIsItsOwnHandle`). As shipped,
  every URL gives None and no lookup is made.
- `to_csv` runs inside the `try` at :193, so a write error is only printed
  (:273) and nothing is reported to the caller. Write errors are not
  modelled.
- The metadata fetch at :210 happens before the signature check, so it is
  also made for events that are then dropped (`DroppedIffNoSignature`).

## Model

| member | source | states |
|---|---|---|
| `Record.Cells` | pump_fun_scraper.py:195-211 | a row has exactly the fifteen columns of the header, with Signature first and the three compared amounts at their columns |
| `Record.NormalizeFollowsColumnTable` | pump_fun_scraper.py:195-210 | normalisation is total. Each of the first fourteen columns holds the event's value under its key when present, else `"N/A"` (text columns) or `0` (numeric columns). The last column is the Twitter URL or empty |
| `Record.EmptyEventTakesDefaults` | pump_fun_scraper.py:195-213 | an empty event yields a full row of defaults whose Signature is `"N/A"` |
| `Filter.OfInterest` | pump_fun_scraper.py:226-230 | the result is true iff all three compared columns are numbers with initialBuy ≥ 1000, solAmount ≥ 0.01 and marketCapSol ≥ 30. It raises exactly when, in left-to-right short-circuit order, the first comparison reached is on a value that is not a number |
| `Filter.NumericRowNeverRaises` | pump_fun_scraper.py:226-230 | on numeric columns the test is the plain conjunction of the three bounds |
| `Filter.BoundsAreInclusive` | pump_fun_scraper.py:26-28 | each bound is inclusive: 1000 passes and 999 fails, and likewise at 0.01 and 30 |
| `Filter.InitialBuyAloneIsNotOfInterest` | pump_fun_scraper.py:200-230 | an event carrying only a signature and an initial buy is never of interest, because the defaulted zero SOL amount fails |
| `TwitterHandle.TrimStart` | pump_fun_scraper.py:112 | `lstrip("/")` returns the suffix after a run of slashes, and that suffix does not start with a slash |
| `TwitterHandle.TrimEnd` | pump_fun_scraper.py:112 | `rstrip("/")` returns the prefix before a run of slashes, and that prefix does not end with a slash |
| `TwitterHandle.StripSlashes` | pump_fun_scraper.py:112 | the result of `strip("/")` neither starts nor ends with a slash |
| `TwitterHandle.StripSlashesKeepsMiddle` | pump_fun_scraper.py:112 | `strip("/")` returns exactly the part of the string between its leading run of slashes and its trailing run of slashes |
| `TwitterHandle.Split` | pump_fun_scraper.py:112 | `split("/")` returns at least one part, and no part contains a slash (so the `len > 0` test at :114 always holds) |
| `TwitterHandle.JoinSplit` | pump_fun_scraper.py:112 | joining the parts of a split with `/` gives back the string |
| `TwitterHandle.SplitJoin` | pump_fun_scraper.py:112 | splitting the `/`-join of one or more slash-free parts gives back the parts |
| `TwitterHandle.SplitHeadIsFirstSegment` | pump_fun_scraper.py:112-115 | the first part of a split is the longest slash-free prefix |
| `TwitterHandle.FirstSegmentUnique` | pump_fun_scraper.py:112-115 | a string has only one longest slash-free prefix |
| `TwitterHandle.StrippedHeadIsUserHandle` | pump_fun_scraper.py:112-115 | the first part of the stripped path is the first segment after the path's leading slashes, and it is empty only when the path is all slashes |
| `TwitterHandle.UserHandleUnique` | pump_fun_scraper.py:112-115 | that first segment is unique for a path |
| `TwitterHandle.UserHandle` | pump_fun_scraper.py:105-117 | None gives None. Any path gives Some handle, never None, that contains no slash and is the path's first segment |
| `TwitterHandle.UserHandleIsTheHandle` | pump_fun_scraper.py:108-117 | the handle returned is exactly the path's first segment, in both directions |
| `TwitterHandle.EmptyHandleIffAllSlashes` | pump_fun_scraper.py:112-117 | the handle is `""` iff the path is empty or all slashes |
| `TwitterHandle.StatusPathYieldsAccount` | pump_fun_scraper.py:95-117 | the path `/elonmusk/status/1` yields the handle `elonmusk` |
| `TwitterHandle.SlashFreePathIsItsOwnHandle` | pump_fun_scraper.py:112-115 | a path without a slash, such as `not a url`, is its own handle |
| `Enrichment.TwitterUrlIsNonEmptyFetchedField` | pump_fun_scraper.py:80-93 | the Twitter URL is the fetched non-empty `"twitter"` field. The sentinel `"N/A"` yields None, whatever the service would answer |
| `Enrichment.InfluencersCountCases` | pump_fun_scraper.py:147-173 | no handle gives 0 and a blacklisted handle gives -1, both without the lookup. Otherwise the count is the lookup's `followers_count`, or 0 when it is absent or the request failed |
| `Enrichment.ReportOf` | pump_fun_scraper.py:244-249 | exactly one report is chosen: influencers when the count is positive, fake handle when it is negative, none found when it is zero |
| `Enrichment.ReportBranches` | pump_fun_scraper.py:147-173 | the fake-handle report is given iff the handle is blacklisted or the lookup gave a negative count. The influencers report is given iff the lookup gave a positive count |
| `Enrichment.BlacklistedStatusPathIsFake` | pump_fun_scraper.py:151-152 | with `urlparse` imported (see Findings), every URL path of the form `/<account>/<rest>` naming a blacklisted account, such as `/elonmusk/status/1`, is reported as a fake handle, whatever the lookup would answer |
| `Enrichment.AsWrittenNeverFlagsFakeHandles` | pump_fun_scraper.py:105-121 | as shipped, every URL gives no handle. The count is then 0 and the lookup is never made, so `/elonmusk/...` is reported as having no influencers where the intended code reports it as fake |
| `Enrichment.SafetyOf` | pump_fun_scraper.py:256-263 | a fetched summary gives a verdict carrying its score, safe iff the score is ≤ 500. No summary gives no verdict |
| `Enrichment.SafetyBoundInclusive` | pump_fun_scraper.py:44 | a score of exactly 500 is safe; 500.5 is not |
| `CsvLog.AppendKeepsEarlierRows` | pump_fun_scraper.py:220-221 | an append keeps every earlier row and adds one data row. It also adds the header before that row iff the file did not exist |
| `CsvLog.AppendAllShape` | pump_fun_scraper.py:220-221 | a run of appends leaves the earlier rows, then one header if the file was new and anything was appended, then the data rows in order |
| `CsvLog.AppendedSnoc` | pump_fun_scraper.py:220-221 | one more append extends that shape by exactly its row |
| `CsvLog.Log.constructor` | pump_fun_scraper.py:220 | the file as found at start-up; a file that does not exist holds no rows |
| `CsvLog.Log.Append` | pump_fun_scraper.py:220-221 | after the append the file exists, and its rows are the old rows, the header iff the file did not exist, then the new row. A file it creates holds exactly the header and that row |
| `Pipeline.DroppedIffNoSignature` | pump_fun_scraper.py:196-214 | an event is dropped iff its signature is absent or `"N/A"`. A dropped event is neither logged nor evaluated, and only the metadata fetch is made for it. Any other event is logged as its normalised row. An `"N/A"` URI makes no metadata fetch, for any event |
| `Pipeline.HighlightedIffOfInterest` | pump_fun_scraper.py:226-270 | a logged row is highlighted iff it passes the thresholds, and faulted iff a comparison raised. Only a highlighted row fetches the risk summary or makes any request beyond the metadata fetch |
| `Pipeline.BlacklistedHandleSkipsLookup` | pump_fun_scraper.py:239-256 | for a highlighted row with a blacklisted handle the report is "fake handle" and the follower lookup is not made. The risk summary is still fetched |
| `Pipeline.HighlightedExample` | pump_fun_scraper.py:195-256 | a frame with signature, large amounts, mint and URI is logged with its mint and highlighted, and its risk summary is fetched |
| `Pipeline.RoutineExample` | pump_fun_scraper.py:226-271 | a frame with only a signature and a small initial buy is logged as routine, and no request is made |
| `Pipeline.OutcomesAt` | pump_fun_scraper.py:61-64 | the i-th outcome of a session is the outcome of its i-th event |
| `Pipeline.LoggedRowsConcat` | pump_fun_scraper.py:61-64 | two consecutive batches of events log the rows of the first, then those of the second |
| `Pipeline.ProcessData` | pump_fun_scraper.py:189-274 | with `urlparse` imported (see Findings), returns the outcome and the requests that `Process` gives. The log is unchanged for a dropped event. Otherwise exactly one data row (plus the header on creation) is appended after the old rows, before the thresholds are evaluated |
| `Pipeline.Run` | pump_fun_scraper.py:61-64 | with `urlparse` imported (see Findings), the outcomes are those of each event in turn. The log gains the header (if new and anything was logged) and then exactly one row per valid event, in receive order, after the rows it held |

## Findings

| source | as written | input that shows it | evidently intended | confidence | as-written member | corrected member |
|---|---|---|---|---|---|---|
| pump_fun_scraper.py:111 | `urlparse` is called but never imported (imports at :1-12). The `NameError` is caught at :119-121, so the function returns None for every URL | the Twitter URL `https://x.com/elonmusk/status/1` gives no handle, count 0 and "No influencers found", where a blacklisted account should be reported as a fake handle | import `urlparse` from `urllib.parse`, so that the handle is the first segment of the URL's path | high; not executed | `TwitterHandle.UserHandleAsWritten`, shown by `Enrichment.AsWrittenNeverFlagsFakeHandles` | `TwitterHandle.UserHandle`, with `TwitterHandle.UserHandleIsTheHandle` and `Enrichment.BlacklistedStatusPathIsFake`; `Pipeline.Process` uses it |

## Left out

- TwitterHandle.UserHandle: takes the URL's path component. `urlparse`'s splitting of scheme, host, parameters, query and fragment, and its whitespace cleaning, are not modelled. `Pipeline.World.urlPath` stands for them.
- The websocket connection, the two subscription frames, `json.loads` of each frame, the exception handler of `subscribe`, the SIGINT handler, and the asyncio task and its cancellation (:46-67, :276-305). These are network and concurrency plumbing. `Pipeline.Run` takes the decoded events of one session as a sequence: the frames before the first frame that is not JSON. At :63 `json.loads` raises outside `process_data`'s `try`, which ends the `async for`; :66 prints the error and no later frame is processed.
- `test_connection.py`: a connection smoke test with no logic of its own.
- The HTTP requests in `get_twitter_url` (:83-93), in the TweetScout lookup (:154-173) and in `fetch_token_contract_analysis` (:175-187). Their answers are fields of `Pipeline.World`. Each is a fixed function of its argument, so a service that answers differently over time is not modelled.
- A `"twitter"` field that is not a string, such as a number. `Pipeline.World.metadataTwitter` answers only with strings. In the code, :89 returns such a value and it is written to the Twitter column. The corrected handle extraction would then raise inside its `try`, and :119-121 would give no handle.
- A metadata document whose body is not a JSON object. `data.get` at :88 raises `AttributeError`, which the handler at :91 does not catch. It escapes to :273 before :217, so an event with a valid signature is then neither logged nor evaluated.
- An event frame that decodes to a JSON array, string or number. `data.get` at :196 raises, and :273 catches it: no fetch is made and no row is logged. `Record.RawEvent` is a key/value map and cannot express such a frame.
- A follower count that is JSON null. Python would raise at :244 after the row was appended.
- A non-empty risk summary that lacks `"score"`. It raises `KeyError` at :259, which :273 catches after the row was logged and the influencer report printed. The model treats the summary as absent (an empty summary, falsy at :257, is modelled as absent too) or as carrying a score.
- The printed risk items (:265-268) and every other `print`/colorama output. `get_twitter_id` (:123-134) is left out too: it is never called, and it uses an undefined name.
- `MIN_FOLLOWERS` (:35): it is defined but never used.
- pandas' byte formatting of the CSV (quoting, number rendering). Rows are sequences of typed cells. A failing write, such as a disk or permission error, is not modelled.
- JSON booleans, arrays and objects as event values. A cell is text, a number or null. Numbers are `real`s, so IEEE rounding (for example of `0.01`) is not modelled; only comparisons are made on them.
