# Threat-analysis core of attack-surface-monitor, modelled in Dafny

The dashboard has a user type an IPv4 address and analyze it. Two services answer:
Shodan gives the organisation, location and service fingerprints, and VirusTotal's
"simple" endpoint gives open ports and known vulnerabilities. The API provider runs both
lookups. When both succeed it merges them into one normalised threat record, assigns a
risk level and pushes the record onto an in-memory history capped at ten entries, newest
first. It also keeps a shared `loading` flag and an `error` message. The analyzer form
validates the address with an anchored dotted-quad regular expression. It enables its
submit button only for a valid, non-blank address when nothing is loading, and its
submit handler trims the input, clears the error and starts the analysis.

The model has six modules:

- `Wrappers` (wrappers.dfy): `Option`. It stands for JavaScript's `null`/`undefined` and for
  a falsy response body.
- `Decimal` (decimal.dfy): digit strings, their value, and the decimal rendering of a
  number. The record id `threat-<millis>` uses it.
- `ThreatRecord` (threat_record.dfy): the response shapes and the `ThreatData` record. It
  holds the risk rule, the record construction (`|| 'Unknown'` defaults, the
  `map`/`filter(Boolean)` over services) and the capped history push. It also holds
  lemmas about many pushes in a row.
- `ApiContext` (api_context.dfy): class `ApiStore`. It has the `loading`, `error` and
  `threatData` fields, the three fetch wrappers, `clearError` and `analyzeThreat`. A
  ghost field `loadingLog` records every value `loading` is set to. A request ends as an
  `Outcome`: resolved with a body, resolved with a falsy body, or rejected.
- `IpValidation` (ip_validation.dfy): three descriptions of the language `validateIp`
  accepts, proved equal. `MatchesIpRegex` transcribes the regular expression.
  `IsDottedQuad` says in plain words "four dot-separated fields of 1–3 digits worth at
  most 255". `ValidateIp` is a one-pass recogniser.
- `IpAnalyzer` (ip_analyzer.dfy): JavaScript `trim`, `isValidIp`, the button's `disabled`
  condition, and class `IpAnalyzerForm` with `handleAnalyze`.

Calling `analyzeThreat` runs `Promise.all` over two fetch wrappers. Each wrapper sets
`loading` and clears `error` before it awaits. So both wrappers start before either
request settles. Each wrapper's `catch`/`finally` then runs when its own request settles.
`AnalyzeThreat` takes the settlement order as a parameter (`shodanSettlesFirst`).
If both requests fail, the message of the one that settled last is the one left.

Two behaviours of the code are easy to miss:

- `loading` is not true for the whole of an analysis. The `finally` of whichever
  sub-fetch settles first sets it to false while the other request is still pending
  (src/context/ApiContext.tsx:53 and :86). `ApiStore.SettledAfter` states the full
  sequence of `loading` values: `true, true, true, false, false, false`.
- The `.filter(Boolean)` at src/context/ApiContext.tsx:113 never removes anything,
  because each name has already defaulted to `"Unknown"`.
  `ThreatRecord.BuildThreatRecord` proves that the services list has exactly one entry
  per Shodan item.

## Model

| member | source | states |
|---|---|---|
| ThreatRecord.RiskLevelOf | src/context/ApiContext.tsx:111 | the level is High iff there is a vulnerability, Medium iff there are none and more than five ports, Low iff there are none and at most five ports |
| ThreatRecord.RiskHighWhenVulnerable | src/context/ApiContext.tsx:111 | a record with any vulnerability is High, whatever its ports |
| ThreatRecord.RiskWithoutVulnerabilities | src/context/ApiContext.tsx:111 | with no vulnerabilities: Medium exactly when more than five ports, Low exactly otherwise |
| ThreatRecord.RiskExamples | src/context/ApiContext.tsx:111 | one CVE with one port is High; six ports is Medium; two ports is Low |
| ThreatRecord.OrUnknown | src/context/ApiContext.tsx:106-107 | `v \|\| 'Unknown'`: the value when present and non-empty, otherwise "Unknown"; never empty |
| ThreatRecord.LocationOfRecord | src/context/ApiContext.tsx:106-107 | country and city are the first Shodan item's location fields when present and non-empty, otherwise "Unknown"; an empty data array gives "Unknown" |
| ThreatRecord.KeepTruthy | src/context/ApiContext.tsx:113 | `filter(Boolean)`: the result has no empty string, is no longer than the input, and equals the input when the input has no empty string |
| ThreatRecord.KeepTruthySingleton | src/context/ApiContext.tsx:113 | on one element the filter keeps it exactly when it is non-empty |
| ThreatRecord.KeepTruthyAppend | src/context/ApiContext.tsx:113 | the filter of a concatenation is the concatenation of the filters; with the singleton case this fixes the result as the non-empty elements in their order |
| ThreatRecord.FirstCountry | src/context/ApiContext.tsx:106 | `data[0]?.location?.country_name` is present exactly when there is a first item with a location naming a country, and is then that name |
| ThreatRecord.FirstCity | src/context/ApiContext.tsx:107 | `data[0]?.location?.city` is present exactly when there is a first item with a location naming a city, and is then that city |
| ThreatRecord.RecordId | src/context/ApiContext.tsx:104 | the id is `threat-` followed by the digits of the milliseconds, and nothing else |
| ThreatRecord.ProductNames | src/context/ApiContext.tsx:113 | one name per Shodan item, in order: its product, or "Unknown" when missing or empty |
| ThreatRecord.BuildThreatRecord | src/context/ApiContext.tsx:103-114 | ip, org, ports and vulnerabilities are copied unchanged; the risk follows the rule; services has the same length as `data` and entry i is item i's product or "Unknown" (the filter drops nothing); country and city are never empty; id and lastSeen come from the clock readings |
| ThreatRecord.RecordIdsDistinct | src/context/ApiContext.tsx:104 | ids `threat-<millis>` from different milliseconds differ |
| ThreatRecord.ExampleMerge | src/context/ApiContext.tsx:101-114 | `ExampleOrg` with one nginx item in US/LA and ports 22, 80 without vulnerabilities gives country US, city LA, ports [22, 80], risk Low, services ["nginx"] |
| ThreatRecord.PushCapped | src/context/ApiContext.tsx:116 | `[rec, ...prev.slice(0, 9)]` has length min(\|prev\| + 1, 10), the new record at index 0, and prev[i-1] at every index i ≥ 1 |
| ThreatRecord.PushCappedIsNewest | src/context/ApiContext.tsx:116 | pushing onto a history of the newest ten keeps the newest ten of the record followed by the old entries |
| ThreatRecord.RecordAllKeepsNewest | src/context/ApiContext.tsx:116 | after any number of pushes onto a history of at most ten, the history is the first ten of the records newest first, followed by the old history (eviction by insertion order) |
| ThreatRecord.RecordAllBounded | src/context/ApiContext.tsx:116 | the history never exceeds ten entries, and the latest record is at index 0 |
| ThreatRecord.RecordAllForgetsOld | src/context/ApiContext.tsx:116 | after ten or more pushes the history is exactly the last ten records, newest first |
| Decimal.Digits | src/context/ApiContext.tsx:104 | the decimal rendering of the milliseconds is non-empty and all digits, denotes the number, and has no leading zero |
| Decimal.DigitsInjective | src/context/ApiContext.tsx:104 | different numbers render differently |
| ApiContext.FailedLookupKeepsHistory | src/context/ApiContext.tsx:101-117 | if either wrapper returned nothing usable, the history after the analysis equals the history before |
| ApiContext.SuccessfulLookupPrepends | src/context/ApiContext.tsx:101-117 | if both lookups succeeded, the history has length min(\|prev\| + 1, 10), the new record for this ip first, then the older ones in order |
| ApiContext.JoinErrorNoneIff | src/context/ApiContext.tsx:96-99 | the error is cleared after the join exactly when neither request was rejected, in either settlement order |
| ApiContext.JoinErrorBothFail | src/context/ApiContext.tsx:96-99 | when both are rejected, an error is left, and it is the message of the sub-fetch that settled last |
| ApiContext.ApiStore.constructor | src/context/ApiContext.tsx:31-33 | the provider starts not loading, with no error and an empty history |
| ApiContext.Returned | src/context/ApiContext.tsx:46-51 | a wrapper returns a usable body exactly when its request resolved with a truthy body; a rejection returns null |
| ApiContext.FalsyBodyLeavesNoRecord | src/context/ApiContext.tsx:46-47 | a request that resolves with a falsy body adds no record, and leaves no error unless the other request is rejected |
| ApiContext.ApiStore.SetLoading | src/context/ApiContext.tsx:31 | `setLoading` stores the value and appends it to the log of loading values |
| ApiContext.ApiStore.ClearError | src/context/ApiContext.tsx:35-37 | `clearError` sets the error to null |
| ApiContext.ApiStore.BeginFetch | src/context/ApiContext.tsx:40-42 | before awaiting, a wrapper sets loading to true and clears the error |
| ApiContext.ApiStore.Settle | src/context/ApiContext.tsx:46-53 | on settling, a wrapper returns the resolved body (possibly falsy) or null after a rejection; on rejection it sets its fixed message and otherwise leaves the error; in either case loading ends false |
| ApiContext.ApiStore.FetchShodanData | src/context/ApiContext.tsx:39-55 | returns the resolved body or null; the error is 'Failed to fetch Shodan data' exactly when the request is rejected and null otherwise, a falsy body included; loading goes true then false |
| ApiContext.ApiStore.FetchVirusTotalData | src/context/ApiContext.tsx:57-72 | same contract with 'Failed to fetch VirusTotal data' |
| ApiContext.ApiStore.FetchVirusTotalSimple | src/context/ApiContext.tsx:74-88 | same contract with 'Failed to fetch VirusTotal simple data' |
| ApiContext.ApiStore.AnalyzeThreat | src/context/ApiContext.tsx:90-124 | keeps the history at most ten entries; ends with loading false after the sequence true, true, true, false, false, false; the error is the message of the last-settled rejected request, or null; the history gains the merged record exactly when both requests resolve with a truthy body and is otherwise unchanged |
| IpValidation.MatchesIpRegex | src/components/ThreatAnalysis/IpAnalyzer.tsx:18 | the anchored pattern, alternative by alternative; a matched string has 7 to 15 characters; RegexMatchesDottedQuad characterises it fully |
| IpValidation.MatchesGroupsLength | src/components/ThreatAnalysis/IpAnalyzer.tsx:18 | n dot-terminated groups and a last field take between 2n + 1 and 4n + 3 characters |
| IpValidation.RegexOctetIsOctet | src/components/ThreatAnalysis/IpAnalyzer.tsx:18 | the alternation `25[0-5]\|2[0-4][0-9]\|[01]?[0-9][0-9]?` matches exactly the strings of 1–3 digits worth at most 255, leading zeros included |
| IpValidation.MatchesGroupsIff | src/components/ThreatAnalysis/IpAnalyzer.tsx:18 | `(?:OCTET\.){n}OCTET`, anchored, matches exactly the strings that split at their dots into n + 1 octet fields |
| IpValidation.RegexMatchesDottedQuad | src/components/ThreatAnalysis/IpAnalyzer.tsx:18 | the whole anchored pattern matches exactly the dotted quads (four fields, each 1–3 digits, value ≤ 255) |
| IpValidation.ScanCorrect | src/components/ThreatAnalysis/IpAnalyzer.tsx:17-20 | the recogniser, started in any state, accepts the rest of the input exactly when the open field and the remaining fields make up the remaining octets |
| IpValidation.ValidateIp | src/components/ThreatAnalysis/IpAnalyzer.tsx:17-20 | `validateIp(s)` holds exactly when s is a dotted quad |
| IpValidation.ValidateIpMatchesRegex | src/components/ThreatAnalysis/IpAnalyzer.tsx:17-20 | `validateIp(s)` holds exactly when the regular expression matches s |
| IpValidation.AcceptedCharacters | src/components/ThreatAnalysis/IpAnalyzer.tsx:18 | an accepted string is non-empty and holds only ASCII digits and dots |
| IpValidation.ValidateJoined | src/components/ThreatAnalysis/IpAnalyzer.tsx:18 | dot-free fields joined with dots are accepted exactly when there are four and each is an octet |
| IpValidation.FormattedQuadAccepted | src/components/ThreatAnalysis/IpAnalyzer.tsx:18 | a.b.c.d written in decimal is accepted exactly when all four numbers are at most 255 |
| IpValidation.AcceptsAllTwoFiftyFive | src/components/ThreatAnalysis/IpAnalyzer.tsx:18 | `255.255.255.255` is accepted |
| IpValidation.AcceptsAllOnes | src/components/ThreatAnalysis/IpAnalyzer.tsx:18 | `1.1.1.1` is accepted |
| IpValidation.AcceptsLeadingZeros | src/components/ThreatAnalysis/IpAnalyzer.tsx:18 | `001.02.0.099` is accepted |
| IpValidation.RejectsFourDigitField | src/components/ThreatAnalysis/IpAnalyzer.tsx:18 | `0001.2.3.4` is rejected: a leading zero still counts as a digit |
| IpValidation.RejectsBoundaryExamples | src/components/ThreatAnalysis/IpAnalyzer.tsx:18 | `256.1.1.1`, `1.1.1.1234` and `1..1.1` are rejected |
| IpValidation.RejectsThreeFields | src/components/ThreatAnalysis/IpAnalyzer.tsx:18 | `1.1.1` is rejected |
| IpValidation.RejectsFiveFields | src/components/ThreatAnalysis/IpAnalyzer.tsx:18 | `1.1.1.1.1` is rejected |
| IpAnalyzer.Trim | src/components/ThreatAnalysis/IpAnalyzer.tsx:11 | `trim()` is a contiguous slice of the input whose cut-off prefix and suffix are all whitespace; it is empty exactly when every character is whitespace, and otherwise neither starts nor ends with whitespace (so the slice is the largest one) |
| IpAnalyzer.IsValidIp | src/components/ThreatAnalysis/IpAnalyzer.tsx:22 | the input counts as valid exactly when it is empty or a dotted quad |
| IpAnalyzer.SubmitDisabled | src/components/ThreatAnalysis/IpAnalyzer.tsx:70 | loading, or an all-whitespace input, always disables the button; SubmitEnabledIff gives the exact condition |
| IpAnalyzer.TrimUnchanged | src/components/ThreatAnalysis/IpAnalyzer.tsx:14 | a string with no whitespace at either end is its own trim |
| IpAnalyzer.WhitespaceRejected | src/components/ThreatAnalysis/IpAnalyzer.tsx:18 | any whitespace character anywhere, leading, trailing or inner, makes the input invalid |
| IpAnalyzer.TrimKeepsValidAddress | src/components/ThreatAnalysis/IpAnalyzer.tsx:14 | an accepted address is non-empty and is left unchanged by trimming |
| IpAnalyzer.SubmitEnabledIff | src/components/ThreatAnalysis/IpAnalyzer.tsx:70 | the button `loading \|\| !isValidIp \|\| !ipAddress.trim()` is enabled exactly when nothing is loading and the input is a valid dotted quad |
| IpAnalyzer.EnabledSubmitPassesInputUnchanged | src/components/ThreatAnalysis/IpAnalyzer.tsx:70 | when the button is enabled, the input is a non-blank dotted quad that trimming leaves unchanged, so it reaches the analysis exactly as typed |
| IpAnalyzer.GatingExamples | src/components/ThreatAnalysis/IpAnalyzer.tsx:22 | the empty input counts as valid but disables the button; a single space is invalid; loading disables the button even for `1.1.1.1` |
| IpAnalyzer.IpAnalyzerForm.constructor | src/components/ThreatAnalysis/IpAnalyzer.tsx:6 | the input starts empty |
| IpAnalyzer.IpAnalyzerForm.SetIpAddress | src/components/ThreatAnalysis/IpAnalyzer.tsx:41 | `onChange` stores the typed value |
| IpAnalyzer.IpAnalyzerForm.HandleAnalyze | src/components/ThreatAnalysis/IpAnalyzer.tsx:9-15 | on whitespace-only input nothing changes and no analysis runs; otherwise the error is cleared and the analysis runs on the trimmed input, leaving the state `analyzeThreat` promises for that string |

## Left out

- The HTTP requests (src/context/ApiContext.tsx:46, 63, 79) are I/O. Each wrapper instead receives its request's `Outcome`: `Rejected` for a transport or non-2xx failure, which reaches the `catch`, or `Resolved` with the body, where `Resolved(None)` is a 2xx response with a falsy body such as `''`, which the wrapper returns without setting a message.
- `console.error` logging is a diagnostic side channel with no effect on state.
- Real concurrency is not modelled. One analysis runs in the interleaving `Promise.all` produces: both wrappers start, then the two requests settle in an order given as a parameter. Overlapping `analyzeThreat` calls racing on `loading` and `error` are not modelled.
- The clock readings `Date.now()` and `new Date().toISOString()` are environment calls. They are the `Stamp` parameter. The milliseconds are a `nat`, so a clock before 1970 is not modelled. `lastSeen` is the given string; its ISO format is not checked.
- The `catch` branch of `analyzeThreat` (src/context/ApiContext.tsx:118-120, 'Failed to analyze threat') is not modelled. The wrappers never reject, and with responses of the declared shapes the merge cannot throw. Only a malformed response, such as a missing `data` array, would reach that branch, and the typed inputs exclude it.
- ApiContext.ApiStore.FetchVirusTotalData: the shape of the full VirusTotal response is not part of this model, so the method is generic in it. The merge never reads that response.
- React's context wiring (`createContext`, `useApi`, the `useCallback` memoisation) is not modelled, and neither is state batching or the JSX rendering. That includes the red border and message shown when `!isValidIp`, the input's own `disabled={loading}`, and `e.preventDefault()`.
- src/components/Dashboard/StatsCard.tsx is not part of this model. It is presentation only.
- JavaScript strings are UTF-16; the model treats a string as a sequence of Unicode scalar values. For this input this only matters for `trim`, whose whitespace set is listed character by character.
