# qbt-rate-limiter, modelled in Dafny

`qbt_rate_limiter.py` is a small daemon. It polls a Plex server's
`/status/sessions` list. While anyone is streaming, it caps qBittorrent's
global upload and download rates at configured values. It is meant to lift
both caps when nobody is streaming (the value -1 means no limit). As written,
an idle answer without child elements is skipped and the caps stay (see
Findings).

This project models the daemon's decision core and proves properties of it:

- `Limits`: `mbps_to_bps`. A cap given in MB/s becomes `int(m * 1024 * 1024)`
  bytes/s, truncated toward zero. A result that is not positive, or text that
  `float()` rejects, becomes -1. Python's `float()` is modelled on plain
  decimal text (`ParseFloat`).
- `Xml`: the parts of ElementTree the daemon relies on. These are the element
  record, `attrib.get`, `findall('./Tag')`, `find('./Tag')` (the first result
  of `findall`), and the truth value of an element (true when it has at least
  one child).
- `Sessions`: the part of `process_plex_sessions` that needs no client.
  - It classifies the root by its `size` attribute. A missing attribute
    counts as `"0"`.
  - It picks the policy that follows from that classification.
  - It composes the title (`show - season - episode`, or the bare title) and
    the report line for each `Video` session.
  - A session without a `User` child or without a user `title` raises. The
    report stops there.
- `QbtClient`: a class `Client` that holds the two limits and a log of the
  setter calls it received. Each setter is told whether it raises.
- `Limiter` covers the rest of the daemon:
  - `set_qbt_limits`: upload first, then download. The first exception skips
    the rest and is swallowed.
  - `process_plex_sessions`: logs each session, then calls the setters.
  - One pass of the `while True` loop, including its `if root:` guard.
  - A finite run of passes. A crash ends the run.
  - The start-up check that returns before the loop when a required variable
    is missing or empty.
  - Each method that changes the client is proved against a function on the
    client's state (`SetLimitsEffect`, `ProcessEffect`, `IterationEffect`,
    `RunEffect`). The lemmas are stated over those functions. The session
    loop and its body (`LogSessions`, `BuildLine`) are proved against
    `Report` and `ReportLine`.
- `Scenarios`: concrete runs. They cover caps of 2 and 10 MB/s while a film
  plays, an unset cap, an unparsable cap, a failed request, and an idle server
  after a stream (see Findings).

Two behaviours of the code are easy to miss, and the model keeps both:

- A positive cap below one byte per second (`0 < m * 1048576 < 1`) gives -1,
  not 0.
- A fetched root without child elements is skipped by `if root:`. An idle
  answer with no sessions under it therefore never lifts the caps (see
  Findings).

## Model

| member | source | states |
|---|---|---|
| `Limits.Trunc` | qbt_rate_limiter.py:43 | `int()` truncates toward zero: the result is within one of x and not farther from zero than x |
| `Limits.MbpsToBps` | qbt_rate_limiter.py:41-47 | the result is -1 or positive, never 0; it is positive exactly when the parse succeeded and m * 1048576 >= 1; a positive result is the product with its fraction dropped |
| `Limits.MbpsToBpsIsTruncatedProduct` | qbt_rate_limiter.py:43-44 | whenever trunc(m * 1048576) > 0, the result is exactly that number |
| `Limits.MbpsToBpsBelowOneByte` | qbt_rate_limiter.py:43-44 | m <= 0, and any m under one byte per second, gives -1 |
| `Limits.ParseFloat` | qbt_rate_limiter.py:43 | `float()` of text: a result exists only for non-empty text, and a negative result only when the text starts with '-' |
| `Limits.ParseFloatOfDigits` | qbt_rate_limiter.py:43 | text made only of digits is read as that whole number |
| `Limits.ParseFloatOfDecimal` | qbt_rate_limiter.py:43 | digits, a point and digits are read as the whole part plus the decimal fraction |
| `Limits.ParseFloatNegated` | qbt_rate_limiter.py:43 | a leading '-' negates the value of the unsigned text after it (text starting with a digit or '.'), and is rejected with it |
| `Limits.ParseFloatOfNatText` | qbt_rate_limiter.py:43 | reading back the decimal text of any whole number gives that number |
| `Limits.ParseFloatOfZero` | qbt_rate_limiter.py:92-93 | the default cap text "0" is read as zero |
| `Xml.FindAll` | qbt_rate_limiter.py:69 | `findall('./Video')` returns only direct children tagged `Video`, every such child, and no more elements than there are children |
| `Xml.FindAllAppend` | qbt_rate_limiter.py:69-70 | the matches of two runs of children are the matches of the first run followed by those of the second: document order and multiplicity are kept |
| `Xml.FindAllSingle` | qbt_rate_limiter.py:69 | one child is found exactly once when its tag matches and not at all otherwise |
| `Xml.Find` | qbt_rate_limiter.py:72 | `find('./User')` is None exactly when `findall` finds nothing, and otherwise is the first element `findall` returns |
| `Sessions.PolicyFor` | qbt_rate_limiter.py:66-85 | when `size` is not "0", the policy is exactly the configured caps; otherwise it is (-1, -1) whatever the caps |
| `Sessions.PolicyIgnoresSessions` | qbt_rate_limiter.py:66-70 | two roots with the same `size` give the same policy, however many `Video` children they hold |
| `Sessions.MissingSizeIsIdle` | qbt_rate_limiter.py:66 | a root without a `size` attribute is idle and gives (-1, -1) |
| `Sessions.Title` | qbt_rate_limiter.py:74-81 | with a non-empty `grandparentTitle`, the title is exactly "gp - parent - title" (starts with "gp - parent - ", ends with the title, and has just their lengths plus the two separators); otherwise it is the bare title; absent parts show as "None" |
| `Sessions.UserName` | qbt_rate_limiter.py:72 | the user is the `title` of the first `User` child; it is missing (the daemon raises) exactly when there is no `User` child or that child has no `title` |
| `Sessions.ReportLine` | qbt_rate_limiter.py:71-81 | a line is built exactly when the user is found; it is exactly "User: <user>, Library: <library>, Title: " followed by the composed title, the library shown as "None" when absent |
| `Sessions.Report` | qbt_rate_limiter.py:70-81 | the logged lines are the sessions' lines in order, up to the first session whose line raises; the report crashed exactly when such a session exists, and that session comes right after the logged lines |
| `QbtClient.Client.TransferSetUploadLimit` | qbt_rate_limiter.py:51 | records the call; on success sets only the upload limit; on failure changes no limit and reports the exception |
| `QbtClient.Client.TransferSetDownloadLimit` | qbt_rate_limiter.py:52 | records the call; on success sets only the download limit; on failure changes no limit and reports the exception |
| `Limiter.SetLimitsEffect` | qbt_rate_limiter.py:49-63 | earlier calls are kept and the next call is always the upload setter; if it raises, nothing else changes and download is never called; download changes only when both setters succeed |
| `Limiter.SetQbtLimits` | qbt_rate_limiter.py:49-63 | the client ends as `SetLimitsEffect` says; the result is the logged branch ("set" or "removed" per limit), or the swallowed failure |
| `Limiter.ProcessPlexSessions` | qbt_rate_limiter.py:65-85 | the client and the outcome are as `ProcessEffect` says: while streaming, it logs every session and then applies the caps, or stops at the session that raises with no setter called; when idle, it applies (-1, -1) |
| `Limiter.LogSessions` | qbt_rate_limiter.py:70-81 | the `for session in sessions` loop logs exactly the report's lines and stops, crashed, exactly where the report does |
| `Limiter.BuildLine` | qbt_rate_limiter.py:71-81 | the loop body (find the `User` child, read its `title`, read the attributes, pick one of the two line shapes) builds exactly the session's line, and fails exactly where the lookup raises |
| `Limiter.ReportStopsAtFirstFailure` | qbt_rate_limiter.py:70-72 | lines built one by one up to the first failure are exactly the report, and it crashed exactly when a failure follows them |
| `Limiter.Iterate` | qbt_rate_limiter.py:104-106 | one pass calls `process_plex_sessions` only when the fetch succeeded and the root has a child; otherwise the client is untouched |
| `Limiter.SkippedPassChangesNothing` | qbt_rate_limiter.py:104-106 | a failed fetch, or a root without children, calls no setter and leaves both limits and the call log as they were |
| `Limiter.PassAppliesPolicy` | qbt_rate_limiter.py:82-85 | a fault-free pass that reaches the setters leaves exactly the policy and appends exactly the upload call and then the download call, even when the client already held that policy |
| `Limiter.UploadFailureSkipsDownload` | qbt_rate_limiter.py:50-63 | when the upload setter raises, the download limit is unchanged, no download call is made, and the pass ends normally with the failure logged |
| `Limiter.IterateIntended` | qbt_rate_limiter.py:104-106 | the corrected pass processes every fetched root, with or without children |
| `Limiter.IntendedIdleLiftsCaps` | qbt_rate_limiter.py:83-85 | with the corrected guard, a fetched idle snapshot always lifts both caps |
| `Limiter.IntendedDiffersOnlyOnEmptyRoots` | qbt_rate_limiter.py:105 | the corrected and the written guard agree on every fetch except a root without children |
| `Limiter.Run` | qbt_rate_limiter.py:103-107 | the loop over finitely many passes leaves the client as `RunEffect` says, and stops at the first pass that raises |
| `Limiter.SkippedPassesChangeNothing` | qbt_rate_limiter.py:103-107 | any number of passes whose fetch fails (or whose root is empty) change nothing and do not crash |
| `Limiter.RunThenPass` | qbt_rate_limiter.py:103-107 | a run followed by one more pass is that pass started from where the run left the client, unless the run had already crashed |
| `Limiter.LatestPassDecides` | qbt_rate_limiter.py:103-106 | no hysteresis: after any history that did not crash, a fault-free applying pass leaves exactly its own snapshot's policy |
| `Limiter.EveryPassReapplies` | qbt_rate_limiter.py:103-107 | repeating the same applying pass n times makes 2n setter calls: limits are pushed again on every pass, with no comparison against the previous state |
| `Limiter.CapSetting` | qbt_rate_limiter.py:92-101 | a configured cap is -1 or positive, and an unset cap (default "0") is -1 |
| `Limiter.Startup` | qbt_rate_limiter.py:88-101 | the daemon continues exactly when all four required variables are set and non-empty; its caps are the converted cap settings |
| `Limiter.RunDaemon` | qbt_rate_limiter.py:87-107 | with incomplete configuration the client is never touched; otherwise the run proceeds with the configured caps |
| `Scenarios.TwoAndTenMegabytes` | qbt_rate_limiter.py:41-44 | "2" gives 2097152 and "10" gives 10485760 bytes/s |
| `Scenarios.FilmIsWatchedByAlice` | qbt_rate_limiter.py:72 | the user of a `Video` with a `User` child titled "alice" is "alice" |
| `Scenarios.OneStreamIsReported` | qbt_rate_limiter.py:66-81 | a root with size "1" and one complete `Video` is streaming, is processed, and logs that session's line without crashing |
| `Scenarios.StreamingAppliesCaps` | qbt_rate_limiter.py:100-106 | with caps "2" and "10" and one stream, the client ends at upload 2097152 and download 10485760 |
| `Scenarios.UnsetUploadCapIsUnlimited` | qbt_rate_limiter.py:92-106 | an unset upload cap leaves upload unlimited even while streaming |
| `Scenarios.UnparsableCapIsUnlimited` | qbt_rate_limiter.py:45-47 | a cap that `float()` rejects becomes no limit |
| `Scenarios.FailedFetchDoesNothing` | qbt_rate_limiter.py:37-39 | a failed request leaves the client exactly as it was |
| `Scenarios.EmptyIdleContainerKeepsCaps` | qbt_rate_limiter.py:105 | an idle server's `<MediaContainer size="0"/>` classifies as idle, yet the pass skips it |
| `Scenarios.StreamingThenIdleKeepsCaps` | qbt_rate_limiter.py:103-106 | as written, a stream followed by the empty idle answer leaves the caps in place |
| `Scenarios.StreamingThenIdleLiftsCapsAsIntended` | qbt_rate_limiter.py:83-85 | with the corrected guard, the same history ends with no cap |

## Left out

- HTTP (`get_plex_sessions`, lines 31-39) is network I/O. Its result is the
  `Option<Element>` that a pass receives: None stands for a `RequestException`.
  A body that `ET.fromstring` cannot parse raises an exception the source does
  not catch. The model has no such fetch outcome.
- XML parsing is a foreign library. The root arrives already parsed as an
  `Element` record.
- Logging (lines 11-29 and every `logger` call) is I/O. Only which message
  branch was taken is kept: `SetResult`, the session lines, and the `Outcome`
  of a pass.
- `load_dotenv` and `environ` are environment I/O. The environment is a
  `map<string, string>`.
- `Client(...)` construction and login (line 99) are foreign calls. A failed
  login surfaces in the library as setter exceptions. The model covers it with
  the per-call failure flags (`Faults`).
- `sleep(30)` and the endless `while True` are time and non-termination.
  `Run` takes a finite sequence of passes.
- `Limits.ParseFloat` models `float()` only on plain decimal text: an optional
  sign, digits, an optional point and digits.
  - Python also strips surrounding whitespace, and accepts exponents,
    underscores between digits, non-ASCII decimal digits (full-width "２" is
    2.0), "inf", "infinity" and "nan" in any letter case, and everything else
    `float()` accepts beyond this grammar. The model rejects all of these
    (-1).
  - For "nan" in any case the source also ends at -1, because `int(nan)`
    raises ValueError.
  - For "inf" and "infinity" in any case the source raises an uncaught
    OverflowError. Non-finite values are not modelled.
- `Limits.MbpsToBps` uses exact reals, with no float range and no rounding.
  - It does not model the IEEE rounding of `float(mbps)`. The two
    multiplications by 1024 are exact in binary, so all the error comes from
    that rounding, which is at most m * 2^-53. After the factor 2^20, the
    result differs from the model's by at most one for caps below 2^33 MB/s
    (about 8.6e9), and by more above that. For "9007199254740993" (2^53 + 1),
    `float()` gives 2^53, so the source returns 2^73 =
    9444732965739290427392; the model returns 2^73 + 2^20 =
    9444732965739291475968.
  - The threshold is an exception to that bound. Text that `float()` rounds
    up to exactly 2^-20 MB/s, such as "0.00000095367431640624999" (2^-20
    minus 10^-23), gives 1 in the source: a cap of one byte per second. In
    the model the exact product is just below 1, so the result is -1, no
    limit.
  - It does not model overflow. Decimal text too large for a float product
    (for example "1" followed by 303 zeros) makes `float(mbps) * 1024 * 1024`
    infinite, and `int()` then raises OverflowError. `except ValueError`
    (line 45) does not catch it, so `main` ends at line 100, before the loop.
    The model gives a positive cap instead, and `Limiter.RunDaemon` runs the
    passes with it.
- `QbtClient.Client.TransferSetUploadLimit`: a call that raises is modelled as
  changing no limit. A request that the server applied before the failure was
  reported is not modelled. The same holds for `TransferSetDownloadLimit`.
- `Limiter.Run` keeps the guard as written (`Limiter.Iterate`). The corrected
  pass (`Limiter.IterateIntended`) is modelled beside it and is not looped.

## Findings

| source | as written | input that shows it | evidently intended | confidence | as-written member | corrected member |
|---|---|---|---|---|---|---|
| qbt_rate_limiter.py:105 | `if root:` tests ElementTree truthiness, which is false for an element without children. An idle server's session list is then skipped, and the `size == "0"` branch (lines 83-85) never lifts the caps. | A pass that applies caps while a film plays, followed by a fetch returning `<MediaContainer size="0"/>`. The caps stay in place with nobody streaming. | `if root is not None:`, so that every fetched snapshot is classified and an idle one applies (-1, -1). | not executed; high, provided the idle answer has no child elements | `Scenarios.StreamingThenIdleKeepsCaps` | `Limiter.IntendedIdleLiftsCaps` |
