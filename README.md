# pour — a verified model of the run planner and dispatcher

`pour` is a command-line HTTP load tester. Given a target URL (`--url`) or a
file of URLs, one per line (`-f`), and a repetition count (`-n`), it sends a
GET request for every URL `n` times over. It runs them either one after
another (the default) or all at once (`-a`). For each response it prints one
report line.

This project models `main` and `exec_request` of `src/main.rs`:

- **Types** (`types.dfy`): URIs, requests, statuses, network outcomes, the
  failures a run can end with (with their messages), and how a run exits.
- **UrlSet** (`url_set.dfy`): `str::lines` and the building of the target
  set. A given file wins over `--url`. Otherwise `--url` is required and
  becomes a one-element set. The first line of the file that does not parse
  aborts the build and is named in the error.
- **WorkList** (`work_list.dfy`): the work list is `n` passes over the
  target set, concatenated in order. Its entry `i` targets
  `urls[i % |urls|]`, and it has `|urls| * n` entries.
- **Report** (`report.dfy`): the report line
  `<secs>.<millis, zero-padded to 3>s, <status>, <uri>`. Seconds are
  `nanos / 10^9` and milliseconds are `(nanos % 10^9) / 10^6`. A second line
  with the status follows exactly for a 5xx status (500 to 599, the server
  error class of section 15.6 of RFC 9110). A decoder reads the time field
  back to the values written.
- **Dispatch** (`dispatch.dfy`): sequential mode runs the requests in order
  and stops at the first failure. Concurrent mode spawns one task per
  request, and a counting loop `while completed < tasks` consumes completion
  messages. The loop is modelled over an abstract sequence of `recv`
  results.
- **Pour** (`pour.dfy`): the pure plan (zero guard, target set, work list)
  and the `Run` method that dispatches it.

The network is a parameter `net: nat -> NetOutcome`: the answer to the
`i`-th request of the work list. That answer is a status with the elapsed
time in nanoseconds, or a transport error. URI parsing is a parameter
`parse: string -> Option<Uri>`. The contents of the URL file are an input,
`None` when the file cannot be read.

The model follows the code as written. In particular:

- `-n 0` is a panic (`Cannot repeat 0 times`), not a returned error. It is
  modelled as `Aborted(ZeroRepetitions)`. `Types.IsPanic` marks the
  panics the model covers, and `Pour.Run` shows that a run ending in one of
  them sends no request.
- An empty URL file is not rejected. In sequential mode the run completes
  with no request. In concurrent mode `tokio::sync::mpsc::channel(0)` panics
  (`Aborted(EmptyChannel)`).
- Supplying both `--url` and `-f` is not an error. The file wins.
- In concurrent mode a failing request panics its task, so the task sends no
  completion message. `main` holds its own sender, so the channel never
  closes, and the counter waits for ever: `Run` ends in `Hung`. It never
  ends in `Aborted(ChannelClosed)`. The run completes exactly when every
  request succeeds.
- A failed request prints no report line, in either mode.
- The timeout option is parsed and never used.
- `str::lines` is modelled as the current standard library defines it: it
  splits at `\n` and `\r\n`, and a bare `\r` ending the last line is kept.
  Older toolchains also dropped that final `\r`.

## Model

| member | source | states |
|---|---|---|
| Types.MessageIdentifies | src/main.rs:24-83 | apart from a transport error, whose message is the error's own text, equal messages mean equal failures: each message names its kind, and the quoted path, line or URL is recovered exactly |
| UrlSet.Lines | src/main.rs:40 | no line of the file contains a newline; a file has no lines exactly when it is empty |
| UrlSet.LinesOfUnlines | src/main.rs:40 | a file written one plain line per entry (newline-terminated) reads back as exactly those lines, in order |
| UrlSet.LinesOfCrlf | src/main.rs:40 | a file written with `\r\n` after every line reads back as exactly those lines: one `\r` before each newline is part of the terminator, even after a line that ends in `\r` |
| UrlSet.LastLineKept | src/main.rs:40 | a last line with no newline after it is read whole, including a final bare `\r`; the lines before it read back as written |
| UrlSet.LinesOfCrlfThenLast | src/main.rs:40 | lines each followed by `\r\n`, then an unterminated last line, read back as exactly those lines and the last one whole, a final bare `\r` included |
| UrlSet.CrlfThenBareCr | src/main.rs:40 | both rules on one text: `"a\r\nb\r"` reads as `"a"` and `"b\r"` |
| UrlSet.ParseLines | src/main.rs:40-45 | collection succeeds iff every line parses; then one URI per line in file order; otherwise the error names a line that does not parse and every earlier line parses (the first bad line) |
| UrlSet.BuildUrlSet | src/main.rs:36-52 | an unreadable file is an error naming the path; a readable file gives the parsed lines whatever `--url` is; with no file a missing URL is `MissingUrl`, a parsable URL gives a one-element set, an unparsable one an error naming it |
| UrlSet.FileOfUrls | src/main.rs:36-45 | a file holding one plain URL per line yields the parse of exactly those URLs in order, whatever `--url` says |
| WorkList.Gets | src/main.rs:58-62 | one GET request per URI, same length, same order |
| WorkList.Expand | src/main.rs:54-57 | the work list has exactly `|urls| * n` entries, the `tasks` target of the counter |
| WorkList.ExpandAt | src/main.rs:56-57 | entry `i` of the work list is a GET of `urls[i % |urls|]` |
| WorkList.ExpandShape | src/main.rs:54-62 | length `|urls| * n` and entry `i` targets `urls[i % |urls|]`, for every entry |
| WorkList.PassIsTargetSet | src/main.rs:56-57 | the `p`-th block of `|urls|` entries is the whole target set in order: passes are concatenated by repetition index |
| Report.Decimal | src/main.rs:112 | seconds are written as a non-empty digit string without a leading zero |
| Report.DecimalRoundTrip | src/main.rs:112 | reading the written seconds back gives the number written |
| Report.Pad3 | src/main.rs:112 | milliseconds are written as exactly three digits that read back to the value |
| Report.ReportLine | src/main.rs:110-112 | the line ends with `s, <status>, <uri>`, preceded by at least five characters for the time field; `Report.ReportLineForm` fixes the whole form and `Report.ReportLineElapsed` what the time field reads back as |
| Report.ReportLineForm | src/main.rs:112 | the line is `<secs>.<millis>s, <status>, <uri>`: a digit run of seconds without a leading zero, a dot, three digits, then immediately `s, <status>, <uri>` with nothing in between |
| Report.ReportLines | src/main.rs:112-115 | one report line, plus a second line holding the status exactly when the status is 500 to 599 |
| Report.ParseOfField | src/main.rs:112 | the decoder reads any written time field (digits, a dot, three digits, `s`) back as the two numbers written, whatever follows |
| Report.ReportLineElapsed | src/main.rs:110-112 | the decoder of the time field reads a report line back as `nanos / 10^9` seconds and `(nanos % 10^9) / 10^6` milliseconds (below 1000), together the elapsed time truncated to whole milliseconds |
| Dispatch.Execute | src/main.rs:106-117 | a request succeeds exactly when the network answers; success prints that response's report lines, a transport error is returned as the request failure |
| Dispatch.FirstFailureFrom | src/main.rs:90-93 | the index found is the first failing request at or after the start, or the end when none fails |
| Dispatch.RunSequential | src/main.rs:89-96 | requests run in work-list order; the run is `Ok` iff every request succeeds; otherwise it stops at the first failing request, returns its error, and issues no later request; the printed lines are those of the issued requests in order |
| Dispatch.Await | src/main.rs:80-88 | the counting loop stops with the target reached exactly when the counter is at least `tasks`; it stops early only on a closed channel (the last message received was `None`) or, blocked, after consuming every message; the counter never decreases |
| Dispatch.AwaitUnits | src/main.rs:76-88 | with unit messages, the loop ends after exactly `tasks` receipts with `completed == tasks` when that many arrive, else waits for ever having counted them all; it never passes `tasks` |
| Dispatch.AwaitClosed | src/main.rs:80-83 | a closed channel before the target ends the loop fatally, having counted the units received before it |
| Dispatch.CountCompletions | src/main.rs:80-88 | the `while completed < tasks` loop agrees with its specification; a reached target means `completed >= tasks`; with unit messages it stops at exactly `tasks` or waits for ever |
| Dispatch.Successes | src/main.rs:73-76 | the number of tasks that send a completion message is at most the number of requests, and equal exactly when every request succeeds |
| Dispatch.SpawnTasks | src/main.rs:69-77 | spawning one task per request prints, over all tasks, the report lines of exactly the successful requests, and queues one unit message per successful request |
| Dispatch.RunConcurrent | src/main.rs:65-88 | an empty work list panics at channel creation; otherwise every request runs, all report lines of successful requests are printed, and the run completes iff every request succeeds, else it hangs |
| Pour.Plan | src/main.rs:23-62 | `n == 0` is refused before any URL set is built; otherwise a target-set failure is the run's failure, and a target set gives `|urls| * n` requests with entry `i` targeting `urls[i % |urls|]` |
| Pour.SingleUrlPlan | src/main.rs:46-62 | with no file and a parsable `--url`, the work list is that URL requested `n` times |
| Pour.Run | src/main.rs:19-97 | with standard output taken to be writable: `n == 0` and target-set failures end the run before any request; sequential mode issues requests up to and including the first failure and completes iff all succeed; concurrent mode issues all requests, completes iff all succeed and hangs otherwise; the output is the report lines of the successful issued requests; of the panics the model covers, a run ends in one only on a zero count or an empty concurrent work list, and then sends no request |

## Left out

- The HTTP client, the HTTPS connector and TLS, and the request itself are not modelled. The outcome of each request is the input `net`.
- Writing a report line is taken to succeed. `println!` (src/main.rs:112, 114) panics when standard output cannot be written. In sequential mode `main` then panics after the request was sent; in concurrent mode the task sends no completion and the run hangs although every request succeeded. `HttpsConnector::new` panicking on a TLS set-up failure is not modelled either.
- The tokio runtime, `tokio::spawn` and the channel are not modelled as concurrency. The spawned tasks are modelled in spawn order. Only the multiset of their output and the number of completion messages are kept.
- Dispatch.RunConcurrent: states the printed lines only as a multiset, because lines of different tasks interleave in completion order. The panic message of a failed task, written to standard error, is not modelled.
- Wall-clock measurement with `Instant` is not modelled. The elapsed time is an input in whole nanoseconds.
- Reading the file and parsing the command line are not modelled. The file contents and option values are inputs.
- URI parsing is a foreign library and becomes the parameter `parse`. A URI carries the text its `Display` renders. The round trip from string to URI and back is not modelled.
- The text of `StatusCode`'s `Display` (code and reason phrase) is an opaque string carried by the status.
- Building a `Request` from a parsed URI is treated as infallible, so `expect("Failed building request")` never fires.
- Integers are unbounded. The overflow of `url_set_len * opt.n` and of `completed += v` in `usize` is not modelled, and neither is tokio's upper limit on channel capacity.
- Error messages quote their argument in plain double quotes. The escaping done by `{:?}` and anyhow's "Caused by" rendering are not modelled.
- The `timeout` and `verbose` options are not modelled. The source parses them and never uses them.
