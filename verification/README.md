# telegram-notify, modelled in Dafny

telegram-notify wraps one command. It runs the command, and if the command
could not be started, exited non-zero, or `--success` is set, it reports the
outcome to a Telegram chat through the bot API. It logs in as the bot named by
`TELEGRAM_NOTIFY_TOKEN` and sends to `TELEGRAM_NOTIFY_CHAT_ID`. The report is
either one "Command error" message, or a summary followed by one message per
non-empty output stream, each sent as a reply to the summary. Once the summary
and all its dumps are delivered, the process exits with the command's own
status. After a "Command error" report it always ends through `log.Fatal`,
whether or not that report went out. A failed send or bot lookup also ends it
through `log.Fatal`. A negative `--limit` makes the first dump's slice
out of range once the summary is delivered: a runtime panic, which exits with
status 2 rather than `log.Fatal`'s 1.

The project models `main.go`. It covers these pieces:

- `runCommand`, which maps what happened to the child process to a status, the
  captured streams and an error (`runner.dfy`);
- the bot client, consisting of `request`'s interpretation of the JSON envelope,
  `newTelegram`, and the form `sendMessage` posts (`telegram.dfy`, `errors.dfy`);
- the HTML texts of the three kinds of message, each with a reader that takes the
  text apart again (`messages.dfy`, on top of `html.dfy`, `decimal.dfy` and
  `text.dfy`);
- the order of the sends: summary first, dumps as replies, stop at the first
  failure (`delivery.dfy`);
- the body of `main` from the moment the command has run: whether to notify, the
  environment checks, and which messages are sent and how the process ends
  (`notify.dfy`).

Modelling conventions:

- A Go string is a Dafny `string` in which each character stands for one byte.
- Captured output is a `seq<byte>`. `Text.AsText` is Go's `string(b)` conversion.
- A nil slice is the empty sequence.
- The bot API is a function from the index of a send and its form to the decoded
  reply.
- `log.Fatal(msg)` is `Fatal(msg)` and `os.Exit(n)` is `Exit(n)`. Returning from
  `main` is `Exit(0)`.
- The runtime panic of a negative `--limit` is `Panic`.

Four behaviours of `main.go` worth knowing, all kept by the model:

- **Signals.** The exit status is `ws.ExitStatus()` as the wait status reports it
  (main.go:116-117). The 128-plus-signal shell convention is not applied. An
  `*exec.ExitError` whose `Sys()` is not a `syscall.WaitStatus` leaves the
  status at 0.
- **No arguments.** With no positional arguments, `main` returns and the process
  exits 0 (main.go:143-145). It does not fail with a usage error.
- **The `--id` label.** The label is put into the HTML without escaping
  (main.go:172). Only the command, the elapsed time, the error and the stream
  contents are escaped. `Messages.Prefix` keeps this. The round-trip lemmas take
  the identifier as a given prefix and do not claim that it cannot inject markup.
- **Wrapper failures.** A missing variable, a failed bot lookup, a failed send
  and every launch failure end through `log.Fatal` (main.go:156, 161, 166, 181,
  183, 211, 222). Its status 1 need not differ from the command's own status.
  The one other way out is the runtime panic of a negative `--limit`
  (main.go:217), which exits with status 2.

## Model

| member | source | states |
|---|---|---|
| Runner.Invocation | main.go:99-108 | nothing is started for an empty argument list; otherwise the program is the first argument and the rest are its arguments, which together give back the argument list |
| Runner.RunCommand | main.go:98-124 | no arguments gives status 0, nil streams and "program not defined"; a start or copy failure gives the error with status 0 and nil streams; otherwise the streams are passed on as captured, and a non-zero status only comes from an exit error carrying that wait status (any other exit error reports 0) |
| Telegram.Request | main.go:45-72 | the call succeeds exactly when the body decoded and `ok` is true, and then yields the result; a failed POST or undecodable body is returned as that error; a not-ok reply gives "request failed" from which the description is read back, and the bare text when the description is empty |
| Telegram.NewTelegram | main.go:25-43 | connects exactly when getMe succeeds with a non-empty user name and keeps the token and that name; request errors are passed through, an empty name gives "failed to find bot username" |
| Telegram.SendForm | main.go:75-84 | the form always has chat_id, text and parse_mode=HTML; disable_notification=true is present exactly when asked; reply_to_message_id is present exactly for a non-negative target, holds its `%d` text and parses back to it; no other key |
| Telegram.SendMessage | main.go:74-96 | posts exactly that form and returns the reply's message id when the request succeeds, the request's error otherwise |
| Errors.Message | main.go:66-68 | the request-failure text gives back the remote description (empty for the bare "request failed"), and "program not defined" (main.go:100) and "failed to find bot username" (main.go:38) are never read as request failures |
| Decimal.FormatInt | main.go:204 | `%d` gives digits with a leading minus exactly for negative numbers and no leading zero, which parse back to the same integer |
| Decimal.FormatIntInjective | main.go:83 | different integers never give the same `%d` text, so a reply target is never confused with another |
| Html.Escape | main.go:177-179 | `html.EscapeString` never shortens its input, leaves no `<`, `>`, `'` or `"` in it, changes nothing in text without special characters, and is undone by decoding the five entities |
| Html.EscapeOpensEntities | main.go:177-179 | every `&` that escaping leaves starts one of the five entities, so the output holds no other character reference |
| Html.EscapeInjective | main.go:202-203 | different texts escape differently |
| Text.Join | main.go:206 | `strings.Join`; its results for the streams line are stated by Notify.StreamsLineNames and Messages.ReadStreamsRoundTrip |
| Text.AsText | main.go:217 | `string(b)` keeps the length and turns each byte into the character with the same code |
| Text.AsTextInjective | main.go:219 | different byte streams give different texts |
| Messages.Prefix | main.go:170-173 | the `--id` label, inserted unescaped; the round-trip lemmas below read the messages back behind it |
| Messages.SummaryText | main.go:197-207 | the summary text; what it says is stated by Messages.SummaryRoundTrip |
| Messages.LaunchErrorText | main.go:175-179 | the "Command error" text; what it says is stated by Messages.LaunchErrorRoundTrip |
| Messages.StreamText | main.go:215-220 | the text of one stream dump; what it says is stated by Messages.StreamRoundTrip |
| Messages.Window | main.go:216-217 | the part of a stream that is sent is a suffix, of exactly `limit` bytes when the stream is longer and the whole stream otherwise |
| Messages.ReadVerdictRoundTrip | main.go:197-201 | the summary's first line reads back as success exactly when the status is 0 |
| Messages.ReadCodeRoundTrip | main.go:202 | the command line reads back as the quoted command, whatever characters it holds |
| Messages.ReadFieldRoundTrip | main.go:203 | an escaped labelled line reads back as its value |
| Messages.ReadExitRoundTrip | main.go:204 | the exit status line reads back as the status |
| Messages.ReadStreamsRoundTrip | main.go:205-207 | the streams line is absent when no stream is dumped and otherwise reads back as the comma-joined names |
| Messages.ReadBlockRoundTrip | main.go:217-219 | a `<pre>` block reads back as its marker and its escaped body |
| Messages.SummaryRoundTrip | main.go:170-207 | the whole summary reads back as verdict, command, elapsed time, status and streams line, for every command and elapsed text, so escaped text never shifts another field |
| Messages.LaunchErrorRoundTrip | main.go:170-179 | the "Command error" message reads back as the command, the elapsed time and the error text |
| Messages.StreamRoundTrip | main.go:215-220 | a stream dump reads back as the stream's name and either the whole stream or "..." and exactly its last `limit` bytes |
| Delivery.Dispatch | main.go:209-226 | the send sequence of a run; its properties are stated by the Delivery lemmas below |
| Delivery.SendAll | main.go:214-224 | the dumps are sent in order and stop at the first failed send; the attempts made form a prefix of the dumps; all are attempted unless one fails; exactly the last attempt failed, with the error returned |
| Delivery.SummaryGoesFirst | main.go:209-212 | the summary is the first message, with no reply target, and a failed summary sends nothing more and ends fatally with its error |
| Delivery.DumpsReplyToSummary | main.go:221 | after a delivered summary, message `i` is dump `i - 1` replying to the summary's id |
| Delivery.AllEquallySilent | main.go:209-221 | every message of the run has the same silence |
| Delivery.FirstFailureStops | main.go:210-223 | every message before the last was delivered, and a fatal end means the last one failed |
| Delivery.ExitOnlyWhenAllSent | main.go:209-226 | the process exits with the command's status only when every dump could be formatted and all planned messages were delivered |
| Delivery.UnformattableDumpPanics | main.go:216-217 | a dump that cannot be cut panics exactly when the summary was delivered, and nothing after the summary is sent |
| Notify.Streams | main.go:186-195 | the streams are stdout then stderr, each present exactly when non-empty |
| Notify.StreamsLineNames | main.go:186-206 | the streams line is "stdout, stderr", "stdout", "stderr" or absent, according to which streams produced output |
| Notify.StreamNamesPlain | main.go:190-194 | no stream name contains the colon that ends a name in a dump's title |
| Notify.Dumps | main.go:214-220 | one dump per stream in stream order; none can be formatted exactly when the limit is negative and there is a stream |
| Notify.DumpsReadBack | main.go:214-220 | every dump reads back as its stream's name and its whole or truncated contents |
| Notify.ShouldNotify | main.go:150 | whether a notification is due; stated by Notify.Report's first two ensures |
| Notify.ReportLaunchError | main.go:175-184 | the launch-error report is one audible, reply-less message under the logged bot name, and the run always ends fatally |
| Notify.ReportRun | main.go:186-226 | a run report sends the summary and at most one dump per stream under the logged bot name; it exits only with the command's status and only after one message per stream |
| Notify.Report | main.go:150-184 | a notification is attempted exactly when the command could not be run, exited non-zero, or `--success` is set, and otherwise the run exits 0 without sending; a missing token or chat id or a failed getMe ends the run fatally before any message; messages are sent only once connected; an exit always carries the command's status; a launch failure always ends fatally |
| Notify.Invoke | main.go:142-226 | with no positional arguments the program exits 0, sends nothing and runs nothing; messages are sent only for some argument once connected; an exit always carries runCommand's status |
| Notify.ConnectedRunReports | main.go:164-175 | a corollary of Report's definition: once connected, the run logs the bot's non-empty name and reports the launch error or the run through the configured chat |
| Notify.LaunchErrorSendsOneMessage | main.go:175-184 | a launch failure sends one audible, reply-less message that reads back as command, elapsed time and error, and the run always ends fatally: with the send's error when that failed, with "failed to run program" otherwise |
| Notify.SummaryDescribesRun | main.go:197-209 | the first message of a run is its summary and reads back as the run's verdict, command, elapsed time, status and dumped streams |
| Notify.SilentExactlyOnQuietSuccess | main.go:209-221 | every message is silent exactly when the command succeeded and `--success` is set, and the summary replies to nothing |
| Notify.DumpsReplyInOrder | main.go:209-221 | a message after the first is sent only once the summary was delivered, and message `i` is then the dump of stream `i - 1`, replying to the summary |
| Notify.NegativeLimitPanics | main.go:216-217 | a negative limit panics exactly when there is a stream and the summary was delivered, after sending only the summary |
| Notify.FailingCommandScenario | main.go:142-226 | running `false` without `--success` sends one audible summary and exits 1 |
| Notify.EchoScenario | main.go:142-226 | running `echo hi` with `--success` sends a silent summary and one silent stdout dump replying to it, then exits 0 |

## Left out

- Process spawning, the inheritance of stdin and the live tee of stdout and stderr to the console (main.go:108-111) are I/O. The model starts from the child's outcome and the bytes each stream captured.
- Decoding a wait status into an exit status is platform code. `ws.ExitStatus()` is an opaque integer, and no signal mapping is applied because the code applies none.
- The HTTP POST, the URL `https://api.telegram.org/bot<token>/<method>` and JSON decoding are not modelled. The bot API is a reply per send: unreachable, undecodable, or a decoded `{ok, description, result}` envelope.
- `fmt.Sprintf("%q", args)` and `Duration.String()` are inputs to the model (`quoted`, `elapsed`). The clock is not modelled.
- Flag parsing, `os.LookupEnv`, the log prefix and the `sending notification as` log line are left out. The flags and variables are inputs, and the logged bot name is recorded as the run's sender.
- The text of an error other than the wrapper's own (a start failure, a transport or decoding error) is an opaque string.
- Go's fixed-width `int` (message ids, statuses, `--limit`) is unbounded here. `os.Exit` truncating the status to the platform's exit-code range is not modelled either.
- `Html.Escape` covers `html.EscapeString`'s five characters. `Html.Unescape` decodes exactly the five entities that `Escape` produces; it is not Go's `html.UnescapeString`, which the program never calls.
- Telegram's own limit on message length is not modelled, because the program does not enforce it.
- The readers in `messages.dfy` take the `--id` label as a known prefix, because the label is not escaped.
- Messages.StreamRoundTrip: requires a stream name without a colon. Only "stdout" and "stderr" occur (Notify.StreamNamesPlain), so this excludes nothing the program sends.
