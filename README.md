# Slack incoming-webhook client, modelled in Dafny

This project models the `notify` package's Slack client (`slack.go`). The client
builds a `SlackMessage` from a caller's request and posts it to an incoming-webhook
URL. A message may carry one coloured `Attachment` stamped with the current Unix time.
The model has three parts:

- `Decimal.dfy` renders the attachment timestamp as `strconv.FormatInt(t, 10)` does.
  It also gives the parse that reads the rendering back, and proves that the two
  are inverse.
- `Messages.dfy` holds the `SlackMessage`, `Attachment`, `SimpleSlackRequest` and
  `SlackJobNotification` records as datatypes, with an empty string, `0` or `[]`
  for an unset field. It models the pure builders behind `SendSlackNotification`,
  `SendJobNotification` and `funcName`. It also gives the ordered list of JSON keys
  that the `omitempty` tags leave on the wire, and proves which keys each kind of
  notification carries.
- `Client.dfy` models `SlackClient` as a class with mutable fields. Its
  `SendHTTPRequest` method follows `sendHTTPRequest` stage by stage: marshal, build
  the request, default the timeout in place, call the transport, read the body, and
  compare the body. Each external stage's outcome is an input (`StageOutcomes`). A
  ghost field `requests` records the messages handed to the transport. A reference
  specification defines the result as the first failing stage over the fixed
  `Pipeline` of stages. Lemmas prove the error ordering, which stages run, and when
  `TimeOut` changes.

On a response body other than the success marker, the code (slack.go:157-158)
returns `err`, which is nil there because the body read succeeded; the model follows
the code. `Client.NilIffAllSucceed` proves that the result is nil whenever
every stage succeeds, whatever the body says. The success marker `ok` is not
declared in `slack.go`. It is an uninitialised constant `OkBody` here, and no proven
property depends on its value.

## Model

| member | source | states |
|---|---|---|
| `Decimal.FormatInt` | slack.go:90 | the rendering of a Unix time is never empty and starts with '-' exactly for negative times |
| `Decimal.ParseInt` | slack.go:90 | the parse-back partner of the rendering succeeds exactly on an optional sign followed by at least one digit |
| `Decimal.FormatIntParseRoundTrip` | slack.go:90 | parsing the `TS` rendering of any integer yields that integer |
| `Decimal.FormatIntCanonical` | slack.go:90 | the rendering is an optional '-' then only digits, with no leading zero and never "-0" |
| `Decimal.FormatIntOfParse` | slack.go:90 | every string of that canonical shape is the rendering of the value it parses to (the other direction of the round trip) |
| `Decimal.FormatIntInjective` | slack.go:90 | distinct Unix times give distinct timestamps |
| `Messages.AttachmentKeys` | slack.go:52-71 | under `omitempty` an attachment serialises with no keys exactly when it is the zero attachment |
| `Messages.MessageKeys` | slack.go:43-49 | the "attachments" key is present exactly when the message has attachments |
| `Messages.SimpleMessage` | slack.go:76-81 | the plain message has no attachments |
| `Messages.SimpleMessageFields` | slack.go:75-81 | text and icon come from the request, username and channel from the client; the wire keys are those four when set, never "attachments" |
| `Messages.JobAttachment` | slack.go:87-91 | colour and text come from the job's colour and details, the timestamp is the base-10 rendering of the supplied Unix time (canonical, and parsing back to it), and every other field is unset |
| `Messages.JobMessage` | slack.go:92-98 | a job message carries exactly one attachment |
| `Messages.JobMessageFields` | slack.go:86-98 | one attachment with the job's colour and details and the canonical rendering of `now` as timestamp, which parses back to `now`, all other attachment fields unset; message text and icon from the job, username and channel from the client |
| `Messages.JobMessageKeys` | slack.go:86-98 | on the wire a job message always has "attachments" and its attachment always has "ts"; "color" and "text" appear exactly when the job sets them, in field order |
| `Messages.SeverityJob` | slack.go:117-126 | the notification built by funcName has an empty top-level text |
| `Messages.SeverityJobIcon` | slack.go:117-126 | colour and details pass through; the icon is ":hammer_and_wrench" with no options and the first option otherwise |
| `Messages.SeverityJobLaterOptionsIgnored` | slack.go:118-121 | options after the first do not change the notification |
| `Messages.SeverityMessageKeys` | slack.go:103-126 | a danger, good or warning notification has no top-level "text" key, has "color" and "ts" in its attachment, has "text" there exactly when the message is not empty, and has "icon_emoji" unless the override given is empty |
| `Client.RunLength` | slack.go:131-160 | the number of stages run: every stage but the last one run succeeded, and the last one failed unless the run reached the end |
| `Client.StagesRun` | slack.go:131-160 | the stages run are a non-empty prefix of marshal, build request, transport, read body, compare body |
| `Client.FirstErrorIsLastRun` | slack.go:131-152 | the result is the error of the last stage run, and it is nil exactly when no stage fails |
| `Client.OutcomeOrder` | slack.go:131-152 | the result is the marshal error, else the request-construction error, else the transport error, else the body-read error, else nil |
| `Client.StageRunsIff` | slack.go:131-152 | a stage runs exactly when every earlier stage succeeded, so no stage is attempted after a failure |
| `Client.TransportRunsIff` | slack.go:131-147 | the transport is invoked exactly when marshalling and building the request both succeeded |
| `Client.NilIffAllSucceed` | slack.go:149-160 | the result is nil exactly when all four fallible stages succeed, and the response body never changes the result |
| `Client.DefaultedTimeout` | slack.go:140-142 | a zero timeout becomes the 5-second default and a non-zero timeout is kept, so the result is never zero |
| `Client.AfterSendTimeout` | slack.go:140-142 | a send changes no field but `TimeOut`; it changes it only from zero to the 5-second default, and only when the request was built; a later send leaves it unchanged |
| `Client.SlackClient.constructor` | slack.go:20-26 | a client holds the given URL, username, channel and timeout, and nothing has been sent |
| `Client.SlackClient.SendHTTPRequest` | slack.go:130-161 | returns the reference result, runs exactly the reference stages, defaults `TimeOut` in place only once the request is built, and hands the message to the transport exactly then |
| `Client.SlackClient.SendSlackNotification` | slack.go:75-83 | sends the plain message built from the request and the client's username and channel |
| `Client.SlackClient.SendJobNotification` | slack.go:86-100 | sends the one-attachment job message stamped with the supplied Unix time |
| `Client.SlackClient.FuncName` | slack.go:117-128 | sends the job notification for the given colour, message and icon options |
| `Client.SlackClient.SendError` | slack.go:103-105 | sends a "danger" notification whose details are the message |
| `Client.SlackClient.SendInfo` | slack.go:108-110 | sends a "good" notification whose details are the message |
| `Client.SlackClient.SendWarning` | slack.go:113-115 | sends a "warning" notification whose details are the message |

## Left out

- JSON encoding by `json.Marshal` (slack.go:131) is not modelled as text, escaping included. The model keeps only which keys `omitempty` leaves, in field order. A marshal failure is an input.
- `retryablehttp.NewRequest`, its URL validation and the `Content-Type` header (slack.go:135-139) are not modelled. They are a foreign library, so only their success or error is an input.
- The transport's `Do`, its retry and backoff policy, and the network exchange (slack.go:144) are not modelled. The client's `client` field is therefore absent, and the transport's outcome is an input.
- `ioutil.ReadAll` and the deferred `resp.Body.Close()` (slack.go:149-155) are I/O. The read's body or error is an input, and closing is not modelled.
- `time.Now()` (slack.go:90) is a clock read. The Unix time is a parameter `now`, so no property relates the stamp to the wall-clock time of the call.
- The 64-bit width of `int64` Unix times and of `time.Duration` is not modelled. Both are unbounded integers. Formatting and the timeout default do not depend on the width.
- `Decimal.ParseInt` does not reject values outside the 64-bit range, as `strconv.ParseInt` would. It is used only to read back renderings of given integers.
- The value of the success marker `ok` is not modelled, because it is not declared in `slack.go`. The result does not depend on it.
- The unsynchronised write to `TimeOut` under concurrent use is not modelled. The model is single-threaded.
- The code never applies `TimeOut` to the transport, and the model does not either. Only the field write is modelled.
