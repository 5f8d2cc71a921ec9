/** The webhook payload (SlackMessage with its Attachments) and the pure builders that
    shape it from the caller's request and the client's configuration. An empty string,
    a zero integer or an empty sequence stands for an unset field, as in the Go structs. */
module Messages {
  import opened Decimal

  datatype Attachment = Attachment(
    Color: string,
    Fallback: string,
    CallbackID: string,
    ID: int,
    AuthorID: string,
    AuthorName: string,
    AuthorSubname: string,
    AuthorLink: string,
    AuthorIcon: string,
    Title: string,
    TitleLink: string,
    Pretext: string,
    Text: string,
    ImageURL: string,
    ThumbURL: string,
    MarkdownIn: seq<string>,
    TS: string)

  datatype SlackMessage = SlackMessage(
    Username: string,
    IconEmoji: string,
    Channel: string,
    Text: string,
    Attachments: seq<Attachment>)

  datatype SimpleSlackRequest = SimpleSlackRequest(Text: string, IconEmoji: string)

  datatype SlackJobNotification = SlackJobNotification(
    Color: string,
    IconEmoji: string,
    Details: string,
    Text: string)

  /** The Go zero value of Attachment: every field unset. */
  const ZeroAttachment := Attachment("", "", "", 0, "", "", "", "", "", "", "", "", "", "", "", [], "")

  /** The icon used when the caller gives no override (written without a closing colon). */
  const DefaultIcon := ":hammer_and_wrench"

  const DangerColor := "danger"
  const GoodColor := "good"
  const WarningColor := "warning"

  /** The JSON keys an attachment is serialised with, in field order: `omitempty`
      drops every unset field. */
  function AttachmentKeys(a: Attachment): (keys: seq<string>)
    ensures a == ZeroAttachment <==> keys == []
  {
    (if a.Color != "" then ["color"] else []) +
    (if a.Fallback != "" then ["fallback"] else []) +
    (if a.CallbackID != "" then ["callback_id"] else []) +
    (if a.ID != 0 then ["id"] else []) +
    (if a.AuthorID != "" then ["author_id"] else []) +
    (if a.AuthorName != "" then ["author_name"] else []) +
    (if a.AuthorSubname != "" then ["author_subname"] else []) +
    (if a.AuthorLink != "" then ["author_link"] else []) +
    (if a.AuthorIcon != "" then ["author_icon"] else []) +
    (if a.Title != "" then ["title"] else []) +
    (if a.TitleLink != "" then ["title_link"] else []) +
    (if a.Pretext != "" then ["pretext"] else []) +
    (if a.Text != "" then ["text"] else []) +
    (if a.ImageURL != "" then ["image_url"] else []) +
    (if a.ThumbURL != "" then ["thumb_url"] else []) +
    (if a.MarkdownIn != [] then ["mrkdwn_in"] else []) +
    (if a.TS != "" then ["ts"] else [])
  }

  /** The JSON keys of the top-level message object, in field order, under `omitempty`. */
  function MessageKeys(m: SlackMessage): (keys: seq<string>)
    ensures "attachments" in keys <==> |m.Attachments| > 0
  {
    (if m.Username != "" then ["username"] else []) +
    (if m.IconEmoji != "" then ["icon_emoji"] else []) +
    (if m.Channel != "" then ["channel"] else []) +
    (if m.Text != "" then ["text"] else []) +
    (if m.Attachments != [] then ["attachments"] else [])
  }

  /** The message SendSlackNotification posts: the request's text and icon, the client's
      username and channel, and no attachments. */
  function SimpleMessage(userName: string, channel: string, sr: SimpleSlackRequest): (m: SlackMessage)
    ensures m.Attachments == []
  {
    SlackMessage(Username := userName, IconEmoji := sr.IconEmoji, Channel := channel,
                 Text := sr.Text, Attachments := [])
  }

  /** The one attachment of a job notification: colour and details from the job, the
      timestamp rendered from `now` (Unix seconds), every other field unset. */
  function JobAttachment(job: SlackJobNotification, now: int): (a: Attachment)
    ensures a.Color == job.Color && a.Text == job.Details && a.TS == FormatInt(now)
    ensures ParseInt(a.TS) == Some(now) && IsCanonicalDecimal(a.TS)
    ensures a.(Color := "", Text := "", TS := "") == ZeroAttachment
  {
    FormatIntParseRoundTrip(now);
    FormatIntCanonical(now);
    ZeroAttachment.(Color := job.Color, Text := job.Details, TS := FormatInt(now))
  }

  /** The message SendJobNotification posts. */
  function JobMessage(userName: string, channel: string, job: SlackJobNotification, now: int): (m: SlackMessage)
    ensures |m.Attachments| == 1
  {
    SlackMessage(Username := userName, IconEmoji := job.IconEmoji, Channel := channel,
                 Text := job.Text, Attachments := [JobAttachment(job, now)])
  }

  /** The notification funcName builds for a severity colour: the first option, when
      there is one, overrides the default icon; the top-level text stays empty. */
  function SeverityJob(color: string, message: string, options: seq<string>): (job: SlackJobNotification)
    ensures job.Text == ""
  {
    var emoji := if |options| > 0 then options[0] else DefaultIcon;
    SlackJobNotification(Color := color, IconEmoji := emoji, Details := message, Text := "")
  }

  /** SendSlackNotification: text and icon from the request, username and channel from
      the client, and no attachments, so no "attachments" key on the wire. */
  lemma SimpleMessageFields(userName: string, channel: string, sr: SimpleSlackRequest)
    ensures var m := SimpleMessage(userName, channel, sr);
      m.Text == sr.Text && m.IconEmoji == sr.IconEmoji &&
      m.Username == userName && m.Channel == channel &&
      MessageKeys(m) == (if userName != "" then ["username"] else []) +
                        (if sr.IconEmoji != "" then ["icon_emoji"] else []) +
                        (if channel != "" then ["channel"] else []) +
                        (if sr.Text != "" then ["text"] else [])
  {
  }

  /** SendJobNotification: exactly one attachment, carrying the job's colour and details
      and the rendering of `now` as timestamp (canonical, and parsing back to `now`), with every other attachment field unset;
      the message's own text and icon come from the job, username and channel from the client. */
  lemma JobMessageFields(userName: string, channel: string, job: SlackJobNotification, now: int)
    ensures var m := JobMessage(userName, channel, job, now);
      |m.Attachments| == 1 &&
      m.Attachments[0].Color == job.Color && m.Attachments[0].Text == job.Details &&
      m.Attachments[0].TS == FormatInt(now) &&
      ParseInt(m.Attachments[0].TS) == Some(now) && IsCanonicalDecimal(m.Attachments[0].TS) &&
      m.Attachments[0].(Color := "", Text := "", TS := "") == ZeroAttachment &&
      m.Text == job.Text && m.IconEmoji == job.IconEmoji &&
      m.Username == userName && m.Channel == channel
  {
    FormatIntCanonical(now);
  }

  /** On the wire, a job message always has "attachments", and its attachment always has
      "ts" (a rendering is never empty); "color" and "text" appear exactly when the job sets them. */
  lemma JobMessageKeys(userName: string, channel: string, job: SlackJobNotification, now: int)
    ensures var m := JobMessage(userName, channel, job, now);
      "attachments" in MessageKeys(m) &&
      AttachmentKeys(m.Attachments[0]) ==
        (if job.Color != "" then ["color"] else []) +
        (if job.Details != "" then ["text"] else []) + ["ts"]
  {
  }

  /** funcName's icon choice: the default without options, otherwise the first option. */
  lemma SeverityJobIcon(color: string, message: string, options: seq<string>)
    ensures var job := SeverityJob(color, message, options);
      job.Color == color && job.Details == message && job.Text == "" &&
      job.IconEmoji == (if options == [] then DefaultIcon else options[0])
  {
  }

  /** Options after the first have no effect. */
  lemma SeverityJobLaterOptionsIgnored(color: string, message: string, options: seq<string>, more: seq<string>)
    requires |options| > 0
    ensures SeverityJob(color, message, options + more) == SeverityJob(color, message, options[..1])
  {
  }

  /** What a severity notification (SendError, SendInfo, SendWarning) puts on the wire:
      no top-level "text", an attachment with "color" and "ts", "text" in the attachment
      exactly when the message is not empty, and "icon_emoji" unless the override given is empty. */
  lemma SeverityMessageKeys(userName: string, channel: string, color: string, message: string,
                            options: seq<string>, now: int)
    requires color in {DangerColor, GoodColor, WarningColor}
    ensures var m := JobMessage(userName, channel, SeverityJob(color, message, options), now);
      "text" !in MessageKeys(m) &&
      ("icon_emoji" in MessageKeys(m) <==> options == [] || options[0] != "") &&
      AttachmentKeys(m.Attachments[0]) == ["color"] + (if message != "" then ["text"] else []) + ["ts"] &&
      m.Attachments[0].Color == color && m.Attachments[0].Text == message
  {
    JobMessageKeys(userName, channel, SeverityJob(color, message, options), now);
  }
}
