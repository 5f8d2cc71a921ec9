/** The SlackClient and its delivery routine sendHTTPRequest: a fixed sequence of
    fallible stages (marshal, build the request, send it through the transport, read the
    body, compare the body), each returning early on error, with the timeout defaulted
    in place on the way. What the external stages do is not modelled; their outcomes
    are given as a StageOutcomes value. */
module Client {
  import opened Decimal
  import opened Messages

  /** A Go error value; `None` of an `Option<Error>` stands for nil. */
  datatype Error = Error(message: string)

  datatype Result<+T> = Ok(value: T) | Err(error: Error)

  /** The outcomes of the external stages of one send: json.Marshal, building the POST
      request, the transport's Do, and reading the response body. */
  datatype StageOutcomes = StageOutcomes(
    marshal: Option<Error>,
    newRequest: Option<Error>,
    transport: Option<Error>,
    read: Result<string>)

  datatype Stage = Marshal | NewRequest | Transport | ReadBody | CompareBody

  /** The stages of sendHTTPRequest in the order the code runs them. */
  const Pipeline: seq<Stage> := [Marshal, NewRequest, Transport, ReadBody, CompareBody]

  /** time.Duration counts nanoseconds. */
  const Second: int := 1_000_000_000
  const DefaultSlackTimeout: int := 5 * Second

  /** The success marker the response body is compared with. Its value is not part of
      this model, and no result below depends on it. */
  const OkBody: string

  /** The error a stage ends with; the body comparison never produces one. */
  function StageError(o: StageOutcomes, s: Stage): Option<Error> {
    match s
    case Marshal => o.marshal
    case NewRequest => o.newRequest
    case Transport => o.transport
    case ReadBody => if o.read.Err? then Some(o.read.error) else None
    case CompareBody => None
  }

  predicate Succeeds(o: StageOutcomes, s: Stage) {
    StageError(o, s).None?
  }

  /** How many of `stages` run when each is attempted only after all before it succeeded:
      the successful prefix and the first failing stage. */
  function RunLength(o: StageOutcomes, stages: seq<Stage>): (n: nat)
    ensures n <= |stages|
    ensures stages != [] ==> n >= 1
    ensures forall j :: 0 <= j < n - 1 ==> Succeeds(o, stages[j])
    ensures n < |stages| ==> !Succeeds(o, stages[n - 1])
    decreases |stages|
  {
    if stages == [] then 0
    else if !Succeeds(o, stages[0]) then 1
    else 1 + RunLength(o, stages[1..])
  }

  /** The error of the first failing stage, or None when none fails. */
  function FirstError(o: StageOutcomes, stages: seq<Stage>): (r: Option<Error>)
    decreases |stages|
  {
    if stages == [] then None
    else if !Succeeds(o, stages[0]) then StageError(o, stages[0])
    else FirstError(o, stages[1..])
  }

  /** The stages one send runs, in order. */
  function StagesRun(o: StageOutcomes): (ran: seq<Stage>)
    ensures 1 <= |ran| <= |Pipeline| && ran == Pipeline[..|ran|]
  {
    Pipeline[..RunLength(o, Pipeline)]
  }

  /** What sendHTTPRequest returns. */
  function Outcome(o: StageOutcomes): Option<Error> {
    FirstError(o, Pipeline)
  }

  /** The error of the first failing stage is the error of the last stage run, and
      nothing fails when the run reaches the end. */
  lemma {:induction false} FirstErrorIsLastRun(o: StageOutcomes, stages: seq<Stage>)
    ensures var n := RunLength(o, stages);
      FirstError(o, stages) == (if n == 0 then None else StageError(o, stages[n - 1]))
    ensures FirstError(o, stages).None? <==> forall j :: 0 <= j < |stages| ==> Succeeds(o, stages[j])
    decreases |stages|
  {
    if stages != [] && Succeeds(o, stages[0]) {
      FirstErrorIsLastRun(o, stages[1..]);
      assert forall j :: 1 <= j < |stages| ==> stages[j] == stages[1..][j - 1];
    }
  }

  /** Error ordering: the result is the marshal error, else the request-construction
      error, else the transport error, else the body-read error, else nil. */
  lemma OutcomeOrder(o: StageOutcomes)
    ensures Outcome(o) ==
      if o.marshal.Some? then o.marshal
      else if o.newRequest.Some? then o.newRequest
      else if o.transport.Some? then o.transport
      else if o.read.Err? then Some(o.read.error)
      else None
  {
  }

  /** A stage runs exactly when every stage before it succeeded; in particular the
      transport is never invoked once marshalling or building the request failed. */
  lemma StageRunsIff(o: StageOutcomes, i: nat)
    requires i < |Pipeline|
    ensures Pipeline[i] in StagesRun(o) <==> forall j :: 0 <= j < i ==> Succeeds(o, Pipeline[j])
  {
  }

  /** The transport runs, and the timeout is defaulted, exactly when marshalling and
      building the request both succeeded. */
  predicate ReachesTransport(o: StageOutcomes) {
    o.marshal.None? && o.newRequest.None?
  }

  lemma TransportRunsIff(o: StageOutcomes)
    ensures Transport in StagesRun(o) <==> ReachesTransport(o)
  {
  }

  /** When every stage succeeds the result is nil, whatever the body says: on a body
      that differs from the success marker the code returns the read error, which is nil. */
  lemma NilIffAllSucceed(o: StageOutcomes)
    ensures Outcome(o).None? <==>
      o.marshal.None? && o.newRequest.None? && o.transport.None? && o.read.Ok?
    ensures o.read.Ok? ==> forall body :: Outcome(o.(read := Ok(body))) == Outcome(o)
  {
  }

  /** The client's configuration as a value. */
  datatype ClientState = ClientState(webHookURL: string, userName: string, channel: string, timeOut: int)

  /** The timeout after the lazy default: zero becomes the default, anything else stays. */
  function DefaultedTimeout(t: int): (r: int)
    ensures r != 0
    ensures t == 0 ==> r == DefaultSlackTimeout
    ensures t != 0 ==> r == t
  {
    if t == 0 then DefaultSlackTimeout else t
  }

  /** The configuration after one send with outcomes `o`. */
  function AfterSend(s: ClientState, o: StageOutcomes): ClientState {
    if ReachesTransport(o) then s.(timeOut := DefaultedTimeout(s.timeOut)) else s
  }

  /** A send changes nothing but the timeout, changes it only from zero to the default,
      and a second send never changes it again. */
  lemma AfterSendTimeout(s: ClientState, o: StageOutcomes, o': StageOutcomes)
    ensures AfterSend(s, o).(timeOut := s.timeOut) == s
    ensures AfterSend(s, o).timeOut != s.timeOut <==> s.timeOut == 0 && ReachesTransport(o)
    ensures AfterSend(s, o).timeOut != s.timeOut ==> AfterSend(s, o).timeOut == DefaultSlackTimeout
    ensures ReachesTransport(o) ==> AfterSend(AfterSend(s, o), o') == AfterSend(s, o)
  {
  }

  class SlackClient {
    var WebHookURL: string
    var UserName: string
    var Channel: string
    var TimeOut: int
    /** The messages handed to the transport so far, in order. */
    ghost var requests: seq<SlackMessage>

    function State(): ClientState
      reads this
    {
      ClientState(WebHookURL, UserName, Channel, TimeOut)
    }

    constructor (webHookURL: string, userName: string, channel: string, timeOut: int)
      ensures State() == ClientState(webHookURL, userName, channel, timeOut)
      ensures requests == []
    {
      WebHookURL, UserName, Channel, TimeOut := webHookURL, userName, channel, timeOut;
      requests := [];
    }

    /** sendHTTPRequest: runs the stages in order, returning the first error; the
        timeout is defaulted only once the request has been built. */
    method SendHTTPRequest(msg: SlackMessage, o: StageOutcomes) returns (err: Option<Error>, ghost ran: seq<Stage>)
      modifies this
      ensures err == Outcome(o) && ran == StagesRun(o)
      ensures State() == AfterSend(old(State()), o)
      ensures requests == old(requests) + (if ReachesTransport(o) then [msg] else [])
    {
      OutcomeOrder(o);
      TransportRunsIff(o);
      ran := [Marshal];
      err := o.marshal;
      if err.Some? {
        return;
      }
      ran := ran + [NewRequest];
      err := o.newRequest;
      if err.Some? {
        return;
      }
      if TimeOut == 0 {
        TimeOut := DefaultSlackTimeout;
      }
      ran := ran + [Transport];
      requests := requests + [msg];
      err := o.transport;
      if err.Some? {
        return;
      }
      ran := ran + [ReadBody];
      var buf: string;
      if o.read.Err? {
        err := Some(o.read.error);
        return;
      }
      buf, err := o.read.value, None;
      ran := ran + [CompareBody];
      if buf != OkBody {
        return;
      }
      err := None;
    }

    /** SendSlackNotification: posts the request's text and icon under the client's
        username and channel, with no attachments. */
    method SendSlackNotification(sr: SimpleSlackRequest, o: StageOutcomes) returns (err: Option<Error>)
      modifies this
      ensures err == Outcome(o)
      ensures State() == AfterSend(old(State()), o)
      ensures requests == old(requests) +
        (if ReachesTransport(o) then [SimpleMessage(old(UserName), old(Channel), sr)] else [])
    {
      var slackRequest := SimpleMessage(UserName, Channel, sr);
      ghost var ran;
      err, ran := SendHTTPRequest(slackRequest, o);
    }

    /** SendJobNotification: posts one attachment stamped with `now` (Unix seconds). */
    method SendJobNotification(job: SlackJobNotification, now: int, o: StageOutcomes) returns (err: Option<Error>)
      modifies this
      ensures err == Outcome(o)
      ensures State() == AfterSend(old(State()), o)
      ensures requests == old(requests) +
        (if ReachesTransport(o) then [JobMessage(old(UserName), old(Channel), job, now)] else [])
    {
      var slackRequest := JobMessage(UserName, Channel, job, now);
      ghost var ran;
      err, ran := SendHTTPRequest(slackRequest, o);
    }

    /** funcName: a job notification in the given colour with the message as details,
        the first option (if any) as icon and no top-level text. */
    method FuncName(color: string, message: string, options: seq<string>, now: int, o: StageOutcomes)
      returns (err: Option<Error>)
      modifies this
      ensures err == Outcome(o)
      ensures State() == AfterSend(old(State()), o)
      ensures requests == old(requests) +
        (if ReachesTransport(o)
         then [JobMessage(old(UserName), old(Channel), SeverityJob(color, message, options), now)]
         else [])
    {
      var emoji := DefaultIcon;
      if |options| > 0 {
        emoji := options[0];
      }
      var sjn := SlackJobNotification(Color := color, IconEmoji := emoji, Details := message, Text := "");
      err := SendJobNotification(sjn, now, o);
    }

    method SendError(message: string, options: seq<string>, now: int, o: StageOutcomes) returns (err: Option<Error>)
      modifies this
      ensures err == Outcome(o)
      ensures State() == AfterSend(old(State()), o)
      ensures requests == old(requests) +
        (if ReachesTransport(o)
         then [JobMessage(old(UserName), old(Channel), SeverityJob(DangerColor, message, options), now)]
         else [])
    {
      err := FuncName(DangerColor, message, options, now, o);
    }

    method SendInfo(message: string, options: seq<string>, now: int, o: StageOutcomes) returns (err: Option<Error>)
      modifies this
      ensures err == Outcome(o)
      ensures State() == AfterSend(old(State()), o)
      ensures requests == old(requests) +
        (if ReachesTransport(o)
         then [JobMessage(old(UserName), old(Channel), SeverityJob(GoodColor, message, options), now)]
         else [])
    {
      err := FuncName(GoodColor, message, options, now, o);
    }

    method SendWarning(message: string, options: seq<string>, now: int, o: StageOutcomes) returns (err: Option<Error>)
      modifies this
      ensures err == Outcome(o)
      ensures State() == AfterSend(old(State()), o)
      ensures requests == old(requests) +
        (if ReachesTransport(o)
         then [JobMessage(old(UserName), old(Channel), SeverityJob(WarningColor, message, options), now)]
         else [])
    {
      err := FuncName(WarningColor, message, options, now, o);
    }
  }
}
