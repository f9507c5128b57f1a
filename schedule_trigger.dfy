/**
 * handleScheduleWebhookTrigger.ts: resolve the subscribers of an event and
 * send the schedule payload to each, each send with its own error handler.
 * The sends run concurrently in the source; here they are listed in
 * subscriber order, since no send reads or writes anything another uses.
 */
module ScheduleTrigger {
  import opened Wrappers
  import opened Platform
  import opened SchedulePayload

  /** A subscriber as the resolver returns it: its webhook record and secret. */
  datatype Subscriber = Subscriber(webhook: Webhook, secret: Option<string>)

  /** One settled send: the subscriber's URL and what its promise settled to
      before the `.catch` handler (a delivery record, or the error caught). */
  datatype Attempt = Attempt(subscriberUrl: string, outcome: Result<Delivery, SendError>)

  /** What one call of the handler did.  It always resolves: either the
      resolver failed and nothing was sent, or every send settled. */
  datatype HandlerRun = ResolverFailed(error: string) | Completed(attempts: seq<Attempt>)

  /** A line written to the error log. */
  datatype LogEntry =
    | WebhookFailed(eventTrigger: string, subscriberUrl: string, error: SendError)   // console.error in the catch
    | HandlerFailed(reason: string)                                                   // logger.error at the top

  /** The send for one subscriber, timestamped when it starts. */
  function SendTo(rt: Runtime, sub: Subscriber, eventTrigger: string, createdAt: string, webhookData: ScheduleData): (attempt: Attempt)
    ensures attempt.subscriberUrl == sub.webhook.subscriberUrl
    ensures attempt.outcome.Failure? && attempt.outcome.error.TemplateError? <==>
      Present(sub.webhook.payloadTemplate) && rt.compile(sub.webhook.payloadTemplate.value, ScheduleDataJson(webhookData)).Failure?
    ensures sub.webhook.subscriberUrl == "" ==> attempt.outcome.Failure?
  {
    Attempt(sub.webhook.subscriberUrl, SendSchedulePayload(rt, sub.secret, eventTrigger, createdAt, sub.webhook, webhookData))
  }

  /** `subscribers.map(send)` followed by `Promise.all`: one settled send per
      subscriber, in order, the i-th started with the clock's reading i.  The
      callback catches its own errors, so every element settles. */
  function FanOut(send: (Subscriber, string) -> Attempt, subs: seq<Subscriber>, clock: nat -> string, first: nat): (attempts: seq<Attempt>)
    ensures |attempts| == |subs|
    ensures forall i :: 0 <= i < |subs| ==> attempts[i] == send(subs[i], clock(first + i))
    decreases |subs|
  {
    if subs == [] then []
    else [send(subs[0], clock(first))] + FanOut(send, subs[1..], clock, first + 1)
  }

  /** `handleScheduleWebhookTrigger`.  `resolved` is what `getWebhooks` gave
      for the subscriber options, and `clock(i)` is the ISO time read for the
      i-th subscriber.  Each send uses that subscriber's secret and webhook
      and the shared trigger and data. */
  function HandleScheduleWebhookTrigger(rt: Runtime, resolved: Result<seq<Subscriber>, string>, eventTrigger: string,
                                        webhookData: ScheduleData, clock: nat -> string): (run: HandlerRun)
    ensures resolved.Failure? <==> run.ResolverFailed?
    ensures resolved.Failure? ==> run.error == resolved.error
    ensures resolved.Success? ==> |run.attempts| == |resolved.value|
    ensures resolved.Success? ==> forall i :: 0 <= i < |resolved.value| ==>
      run.attempts[i] == SendTo(rt, resolved.value[i], eventTrigger, clock(i), webhookData)
  {
    match resolved
    case Failure(e) => ResolverFailed(e)
    case Success(subs) =>
      Completed(FanOut((sub, createdAt) => SendTo(rt, sub, eventTrigger, createdAt, webhookData), subs, clock, 0))
  }

  /** How many sends failed. */
  function FailedCount(attempts: seq<Attempt>): (n: nat)
    ensures n <= |attempts|
    ensures n == 0 <==> forall i :: 0 <= i < |attempts| ==> attempts[i].outcome.Success?
  {
    if attempts == [] then 0
    else (if attempts[0].outcome.Failure? then 1 else 0) + FailedCount(attempts[1..])
  }

  /** The errors the caught sends log, in subscriber order: every failed send
      writes its own line, and nothing else does. */
  function FailureLog(eventTrigger: string, attempts: seq<Attempt>): (log: seq<LogEntry>)
    ensures |log| == FailedCount(attempts)
    ensures log == [] <==> forall i :: 0 <= i < |attempts| ==> attempts[i].outcome.Success?
    ensures forall k :: 0 <= k < |log| ==> log[k].WebhookFailed? && log[k].eventTrigger == eventTrigger
    ensures forall k :: 0 <= k < |log| ==>
      exists i :: 0 <= i < |attempts| && attempts[i].outcome == Failure(log[k].error) && attempts[i].subscriberUrl == log[k].subscriberUrl
  {
    if attempts == [] then []
    else
      var rest := FailureLog(eventTrigger, attempts[1..]);
      assert forall k :: 0 <= k < |rest| ==>
        exists i :: 0 <= i < |attempts| && attempts[i].outcome == Failure(rest[k].error) && attempts[i].subscriberUrl == rest[k].subscriberUrl
      by {
        forall k | 0 <= k < |rest|
          ensures exists i :: 0 <= i < |attempts| && attempts[i].outcome == Failure(rest[k].error) && attempts[i].subscriberUrl == rest[k].subscriberUrl
        {
          var j :| 0 <= j < |attempts[1..]| && attempts[1..][j].outcome == Failure(rest[k].error) && attempts[1..][j].subscriberUrl == rest[k].subscriberUrl;
          assert attempts[j + 1] == attempts[1..][j];
        }
      }
      if attempts[0].outcome.Success? then rest
      else
        var log := [WebhookFailed(eventTrigger, attempts[0].subscriberUrl, attempts[0].outcome.error)] + rest;
        assert forall k :: 1 <= k < |log| ==> log[k] == rest[k - 1];
        log
  }

  /** Adding one attempt at the end adds one to the count exactly when it failed. */
  lemma {:induction false} FailedCountSnoc(attempts: seq<Attempt>, i: nat)
    requires i < |attempts|
    ensures FailedCount(attempts[..i + 1]) == FailedCount(attempts[..i]) + (if attempts[i].outcome.Failure? then 1 else 0)
  {
    if i > 0 {
      assert attempts[..i + 1][1..] == attempts[1..][..i];
      assert attempts[..i][1..] == attempts[1..][..i - 1];
      FailedCountSnoc(attempts[1..], i - 1);
    }
  }

  /** The failures among the first i attempts are at most those among all. */
  lemma {:induction false} FailedCountPrefix(attempts: seq<Attempt>, i: nat)
    requires i <= |attempts|
    ensures FailedCount(attempts[..i]) <= FailedCount(attempts)
    decreases |attempts| - i
  {
    if i < |attempts| {
      FailedCountSnoc(attempts, i);
      FailedCountPrefix(attempts, i + 1);
    } else {
      assert attempts[..i] == attempts;
    }
  }

  /** The line of the i-th send, when it failed: its position in the log is
      the number of failures before it. */
  lemma {:induction false} FailedSendLine(eventTrigger: string, attempts: seq<Attempt>, i: nat)
    requires i < |attempts| && attempts[i].outcome.Failure?
    ensures FailedCount(attempts[..i]) < |FailureLog(eventTrigger, attempts)|
    ensures FailureLog(eventTrigger, attempts)[FailedCount(attempts[..i])] ==
      WebhookFailed(eventTrigger, attempts[i].subscriberUrl, attempts[i].outcome.error)
  {
    FailedCountSnoc(attempts, i);
    FailedCountPrefix(attempts, i + 1);
    if i == 0 {
      assert attempts[..0] == [];
    } else {
      FailedSendLine(eventTrigger, attempts[1..], i - 1);
      assert attempts[..i][1..] == attempts[1..][..i - 1];
      assert attempts[1..][i - 1] == attempts[i];
      var rest := FailureLog(eventTrigger, attempts[1..]);
      var k := FailedCount(attempts[1..][..i - 1]);
      if attempts[0].outcome.Failure? {
        assert FailedCount(attempts[..i]) == k + 1;
        assert FailureLog(eventTrigger, attempts)[k + 1] == rest[k];
      } else {
        assert FailedCount(attempts[..i]) == k;
      }
    }
  }

  /** Every failed send has its own line in the log, at the position given by
      the number of failures before it, carrying the event trigger, that
      send's URL and the error it was rejected with. */
  lemma FailedSendsAreLogged(eventTrigger: string, attempts: seq<Attempt>)
    ensures forall i :: 0 <= i < |attempts| && attempts[i].outcome.Failure? ==>
      FailedCount(attempts[..i]) < |FailureLog(eventTrigger, attempts)| &&
      FailureLog(eventTrigger, attempts)[FailedCount(attempts[..i])] ==
        WebhookFailed(eventTrigger, attempts[i].subscriberUrl, attempts[i].outcome.error)
    ensures forall i :: 0 <= i < |attempts| && attempts[i].outcome.Failure? ==>
      WebhookFailed(eventTrigger, attempts[i].subscriberUrl, attempts[i].outcome.error) in FailureLog(eventTrigger, attempts)
  {
    forall i | 0 <= i < |attempts| && attempts[i].outcome.Failure?
      ensures FailedCount(attempts[..i]) < |FailureLog(eventTrigger, attempts)|
      ensures FailureLog(eventTrigger, attempts)[FailedCount(attempts[..i])] ==
        WebhookFailed(eventTrigger, attempts[i].subscriberUrl, attempts[i].outcome.error)
    {
      FailedSendLine(eventTrigger, attempts, i);
    }
  }

  /** Everything one handler call logs. */
  function Log(eventTrigger: string, run: HandlerRun): (log: seq<LogEntry>)
    ensures run.ResolverFailed? ==> log == [HandlerFailed(run.error)]
    ensures run.Completed? ==> |log| == FailedCount(run.attempts)
    ensures run.Completed? ==> forall k :: 0 <= k < |log| ==> log[k].WebhookFailed? && log[k].eventTrigger == eventTrigger
  {
    match run
    case ResolverFailed(e) => [HandlerFailed(e)]
    case Completed(attempts) => FailureLog(eventTrigger, attempts)
  }

  /** A resolver failure is logged once and nothing is sent. */
  lemma ResolverFailureSendsNothing(rt: Runtime, error: string, eventTrigger: string, webhookData: ScheduleData, clock: nat -> string)
    ensures HandleScheduleWebhookTrigger(rt, Failure(error), eventTrigger, webhookData, clock) == ResolverFailed(error)
    ensures Log(eventTrigger, HandleScheduleWebhookTrigger(rt, Failure(error), eventTrigger, webhookData, clock)) == [HandlerFailed(error)]
  {
  }

  /** No subscribers: no send and no log line. */
  lemma NoSubscribersNoSends(rt: Runtime, eventTrigger: string, webhookData: ScheduleData, clock: nat -> string)
    ensures HandleScheduleWebhookTrigger(rt, Success([]), eventTrigger, webhookData, clock) == Completed([])
    ensures Log(eventTrigger, HandleScheduleWebhookTrigger(rt, Success([]), eventTrigger, webhookData, clock)) == []
  {
  }

  /** Failure isolation: whatever another subscriber is, and however its send
      ends, every other subscriber's send settles exactly as it would alone. */
  lemma FailureIsolation(rt: Runtime, subs: seq<Subscriber>, j: nat, other: Subscriber, eventTrigger: string,
                         webhookData: ScheduleData, clock: nat -> string)
    requires j < |subs|
    ensures var before := HandleScheduleWebhookTrigger(rt, Success(subs), eventTrigger, webhookData, clock);
            var after := HandleScheduleWebhookTrigger(rt, Success(subs[j := other]), eventTrigger, webhookData, clock);
            |after.attempts| == |before.attempts| &&
            forall i :: 0 <= i < |subs| && i != j ==> after.attempts[i] == before.attempts[i]
  {
  }

  /** A send that reaches the network uses that subscriber's own URL and
      secret, and its outcome is whatever fetch gives for that request. */
  lemma EachSendUsesItsSubscriber(rt: Runtime, subs: seq<Subscriber>, i: nat, eventTrigger: string,
                                  webhookData: ScheduleData, clock: nat -> string, rendered: Rendered, req: Request)
    requires i < |subs|
    requires RenderSchedulePayload(rt, eventTrigger, clock(i), subs[i].webhook.payloadTemplate, webhookData) == Success(rendered)
    requires BuildRequest(rt, subs[i].secret, subs[i].webhook.subscriberUrl, rendered.body, rendered.contentType) == Success(req)
    ensures var run := HandleScheduleWebhookTrigger(rt, Success(subs), eventTrigger, webhookData, clock);
            run.attempts[i].outcome == Settle(rt.fetch(req))
    ensures req.url == subs[i].webhook.subscriberUrl
    ensures Present(subs[i].secret) ==> Header(req, SignatureHeader) == Some(rt.hmacSha256Hex(subs[i].secret.value, req.body))
    ensures !Present(subs[i].secret) ==> Header(req, SignatureHeader) == Some(NoSecretSignature)
  {
  }

  /** The log holds one line per failed send, carrying the event trigger,
      that subscriber's URL and the error, and is empty exactly when every
      send succeeded. */
  lemma LogHasOneLinePerFailedSend(rt: Runtime, subs: seq<Subscriber>, eventTrigger: string, webhookData: ScheduleData,
                                   clock: nat -> string, run: HandlerRun)
    requires run == HandleScheduleWebhookTrigger(rt, Success(subs), eventTrigger, webhookData, clock)
    ensures Log(eventTrigger, run) == [] <==> forall i :: 0 <= i < |subs| ==> run.attempts[i].outcome.Success?
    ensures |Log(eventTrigger, run)| == FailedCount(run.attempts)
    ensures forall i :: 0 <= i < |subs| && run.attempts[i].outcome.Failure? ==>
      WebhookFailed(eventTrigger, subs[i].webhook.subscriberUrl, run.attempts[i].outcome.error) in Log(eventTrigger, run)
  {
    FailedSendsAreLogged(eventTrigger, run.attempts);
  }

  /** Every line of the log names the event trigger and the URL of a
      subscriber whose send failed with the error the line carries. */
  lemma LogNamesFailedSends(rt: Runtime, subs: seq<Subscriber>, eventTrigger: string, webhookData: ScheduleData,
                            clock: nat -> string, run: HandlerRun)
    requires run == HandleScheduleWebhookTrigger(rt, Success(subs), eventTrigger, webhookData, clock)
    ensures forall k :: 0 <= k < |Log(eventTrigger, run)| ==>
      var entry := Log(eventTrigger, run)[k];
      entry.WebhookFailed? && entry.eventTrigger == eventTrigger &&
      exists i :: 0 <= i < |subs| && entry.subscriberUrl == subs[i].webhook.subscriberUrl && run.attempts[i].outcome == Failure(entry.error)
  {
  }
}
