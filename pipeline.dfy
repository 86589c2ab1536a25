/** The background function's entry point (`accept`, `getTriggerData` and
    `sendMessageToBot` in PubSubChatFunction.java): decode the event, stop
    early for queued builds and builds without a trigger, look the trigger up,
    format the card and post it to the chat webhook. */
module Pipeline {
  import opened Wrappers
  import opened BuildEvent
  import opened BotMessage

  /** The event's data after Base64 and JSON decoding, or the failure of
      either decoder. */
  datatype Payload = Fields(fields: map<string, string>) | Malformed

  /** The Cloud Build API's answer to a trigger request: the trigger, or an
      I/O error (network, authorisation, trigger not found). */
  datatype TriggerResponse = Found(trigger: BuildTrigger) | RequestFailed

  /** The Cloud Build client: answers `projects.triggers.get(projectId, triggerId)`.
      The client refuses a null project id before any request is sent, so
      the service is only ever asked with both ids present. */
  type TriggerService = (string, string) -> TriggerResponse

  /** The HTTP client posting to the chat webhook: true when the webhook
      answers with a success status. */
  type Webhook = Message -> bool

  /** An attempted outbound call: a trigger request or a webhook post. It is
      recorded when it is issued, whether or not it then reaches the network. */
  datatype Call = Lookup(projectId: string, triggerId: string) | Dispatch(message: Message)

  /** Why an invocation aborts. Every one of them reaches the hosting platform
      as a thrown exception. */
  datatype Abort =
    | MalformedPayload                // Base64 or JSON decoding failed
    | NullStatus                      // the event has no status: the guard dereferences null
    | NullProjectId                   // the client refuses a null project id before sending
    | LookupFailed                    // the trigger request threw
    | FormatFailed(cause: FormatError) // the card could not be built
    | DispatchFailed                  // the webhook post threw

  /** How an invocation ends: silently by the guard, with the card delivered,
      or aborted. */
  datatype Outcome = Skipped | Delivered | Failed(reason: Abort)

  /** The calls an invocation makes, in order, and how it ends. */
  datatype Invocation = Invocation(calls: seq<Call>, outcome: Outcome)

  /** The guard of `accept`: `Success(true)` when the build is worth a card
      (past the queue and started by a trigger), `Success(false)` when the
      invocation returns early, and the null dereference when the status is
      missing. The status is tested first, so a missing status fails even
      when the trigger id is missing too. */
  function Guard(info: BuildInfo): (r: Result<bool, Abort>)
    ensures r.Failure? <==> info.status.None?
    ensures r.Failure? ==> r.error == NullStatus
    ensures r == Success(true) <==>
      info.status.Some? && info.status.value != "QUEUED" && info.triggerId.Some?
  {
    if info.status.None? then Failure(NullStatus)
    else if info.status.value == "QUEUED" || info.triggerId.None? then Success(false)
    else Success(true)
  }

  /** The guard read directly on the payload's keys. */
  lemma GuardOnPayload(fields: map<string, string>)
    ensures Guard(Decode(fields)).Failure? <==> "status" !in fields
    ensures Guard(Decode(fields)) == Success(true) <==>
      "status" in fields && fields["status"] != "QUEUED" && "buildTriggerId" in fields
  {
  }

  /** What `getTriggerData` returns when asked by `service`: no trigger and no
      request when the trigger id is null; the client's refusal when the
      project id is null; otherwise the trigger the one request finds, or the
      failure of that request. */
  function TriggerData(service: TriggerService, projectId: Option<string>, triggerId: Option<string>)
    : (r: Result<Option<BuildTrigger>, Abort>)
    ensures triggerId.None? ==> r == Success(None)
    ensures triggerId.Some? && projectId.None? ==> r == Failure(NullProjectId)
    ensures triggerId.Some? && projectId.Some? ==>
      match service(projectId.value, triggerId.value)
      case Found(t) => r == Success(Some(t))
      case RequestFailed => r == Failure(LookupFailed)
  {
    if triggerId.None? then Success(None)
    else if projectId.None? then Failure(NullProjectId)
    else match service(projectId.value, triggerId.value)
      case Found(t) => Success(Some(t))
      case RequestFailed => Failure(LookupFailed)
  }

  /** The calls `getTriggerData` makes: one request exactly when both ids
      are present. */
  function TriggerDataCalls(projectId: Option<string>, triggerId: Option<string>): (calls: seq<Call>)
    ensures |calls| <= 1
    ensures calls == [] <==> triggerId.None? || projectId.None?
    ensures calls != [] ==> calls[0] == Lookup(projectId.value, triggerId.value)
  {
    if triggerId.None? || projectId.None? then [] else [Lookup(projectId.value, triggerId.value)]
  }

  /** One invocation of `accept` on `payload`, against the given trigger
      service and webhook: the calls it makes and how it ends. */
  function Invoke(payload: Payload, service: TriggerService, webhook: Webhook): (r: Invocation)
    ensures |r.calls| <= 2
    ensures r.outcome == Delivered ==> |r.calls| == 2
    ensures |r.calls| == 2 ==> r.calls[0].Lookup? && r.calls[1].Dispatch? && WellFormed(r.calls[1].message)
    ensures |r.calls| == 2 ==>
      r.outcome == (if webhook(r.calls[1].message) then Delivered else Failed(DispatchFailed))
    ensures |r.calls| == 1 ==>
      && r.calls[0].Lookup?
      && (r.outcome == Failed(LookupFailed) || r.outcome == Failed(FormatFailed(NullTriggerTemplate)))
    ensures r.calls == [] ==> r.outcome != Delivered
  {
    match payload
    case Malformed => Invocation([], Failed(MalformedPayload))
    case Fields(fields) =>
      var info := Decode(fields);
      match Guard(info)
      case Failure(e) => Invocation([], Failed(e))
      case Success(proceed) =>
        if !proceed then Invocation([], Skipped)
        else
          var lookups := TriggerDataCalls(info.projectId, info.triggerId);
          match TriggerData(service, info.projectId, info.triggerId)
          case Failure(e) => Invocation(lookups, Failed(e))
          case Success(trigger) =>
            match BuildBotMessage(info, trigger)
            case Failure(e) => Invocation(lookups, Failed(FormatFailed(e)))
            case Success(message) =>
              Invocation(lookups + [Dispatch(message)],
                         if webhook(message) then Delivered else Failed(DispatchFailed))
  }

  /** A queued build makes no call at all and ends silently. */
  lemma QueuedIsSilent(fields: map<string, string>, service: TriggerService, webhook: Webhook)
    requires "status" in fields && fields["status"] == "QUEUED"
    ensures Invoke(Fields(fields), service, webhook) == Invocation([], Skipped)
  {
  }

  /** A build without a trigger id makes no call at all and ends silently. */
  lemma NoTriggerIsSilent(fields: map<string, string>, service: TriggerService, webhook: Webhook)
    requires "status" in fields && "buildTriggerId" !in fields
    ensures Invoke(Fields(fields), service, webhook) == Invocation([], Skipped)
  {
  }

  /** Past the guard, an event without a project id is refused by the client
      before any request goes out. Otherwise the first call is the one
      trigger request keyed on the event's project and trigger ids; the card
      is posted once, after it, exactly when the request found a trigger and
      the card could be built, and it is the card built for the event and
      that trigger. A trigger without a template aborts the invocation after
      the request, with nothing posted. */
  lemma LookupThenDispatch(fields: map<string, string>, service: TriggerService, webhook: Webhook)
    requires Guard(Decode(fields)) == Success(true)
    ensures var info := Decode(fields);
      var r := Invoke(Fields(fields), service, webhook);
      && (info.projectId.None? ==> r == Invocation([], Failed(NullProjectId)))
      && (info.projectId.Some? ==>
            var response := service(info.projectId.value, info.triggerId.value);
            && |r.calls| >= 1
            && r.calls[0] == Lookup(info.projectId.value, info.triggerId.value)
            && (|r.calls| == 2 <==>
                response.Found? && BuildBotMessage(info, Some(response.trigger)).Success?)
            && (|r.calls| == 2 ==>
                r.calls[1] == Dispatch(BuildBotMessage(info, Some(response.trigger)).value))
            && (response.Found? && response.trigger.triggerTemplate.None? ==>
                r == Invocation([Lookup(info.projectId.value, info.triggerId.value)],
                                Failed(FormatFailed(NullTriggerTemplate)))))
  {
  }

  /** A failed trigger request aborts the invocation before anything is posted. */
  lemma LookupFailureSuppressesDispatch(fields: map<string, string>, service: TriggerService, webhook: Webhook)
    requires Guard(Decode(fields)) == Success(true) && "projectId" in fields
    requires service(fields["projectId"], fields["buildTriggerId"]) == RequestFailed
    ensures Invoke(Fields(fields), service, webhook) ==
      Invocation([Lookup(fields["projectId"], fields["buildTriggerId"])], Failed(LookupFailed))
  {
  }

  /** An invocation makes no outbound call exactly when it stops at the
      decoder, at the guard, or at the client's check of the project id; it
      ends silently exactly when the guard stops it. */
  lemma SilentExactlyWhenStoppedEarly(payload: Payload, service: TriggerService, webhook: Webhook)
    ensures Invoke(payload, service, webhook).calls == [] <==>
      !(payload.Fields? && Guard(Decode(payload.fields)) == Success(true)
        && Decode(payload.fields).projectId.Some?)
    ensures Invoke(payload, service, webhook).outcome == Skipped <==>
      payload.Fields? && Guard(Decode(payload.fields)) == Success(false)
  {
  }

  /** A successful build with a trigger whose request answers with the
      trigger "Deploy" on branch "main" gets the card
      [p1, Deploy, main, SUCCESS, S, F]. */
  lemma SuccessfulBuildCard(service: TriggerService, webhook: Webhook)
    requires service("p1", "t1") == Found(BuildTrigger(Some("Deploy"), Some(TriggerTemplate(Some("main")))))
    ensures var fields := map["status" := "SUCCESS", "projectId" := "p1", "buildTriggerId" := "t1",
                              "startTime" := "S", "finishTime" := "F"];
      var r := Invoke(Fields(fields), service, webhook);
      && |r.calls| == 2
      && r.calls[0] == Lookup("p1", "t1")
      && r.calls[1].Dispatch?
      && WidgetsOf(r.calls[1].message) == [
           Widget("Project id", Some("p1")), Widget("Trigger Name", Some("Deploy")),
           Widget("Branch Name", Some("main")), Widget("Status", Some("SUCCESS")),
           Widget("Start Time", Some("S")), Widget("Finish Time", Some("F"))]
  {
  }

  /** Every post in a call log comes right after a trigger request, and every
      card posted has the bot's fixed shape. */
  ghost predicate OrderedCalls(calls: seq<Call>) {
    forall i :: 0 <= i < |calls| && calls[i].Dispatch? ==>
      0 < i && calls[i - 1].Lookup? && WellFormed(calls[i].message)
  }

  /** Invocations one after another keep the call log ordered. */
  lemma InvokeKeepsCallsOrdered(log: seq<Call>, payload: Payload, service: TriggerService, webhook: Webhook)
    requires OrderedCalls(log)
    ensures OrderedCalls(log + Invoke(payload, service, webhook).calls)
  {
  }

  /** The deployed function: the trigger service and the webhook are the
      client handles built once per process and never changed; `calls`
      records every outbound call attempted so far. */
  class ChatFunction {
    const service: TriggerService
    const webhook: Webhook
    ghost var calls: seq<Call>

    ghost predicate Valid()
      reads this
    {
      OrderedCalls(calls)
    }

    constructor(service: TriggerService, webhook: Webhook)
      ensures this.service == service && this.webhook == webhook
      ensures Valid() && calls == []
    {
      this.service := service;
      this.webhook := webhook;
      calls := [];
    }

    /** Asks the trigger service for the trigger, only when there is a trigger id. */
    method GetTriggerData(projectId: Option<string>, triggerId: Option<string>)
      returns (r: Result<Option<BuildTrigger>, Abort>)
      requires Valid()
      modifies this
      ensures Valid()
      ensures r == TriggerData(service, projectId, triggerId)
      ensures calls == old(calls) + TriggerDataCalls(projectId, triggerId)
    {
      if triggerId == None {
        return Success(None);
      }
      if projectId == None {
        return Failure(NullProjectId);
      }
      calls := calls + [Lookup(projectId.value, triggerId.value)];
      var response := service(projectId.value, triggerId.value);
      if response.RequestFailed? {
        return Failure(LookupFailed);
      }
      return Success(Some(response.trigger));
    }

    /** Posts the card to the webhook. `accept` calls it only with a card it
        has just built, right after the trigger request. */
    method SendMessageToBot(message: Message) returns (ok: bool)
      requires Valid() && |calls| > 0 && calls[|calls| - 1].Lookup? && WellFormed(message)
      modifies this
      ensures Valid()
      ensures ok == webhook(message)
      ensures calls == old(calls) + [Dispatch(message)]
    {
      calls := calls + [Dispatch(message)];
      ok := webhook(message);
    }

    /** Handles one event: makes the calls `Invoke` prescribes, in that order,
        and ends as it says. */
    method Accept(payload: Payload) returns (outcome: Outcome)
      requires Valid()
      modifies this
      ensures Valid()
      ensures calls == old(calls) + Invoke(payload, service, webhook).calls
      ensures outcome == Invoke(payload, service, webhook).outcome
    {
      if payload.Malformed? {
        return Failed(MalformedPayload);
      }
      var info := Decode(payload.fields);
      if info.status == None {
        return Failed(NullStatus);
      }
      if info.status.value == "QUEUED" || info.triggerId == None {
        return Skipped;
      }
      var trigger := GetTriggerData(info.projectId, info.triggerId);
      if trigger.Failure? {
        return Failed(trigger.error);
      }
      var message := BuildBotMessage(info, trigger.value);
      if message.Failure? {
        return Failed(FormatFailed(message.error));
      }
      var ok := SendMessageToBot(message.value);
      outcome := if ok then Delivered else Failed(DispatchFailed);
    }
  }
}
