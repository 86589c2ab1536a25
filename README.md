# DeBo, the Deployer Bot, in Dafny

DeBo is one Cloud Function, `PubSubChatFunction`. It receives a Cloud Build
Pub/Sub event and turns it into a Google Chat card. Then it posts the card to
a chat webhook. This project models the logic between the decoders and the
network:

- **BuildEvent** (`build_info.dfy`): `BuildInfo` and the decoder's key
  mapping. Six payload keys are copied. `finishTime` becomes `endTime` and
  `buildTriggerId` becomes `triggerId`. A missing key gives an absent field.
  `Encode` is the inverse view, the payload an event with given fields
  carries, and the two round trips are proved.
- **BotMessage** (`bot_message.dfy`): `buildBotMessage`. It yields one card
  with the header "Debo - The Deployer Bot" and its fixed image. The card has
  one section of six label/value widgets in a fixed order. An absent trigger
  or time becomes `" - "`. The lemmas prove what each label shows. They
  use `Find`, a helper that names the widget carrying a label.
- **Pipeline** (`pipeline.dfy`): the guard of `accept`, `getTriggerData`,
  `sendMessageToBot` and `accept`. `Invoke` is a function that gives the
  outbound calls of one invocation and how it ends. The class `ChatFunction`
  holds the two client handles as constants. It records every attempted outbound
  call in a ghost log, at the moment the call is issued. Its `Accept` method is proved to make exactly the calls
  `Invoke` prescribes. It also keeps the log ordered: every post comes right
  after a trigger request.

Edge cases of the code that the model keeps:

- `projectId` and `status` may be missing from the payload. The code copies
  them as null. A null status makes the guard's `status.equals` throw before
  the trigger id is tested (`Failed(NullStatus)`). A null project id past
  the guard reaches `triggers().get(projectId, triggerId)`. The Cloud Build
  client refuses a null required parameter before any request is sent, and
  the error is not an I/O error, so the invocation aborts
  (`Failed(NullProjectId)`, no call). This refusal is the client library's
  behaviour and is not visible in the function's own code.
- A trigger request that fails for any reason, "not found" included, aborts
  the invocation. Nothing is posted then.
- A trigger without a trigger template makes `getTriggerTemplate()` return
  null, and reading the branch name throws. Triggers on connected GitHub
  repositories are like that. The model gives `Failed(FormatFailed(NullTriggerTemplate))`.
  A trigger's name or branch name that is null is shown as a widget without
  content, not as `" - "`.
- A missing `CHAT_WEBHOOK` setting is not rejected at start-up. The code
  fails only when it builds the webhook URL at dispatch time. That failure
  falls under the webhook's `false` answer here. The post is still
  recorded in the log, as an attempted call.

## Model

| member | source | states |
|---|---|---|
| BuildEvent.Decode | src/main/java/functions/PubSubChatFunction.java:95-100 | under each of the six payload keys, the decoded field is the payload's value, or absent when the key is missing |
| BuildEvent.Encode | src/main/java/functions/PubSubChatFunction.java:95-100 | the payload of an event has only the six keys, each holding the field the decoder copies it into |
| BuildEvent.DecodeEncode | src/main/java/functions/PubSubChatFunction.java:95-100 | decoding an event's payload reproduces exactly its field values |
| BuildEvent.EncodeDecode | src/main/java/functions/PubSubChatFunction.java:95-100 | decoding keeps exactly the six known keys of a payload and drops every other key |
| BuildEvent.DecodeReadsOnlyEventKeys | src/main/java/functions/PubSubChatFunction.java:93-100 | two payloads decode alike if and only if they agree on the six known keys |
| BotMessage.OrPlaceholder | src/main/java/functions/PubSubChatFunction.java:141-142 | an absent value is shown as " - ", a present one unchanged |
| BotMessage.FindInWellFormed | src/main/java/functions/PubSubChatFunction.java:136-143 | in the bot's card the six labels are distinct, so each label finds its own widget |
| BotMessage.BuildBotMessage | src/main/java/functions/PubSubChatFunction.java:124-150 | formatting fails exactly when the trigger is present without a template; otherwise the message has one card with the fixed title and image, one section, and six widgets labelled Project id, Trigger Name, Branch Name, Status, Start Time, Finish Time in that order |
| BotMessage.ShownValues | src/main/java/functions/PubSubChatFunction.java:136-143 | under each label the card shows: project id and status unchanged; the trigger's name and branch, or " - " without a trigger; start and finish time, or " - " when absent |
| Pipeline.Guard | src/main/java/functions/PubSubChatFunction.java:54-56 | the invocation proceeds if and only if the status is present, is not QUEUED, and there is a trigger id; a missing status fails |
| Pipeline.GuardOnPayload | src/main/java/functions/PubSubChatFunction.java:54-56 | on the raw payload: proceeds if and only if "status" is present and not QUEUED and "buildTriggerId" is present; fails if and only if "status" is missing |
| Pipeline.TriggerData | src/main/java/functions/PubSubChatFunction.java:109-122 | no trigger id gives an empty result; a null project id is refused by the client; otherwise the result is the trigger the service finds for that project and trigger id, or the failure of that request |
| Pipeline.TriggerDataCalls | src/main/java/functions/PubSubChatFunction.java:113-117 | the trigger lookup makes one request, keyed on the project and trigger ids, exactly when both are present, and none otherwise |
| Pipeline.Invoke | src/main/java/functions/PubSubChatFunction.java:50-63 | an invocation makes at most two calls; two calls are a trigger request then a post of a well-formed card, and it ends Delivered exactly when the webhook accepts the card, otherwise with the dispatch failure; one call is a request that ended in the lookup failure or the missing-template failure; delivery needs both calls |
| Pipeline.QueuedIsSilent | src/main/java/functions/PubSubChatFunction.java:54-56 | a queued build makes no call and ends silently |
| Pipeline.NoTriggerIsSilent | src/main/java/functions/PubSubChatFunction.java:54-56 | a build without a trigger id makes no call and ends silently |
| Pipeline.SilentExactlyWhenStoppedEarly | src/main/java/functions/PubSubChatFunction.java:52-56 | no call is made if and only if decoding, the guard or the client's refusal of a null project id stops the invocation; it ends silently if and only if the guard says stop |
| Pipeline.LookupThenDispatch | src/main/java/functions/PubSubChatFunction.java:58-62 | past the guard, a missing project id aborts with no call; otherwise the first call is the trigger request for the event's project and trigger ids, a post follows if and only if the request found a trigger and the card could be built, and it posts that card; a found trigger without a template aborts after the request with the formatting failure |
| Pipeline.LookupFailureSuppressesDispatch | src/main/java/functions/PubSubChatFunction.java:113-121 | a failed trigger request aborts the invocation after that one request, with nothing posted |
| Pipeline.SuccessfulBuildCard | src/main/java/functions/PubSubChatFunction.java:50-63 | a successful build of p1 with trigger t1 named Deploy on main, started S and finished F, posts the widgets p1, Deploy, main, SUCCESS, S, F |
| Pipeline.InvokeKeepsCallsOrdered | src/main/java/functions/PubSubChatFunction.java:58-62 | after any invocation every post in the call log still follows a trigger request directly and carries a well-formed card |
| Pipeline.ChatFunction.constructor | src/main/java/functions/PubSubChatFunction.java:44-47 | the client handles are set once and no call has been made |
| Pipeline.ChatFunction.GetTriggerData | src/main/java/functions/PubSubChatFunction.java:109-122 | returns the trigger lookup's result, records one attempted request exactly when both ids are present, and keeps the call log ordered |
| Pipeline.ChatFunction.SendMessageToBot | src/main/java/functions/PubSubChatFunction.java:152-165 | called right after a trigger request with a well-formed card, it records one attempted post of that card, reports the webhook's answer and keeps the call log ordered |
| Pipeline.ChatFunction.Accept | src/main/java/functions/PubSubChatFunction.java:50-63 | makes exactly the calls of one invocation, in order, ends as the invocation does, and keeps the call log ordered |

## Left out

- Base64 and JSON decoding of the event's `data` (line 93) are library calls. The model takes the decoded key/value map as input. Every decoding failure is one `Malformed` payload.
- A JSON `null` under one of the six keys is read as null, exactly like a missing key; the model's input map simply leaves such a key out.
- A JSON value under one of the six keys that is neither a string nor `null` makes the copy throw a class-cast error. This counts as a malformed payload.
- The Cloud Build client, credential discovery and the HTTP transport (lines 65-86) are foreign calls made at class initialisation. The trigger service is a function-valued parameter instead.
- The HTTP POST, the JSON serialisation of the card and the `CHAT_WEBHOOK` read (lines 42, 152-165) are network I/O and environment access. The webhook is a function from card to success.
- The Pub/Sub fields `attributes`, `messageId` and `publishTime`, the `Context` argument and the logger are unused by the logic.
- The trigger service and the webhook are fixed functions for the lifetime of a `ChatFunction`. So two invocations with the same payload end the same way on one object; a transient failure that makes a lookup or a post fail once and succeed later is not modelled.
- Concurrent invocations on one process are not modelled. The client handles are never written after start-up, so they share nothing mutable.
