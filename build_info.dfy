/** The build status that a Cloud Build Pub/Sub event carries, and how it is
    read out of the event's decoded key/value payload
    (`getBuildInfoFromPubSubMessage` and `BuildInfo` in PubSubChatFunction.java). */
module BuildEvent {
  import opened Wrappers

  /** Every field may be absent: a key missing from the payload leaves it null. */
  datatype BuildInfo = BuildInfo(
    projectId: Option<string>,
    status: Option<string>,
    buildId: Option<string>,
    startTime: Option<string>,
    endTime: Option<string>,
    triggerId: Option<string>)

  /** The six payload keys the decoder reads; all other keys are ignored. */
  const EventKeys: set<string> :=
    {"buildId", "finishTime", "startTime", "projectId", "status", "buildTriggerId"}

  /** The field of `b` that the payload key `key` is copied into. Four keys keep
      their names; `finishTime` lands in `endTime` and `buildTriggerId` in `triggerId`. */
  function FieldFor(b: BuildInfo, key: string): Option<string>
    requires key in EventKeys
  {
    match key
    case "buildId" => b.buildId
    case "finishTime" => b.endTime
    case "startTime" => b.startTime
    case "projectId" => b.projectId
    case "status" => b.status
    case "buildTriggerId" => b.triggerId
  }

  /** Copies the six known keys of the decoded payload into a build info;
      a missing key yields an absent field, never an error. */
  function Decode(payload: map<string, string>): (b: BuildInfo)
    ensures forall k :: k in EventKeys ==> FieldFor(b, k) == Get(payload, k)
  {
    BuildInfo(
      projectId := Get(payload, "projectId"),
      status := Get(payload, "status"),
      buildId := Get(payload, "buildId"),
      startTime := Get(payload, "startTime"),
      endTime := Get(payload, "finishTime"),
      triggerId := Get(payload, "buildTriggerId"))
  }

  /** `m` with `key` set to `v` when `v` is present, unchanged otherwise. */
  function Put(m: map<string, string>, key: string, v: Option<string>): map<string, string>
  {
    if v.Some? then m[key := v.value] else m
  }

  /** The payload a build event with the fields of `b` carries: one entry per
      present field, under the key the event uses for it. */
  function Encode(b: BuildInfo): (m: map<string, string>)
    ensures m.Keys <= EventKeys
    ensures forall k :: k in EventKeys ==> Get(m, k) == FieldFor(b, k)
  {
    var m := Put(map[], "buildId", b.buildId);
    var m := Put(m, "finishTime", b.endTime);
    var m := Put(m, "startTime", b.startTime);
    var m := Put(m, "projectId", b.projectId);
    var m := Put(m, "status", b.status);
    Put(m, "buildTriggerId", b.triggerId)
  }

  /** Decoding the payload of an event reproduces exactly its field values. */
  lemma DecodeEncode(b: BuildInfo)
    ensures Decode(Encode(b)) == b
  {
  }

  /** Re-encoding a decoded payload keeps the six known keys and drops the rest. */
  lemma EncodeDecode(payload: map<string, string>)
    ensures Encode(Decode(payload)) == map k | k in payload && k in EventKeys :: payload[k]
  {
  }

  /** Two payloads decode to the same build info exactly when they agree on
      the six known keys: the decoder reads those and nothing else. */
  lemma DecodeReadsOnlyEventKeys(p: map<string, string>, q: map<string, string>)
    ensures Decode(p) == Decode(q) <==> forall k :: k in EventKeys ==> Get(p, k) == Get(q, k)
  {
  }
}
