/** The default webhook body: `{triggerEvent, createdAt, payload}`. */
module WebhookEnvelope {
  import opened Wrappers
  import opened Json

  const EnvelopeKeys: seq<string> := ["triggerEvent", "createdAt", "payload"]

  /** The object literal `{triggerEvent, createdAt, payload: data}`: exactly
      the three keys, in that order, holding the given values. */
  function Envelope(triggerEvent: string, createdAt: string, payload: Json): (v: Json)
    ensures v.JObj? && Keys(v.members) == EnvelopeKeys
    ensures Get(v.members, "triggerEvent") == Some(JStr(triggerEvent))
    ensures Get(v.members, "createdAt") == Some(JStr(createdAt))
    ensures Get(v.members, "payload") == Some(payload)
  {
    var ms := [("triggerEvent", JStr(triggerEvent)), ("createdAt", JStr(createdAt)), ("payload", payload)];
    assert Get(ms, "payload") == Get(ms[1..], "payload") == Get(ms[1..][1..], "payload");
    JObj(ms)
  }
}
