/** The platform-specific message shaping done by send_to_endpoint. */
module Payload {
  import opened Outcomes
  import opened Json

  /** A badge argument: None stands for `undefined`. */
  type Badge = Option<int>

  /** JavaScript truthiness of the badge: defined and not 0. */
  predicate BadgeTruthy(badge: Badge) {
    badge.Some? && badge.value != 0
  }

  /** The object handed to publish: each key maps to a JSON-encoded string. */
  datatype WireMessage = WireMessage(entries: seq<(string, Encoded)>)

  /** The members of the iOS `aps` object. */
  function ApsFields(message: string, data: Json, badge: Badge): (aps: seq<(string, Json)>)
    ensures Get(aps, "alert") == Some(JStr(message))
    ensures Get(aps, "payload") == Some(data)
    ensures "badge" in Keys(aps) <==> BadgeTruthy(badge)
    ensures BadgeTruthy(badge) ==> Get(aps, "badge") == Some(JNum(badge.value))
    ensures forall k :: k in Keys(aps) ==> k in {"alert", "payload", "badge"}
  {
    var aps := [("alert", JStr(message)), ("payload", data)]
      + (if BadgeTruthy(badge) then [("badge", JNum(badge.value))] else []);
    assert Keys(aps) == if BadgeTruthy(badge) then ["alert", "payload", "badge"] else ["alert", "payload"];
    aps
  }

  /** The object encoded under "GCM" for every platform other than iOS. */
  function GcmBody(message: string): (body: Json)
    ensures body.JObj? && Keys(body.members) == ["data"]
    ensures Get(body.members, "data") == Some(JObj([("message", JStr(message))]))
  {
    JObj([("data", JObj([("message", JStr(message))]))])
  }

  /** The wire message send_to_endpoint builds for a platform name. */
  function Shape(platformName: string, iosPayloadKey: string, message: string, data: Json, badge: Badge)
    : (w: WireMessage)
    ensures platformName == "ios" ==>
      && Keys(w.entries) == [iosPayloadKey]
      && Get(w.entries, iosPayloadKey) == Some(Stringified(JObj([("aps", JObj(ApsFields(message, data, badge)))])))
    ensures platformName != "ios" ==>
      && Keys(w.entries) == ["GCM"]
      && Get(w.entries, "GCM") == Some(Stringified(GcmBody(message)))
  {
    if platformName == "ios" then
      WireMessage([(iosPayloadKey, Stringified(JObj([("aps", JObj(ApsFields(message, data, badge)))])))])
    else
      WireMessage([("GCM", Stringified(GcmBody(message)))])
  }

  /** A non-iOS wire message depends on the message alone: not on data, badge or the iOS key. */
  lemma GcmIgnoresDataAndBadge(platformName: string, key1: string, key2: string, message: string,
                               data1: Json, data2: Json, badge1: Badge, badge2: Badge)
    requires platformName != "ios"
    ensures Shape(platformName, key1, message, data1, badge1) == Shape(platformName, key2, message, data2, badge2)
    ensures "aps" !in Keys(Shape(platformName, key1, message, data1, badge1).entries)
    ensures "aps" !in Keys(GcmBody(message).members)
  {
  }

  /** Two iOS badges that are both falsy (0 or undefined) shape the same message. */
  lemma FalsyBadgesShapeAlike(key: string, message: string, data: Json, badge1: Badge, badge2: Badge)
    requires !BadgeTruthy(badge1) && !BadgeTruthy(badge2)
    ensures Shape("ios", key, message, data, badge1) == Shape("ios", key, message, data, badge2)
  {
  }
}
