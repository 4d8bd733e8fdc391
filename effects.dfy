/**
 * The state the bulb changes and one step function per store or provider call.
 * A step returns the new state and the call's outcome; a failure is an input.
 */
module Effects {
  import opened Outcomes
  import opened Json
  import opened Payload
  import opened PushTargets
  import opened Registry

  /** The parts of the logged-in user the bulb reads. */
  datatype User = User(id: int, username: Option<string>, name: Option<string>)

  /** The two events publish emits on a platform handle. */
  datatype Event =
    | MessageSent(endpoint: string, messageId: Option<string>)
    | SendFailed(endpoint: string, error: string)

  /** The parameters of sns.publish. */
  datatype PublishRequest = PublishRequest(message: WireMessage, targetArn: string, messageStructure: string)

  /** One store query, provider call or emitted event, in the order it happened. */
  datatype Op =
    | SelectByDevice(deviceId: string)
    | SelectByUser(user: int)
    | DeleteByDevice(deviceId: string)
    | InsertRow(row: Row)
    | GetUserCall(platform: string, endpoint: string)
    | DeleteUserCall(platform: string, endpoint: string)
    | AddUserCall(platform: string, deviceId: string, userData: Encoded)
    | PublishCall(platform: string, request: PublishRequest)
    | Emitted(platform: string, event: Event)

  /**
   * The push_targets table, the provider's endpoints (each mapped to its `Enabled`
   * attribute, "true" or "false") and the trace of operations so far.
   */
  datatype State = State(targets: seq<Row>, endpoints: map<string, string>, trace: seq<Op>)

  /** What addUser answers: the new endpoint ARN, or an error. */
  datatype AddUserReply = Created(endpoint: string) | AddUserFailed(reason: string)

  /** What sns.publish answers: a response (whose MessageId may be missing), or an error. */
  datatype PublishReply = Published(messageId: Option<string>) | PublishFailed(reason: string)

  /** The two arguments publish passes to its callback. */
  datatype CallbackArgs = CallbackArgs(error: Option<string>, messageId: Option<string>)

  function Record(s: State, op: Op): State {
    s.(trace := s.trace + [op])
  }

  /** The `{userId}` string create_endpoint hands to addUser. */
  function UserData(user: int): Encoded {
    Stringified(JObj([("userId", JNum(user))]))
  }

  /** query_single on `... WHERE device_id = ?`. */
  function SelectByDeviceEffect(s: State, deviceId: string, fault: Option<string>): (State, Result<Option<Row>>) {
    var s1 := Record(s, SelectByDevice(deviceId));
    if fault.Some? then (s1, Err(StoreError(fault.value)))
    else (s1, Ok(ForDevice(s.targets, deviceId)))
  }

  /** query on `... WHERE user = ?`. */
  function SelectByUserEffect(s: State, user: int, fault: Option<string>): (State, Result<seq<Row>>) {
    var s1 := Record(s, SelectByUser(user));
    if fault.Some? then (s1, Err(StoreError(fault.value)))
    else (s1, Ok(OfUser(s.targets, user)))
  }

  /** query on `DELETE ... WHERE device_id = ?`. */
  function DeleteByDeviceEffect(s: State, deviceId: string, fault: Option<string>): (State, Result<()>) {
    var s1 := Record(s, DeleteByDevice(deviceId));
    if fault.Some? then (s1, Err(StoreError(fault.value)))
    else (s1.(targets := WithoutDevice(s.targets, deviceId)), Ok(()))
  }

  /** The INSERT of create_endpoint, appending a row. */
  function InsertEffect(s: State, row: Row): State {
    Record(s, InsertRow(row)).(targets := s.targets + [row])
  }

  /**
   * get_user: the endpoint's `Enabled` attribute. A provider error, injected or
   * because the provider holds no such endpoint, rejects.
   */
  function GetUserEffect(s: State, platform: Platform, endpoint: string, fault: Option<string>): (State, Result<string>) {
    var s1 := Record(s, GetUserCall(platform.name, endpoint));
    if fault.Some? then (s1, Err(ProviderError(fault.value)))
    else if endpoint !in s.endpoints then (s1, Err(ProviderError("NotFound")))
    else (s1, Ok(s.endpoints[endpoint]))
  }

  /** delete_endpoint: deleteUser removes the endpoint from the provider. */
  function DeleteEndpointEffect(s: State, platform: Platform, endpoint: string, fault: Option<string>): (State, Result<()>) {
    var s1 := Record(s, DeleteUserCall(platform.name, endpoint));
    if fault.Some? then (s1, Err(ProviderError(fault.value)))
    else (s1.(endpoints := s.endpoints - {endpoint}), Ok(()))
  }

  /** create_endpoint: addUser, then (and only then) the row INSERT. */
  function CreateEndpointEffect(s: State, user: User, platform: Platform, deviceId: string, reply: AddUserReply)
    : (State, Result<()>)
  {
    var s1 := Record(s, AddUserCall(platform.name, deviceId, UserData(user.id)));
    match reply
    case AddUserFailed(reason) => (s1, Err(ProviderError(reason)))
    case Created(endpoint) =>
      var s2 := s1.(endpoints := s1.endpoints[endpoint := "true"]);
      (InsertEffect(s2, Row(user.id, deviceId, endpoint, platform.name)), Ok(()))
  }

  /** The event publish emits for a reply. */
  function EventFor(endpoint: string, reply: PublishReply): Event {
    match reply
    case PublishFailed(reason) => SendFailed(endpoint, reason)
    case Published(id) => MessageSent(endpoint, id)
  }

  /** What publish hands its callback: the error, and the MessageId when it is truthy, else null. */
  function CallbackFor(reply: PublishReply): (c: CallbackArgs)
    ensures c.error.Some? <==> reply.PublishFailed?
    ensures c.messageId.Some? <==> reply.Published? && Truthy(reply.messageId)
    ensures c.messageId.Some? ==> c.messageId == reply.messageId
  {
    match reply
    case PublishFailed(reason) => CallbackArgs(Some(reason), None)
    case Published(id) => CallbackArgs(None, if Truthy(id) then id else None)
  }

  /** publish: one sns.publish call, then exactly one emitted event. */
  function PublishEffect(s: State, platform: Platform, endpoint: string, wire: WireMessage, reply: PublishReply)
    : (State, CallbackArgs)
  {
    var s1 := Record(s, PublishCall(platform.name, PublishRequest(wire, endpoint, "json")));
    (Record(s1, Emitted(platform.name, EventFor(endpoint, reply))), CallbackFor(reply))
  }

  /** The events in a trace, in order. */
  function Events(ops: seq<Op>): (es: seq<Event>)
    ensures |es| <= |ops|
  {
    if ops == [] then []
    else (if ops[0].Emitted? then [ops[0].event] else []) + Events(ops[1..])
  }

  /** The endpoints published to in a trace, in order. */
  function PublishTargets(ops: seq<Op>): (ts: seq<string>)
    ensures |ts| <= |ops|
  {
    if ops == [] then []
    else (if ops[0].PublishCall? then [ops[0].request.targetArn] else []) + PublishTargets(ops[1..])
  }

  lemma {:induction false} EventsAppend(a: seq<Op>, b: seq<Op>)
    ensures Events(a + b) == Events(a) + Events(b)
  {
    if a == [] {
      assert a + b == b;
    } else {
      var head := if a[0].Emitted? then [a[0].event] else [];
      assert (a + b)[0] == a[0];
      assert (a + b)[1..] == a[1..] + b;
      assert Events(a + b) == head + Events(a[1..] + b);
      EventsAppend(a[1..], b);
      assert Events(a) == head + Events(a[1..]);
    }
  }

  lemma {:induction false} PublishTargetsAppend(a: seq<Op>, b: seq<Op>)
    ensures PublishTargets(a + b) == PublishTargets(a) + PublishTargets(b)
  {
    if a == [] {
      assert a + b == b;
    } else {
      var head := if a[0].PublishCall? then [a[0].request.targetArn] else [];
      assert (a + b)[0] == a[0];
      assert (a + b)[1..] == a[1..] + b;
      assert PublishTargets(a + b) == head + PublishTargets(a[1..] + b);
      PublishTargetsAppend(a[1..], b);
      assert PublishTargets(a) == head + PublishTargets(a[1..]);
    }
  }

  /** A stretch of trace made only of publish calls and emitted events: no store query, no other provider call. */
  predicate OnlyPublishes(ops: seq<Op>) {
    forall op :: op in ops ==> op.PublishCall? || op.Emitted?
  }

  /** A trace extended twice by publishes only has been extended by publishes only. */
  lemma OnlyPublishesExtension(t0: seq<Op>, t1: seq<Op>, t2: seq<Op>)
    requires |t0| <= |t1| <= |t2| && t1[..|t0|] == t0 && t2[..|t1|] == t1
    requires OnlyPublishes(t1[|t0|..]) && OnlyPublishes(t2[|t1|..])
    ensures OnlyPublishes(t2[|t0|..])
  {
    assert t2[|t0|..] == t1[|t0|..] + t2[|t1|..];
  }

  /** A trace extended twice: what the whole extension publishes and emits is the two parts in order. */
  lemma TraceExtension(t0: seq<Op>, t1: seq<Op>, t2: seq<Op>)
    requires |t0| <= |t1| <= |t2| && t1[..|t0|] == t0 && t2[..|t1|] == t1
    ensures PublishTargets(t2[|t0|..]) == PublishTargets(t1[|t0|..]) + PublishTargets(t2[|t1|..])
    ensures Events(t2[|t0|..]) == Events(t1[|t0|..]) + Events(t2[|t1|..])
  {
    assert t2[|t0|..] == t1[|t0|..] + t2[|t1|..];
    PublishTargetsAppend(t1[|t0|..], t2[|t1|..]);
    EventsAppend(t1[|t0|..], t2[|t1|..]);
  }

  /**
   * Each publish makes one provider call and emits exactly one event: sendFailed with the
   * error, or messageSent with the MessageId. Nothing but the trace changes.
   */
  lemma PublishEmitsOneEvent(s: State, platform: Platform, endpoint: string, wire: WireMessage, reply: PublishReply)
    ensures var (s1, _) := PublishEffect(s, platform, endpoint, wire, reply);
      && s1.targets == s.targets && s1.endpoints == s.endpoints
      && |s1.trace| == |s.trace| + 2 && s1.trace[..|s.trace|] == s.trace
      && PublishTargets(s1.trace[|s.trace|..]) == [endpoint]
      && OnlyPublishes(s1.trace[|s.trace|..])
      && Events(s1.trace[|s.trace|..]) == [EventFor(endpoint, reply)]
      && (reply.PublishFailed? ==> EventFor(endpoint, reply) == SendFailed(endpoint, reply.reason))
      && (reply.Published? ==> EventFor(endpoint, reply) == MessageSent(endpoint, reply.messageId))
  {
    var (s1, _) := PublishEffect(s, platform, endpoint, wire, reply);
    var added := s1.trace[|s.trace|..];
    assert added == [PublishCall(platform.name, PublishRequest(wire, endpoint, "json")),
                     Emitted(platform.name, EventFor(endpoint, reply))];
    assert added[1..][1..] == [];
  }
}
