/**
 * The dispatcher: send and send_to_endpoint. The fan-out over a user's rows is
 * modelled as a loop in row order. SendEffect follows the TypeScript send, which
 * surfaces failures; SendAbsorbingEffect follows the compiled one, whose `.catch`
 * logs them and resolves.
 */
module Dispatch {
  import opened Outcomes
  import opened Json
  import opened Payload
  import opened PushTargets
  import opened Registry
  import opened Effects

  /** The store outcome of the row query, and the provider's reply to the k-th publish of the call. */
  datatype SendEnv = SendEnv(selectFault: Option<string>, replies: nat -> PublishReply)

  /** send_to_endpoint: the platform lookup (which throws), shaping, and one publish. */
  function SendToEndpointEffect(s: State, platforms: map<string, Platform>, iosPayloadKey: string,
                                platformName: string, endpoint: string, message: string, data: Json,
                                badge: Badge, reply: PublishReply): (State, Result<Option<string>>)
  {
    match GetPlatform(platforms, platformName)
    case Err(e) => (s, Err(e))
    case Ok(platform) =>
      var wire := Shape(platformName, iosPayloadKey, message, data, badge);
      var (s1, callback) := PublishEffect(s, platform, endpoint, wire, reply);
      if callback.error.Some? then (s1, Err(ProviderError(callback.error.value)))
      else (s1, Ok(callback.messageId))
  }

  /** What the deferred of send_to_endpoint settles with, for a reply. */
  function SettledWith(reply: PublishReply): Result<Option<string>> {
    match reply
    case PublishFailed(reason) => Err(ProviderError(reason))
    case Published(id) => Ok(if Truthy(id) then id else None)
  }

  /**
   * `rows.map(send_to_endpoint)` over a prefix of the rows: the new state, the settled
   * result of each call made, and the platform error that stopped the map, if any.
   */
  function FanOut(s: State, platforms: map<string, Platform>, iosPayloadKey: string, rows: seq<Row>,
                  message: string, data: Json, badge: Badge, replies: nat -> PublishReply)
    : (State, seq<Result<Option<string>>>, Option<Error>)
    decreases |rows|
  {
    if rows == [] then (s, [], None)
    else
      var n := |rows| - 1;
      var (s1, results, stopped) := FanOut(s, platforms, iosPayloadKey, rows[..n], message, data, badge, replies);
      if stopped.Some? then (s1, results, stopped)
      else
        var (s2, r) := SendToEndpointEffect(s1, platforms, iosPayloadKey, rows[n].platform, rows[n].endpoint,
                                            message, data, badge, replies(n));
        if r.Err? && r.error.NoPlatform? then (s2, results, Some(r.error))
        else (s2, results + [r], None)
  }

  /** when.all: every value when all succeeded, otherwise the first failure. */
  function Join(results: seq<Result<Option<string>>>): (r: Result<seq<Option<string>>>)
    ensures r.Ok? <==> forall i :: 0 <= i < |results| ==> results[i].Ok?
    ensures r.Ok? ==> |r.value| == |results| && forall i :: 0 <= i < |results| ==> r.value[i] == results[i].value
    ensures r.Err? ==> exists i :: 0 <= i < |results| && results[i] == Err(r.error) &&
                                  forall j :: 0 <= j < i ==> results[j].Ok?
  {
    if results == [] then Ok([])
    else if results[0].Err? then Err(results[0].error)
    else
      var rest := Join(results[1..]);
      assert forall i :: 1 <= i < |results| ==> results[i] == results[1..][i - 1];
      if rest.Err? then
        assert exists i :: 1 <= i < |results| && results[i] == Err(rest.error) &&
                           forall j :: 0 <= j < i ==> results[j].Ok? by {
          var k :| 0 <= k < |results[1..]| && results[1..][k] == Err(rest.error) &&
                   forall j :: 0 <= j < k ==> results[1..][j].Ok?;
          assert results[k + 1] == Err(rest.error);
          forall j | 0 <= j < k + 1 ensures results[j].Ok? {
            if j > 0 { assert results[j] == results[1..][j - 1]; }
          }
        }
        Err(rest.error)
      else Ok([results[0].value] + rest.value)
  }

  /** send as in the TypeScript source. */
  function SendEffect(s: State, platforms: map<string, Platform>, iosPayloadKey: string, user: User,
                      message: string, data: Json, badge: Badge, env: SendEnv): (State, Result<seq<Option<string>>>)
  {
    var (s1, found) := SelectByUserEffect(s, user.id, env.selectFault);
    if found.Err? then (s1, Err(found.error))
    else if |found.value| == 0 then (s1, Ok([]))
    else
      var (s2, results, stopped) := FanOut(s1, platforms, iosPayloadKey, found.value, message, data, badge, env.replies);
      if stopped.Some? then (s2, Err(stopped.value)) else (s2, Join(results))
  }

  /** send as compiled: a failure is logged and the promise resolves with no value (None). */
  function SendAbsorbingEffect(s: State, platforms: map<string, Platform>, iosPayloadKey: string, user: User,
                               message: string, data: Json, badge: Badge, env: SendEnv)
    : (State, Option<seq<Option<string>>>)
  {
    var (s1, r) := SendEffect(s, platforms, iosPayloadKey, user, message, data, badge, env);
    (s1, if r.Ok? then Some(r.value) else None)
  }

  // ---- properties ----

  ghost predicate AllKnown(platforms: map<string, Platform>, rows: seq<Row>) {
    forall i :: 0 <= i < |rows| ==> rows[i].platform in platforms
  }

  function Endpoints(rows: seq<Row>): (es: seq<string>)
    ensures |es| == |rows| && forall i :: 0 <= i < |rows| ==> es[i] == rows[i].endpoint
  {
    seq(|rows|, i requires 0 <= i < |rows| => rows[i].endpoint)
  }

  /** With a configured platform, send_to_endpoint is one publish and settles as the reply says. */
  lemma SendToKnownPlatform(s: State, platforms: map<string, Platform>, iosPayloadKey: string,
                            platformName: string, endpoint: string, message: string, data: Json,
                            badge: Badge, reply: PublishReply)
    requires platformName in platforms
    ensures var (s1, r) := SendToEndpointEffect(s, platforms, iosPayloadKey, platformName, endpoint,
                                                message, data, badge, reply);
      && r == SettledWith(reply)
      && s1 == PublishEffect(s, platforms[platformName], endpoint,
                             Shape(platformName, iosPayloadKey, message, data, badge), reply).0
  {
  }

  /** One more row with a configured platform, after a map that has not stopped, is one more publish. */
  lemma FanOutStep(s: State, platforms: map<string, Platform>, iosPayloadKey: string,
                   rows: seq<Row>, message: string, data: Json, badge: Badge, replies: nat -> PublishReply)
    requires rows != [] && rows[|rows| - 1].platform in platforms
    requires FanOut(s, platforms, iosPayloadKey, rows[..|rows| - 1], message, data, badge, replies).2.None?
    ensures var n := |rows| - 1;
      var (s1, results, _) := FanOut(s, platforms, iosPayloadKey, rows[..n], message, data, badge, replies);
      FanOut(s, platforms, iosPayloadKey, rows, message, data, badge, replies)
        == (PublishEffect(s1, platforms[rows[n].platform], rows[n].endpoint,
                          Shape(rows[n].platform, iosPayloadKey, message, data, badge), replies(n)).0,
            results + [SettledWith(replies(n))], None)
  {
    var n := |rows| - 1;
    var (s1, results, _) := FanOut(s, platforms, iosPayloadKey, rows[..n], message, data, badge, replies);
    SendToKnownPlatform(s1, platforms, iosPayloadKey, rows[n].platform, rows[n].endpoint, message, data, badge, replies(n));
  }

  /**
   * When every row's platform is configured, the map does not stop, leaves table and
   * endpoints alone, only appends to the trace, and settles one result per row in row order.
   */
  lemma {:induction false} FanOutSettlesEveryRow(s: State, platforms: map<string, Platform>, iosPayloadKey: string,
                                                 rows: seq<Row>, message: string, data: Json, badge: Badge,
                                                 replies: nat -> PublishReply)
    requires AllKnown(platforms, rows)
    ensures var (s1, results, stopped) := FanOut(s, platforms, iosPayloadKey, rows, message, data, badge, replies);
      && stopped == None
      && s1.targets == s.targets && s1.endpoints == s.endpoints
      && |s.trace| <= |s1.trace| && s1.trace[..|s.trace|] == s.trace
      && results == Settled(replies, |rows|)
  {
    if rows != [] {
      var n := |rows| - 1;
      var prefix := rows[..n];
      AllKnownPrefix(platforms, rows, n);
      FanOutSettlesEveryRow(s, platforms, iosPayloadKey, prefix, message, data, badge, replies);
      FanOutStep(s, platforms, iosPayloadKey, rows, message, data, badge, replies);
      var (s1, results, _) := FanOut(s, platforms, iosPayloadKey, prefix, message, data, badge, replies);
      var row := rows[n];
      PublishEmitsOneEvent(s1, platforms[row.platform], row.endpoint,
                           Shape(row.platform, iosPayloadKey, message, data, badge), replies(n));
      SettledSnoc(replies, n);
    }
  }

  /** What the first n calls of the map settle with when every platform is configured. */
  function Settled(replies: nat -> PublishReply, n: nat): (rs: seq<Result<Option<string>>>)
    ensures |rs| == n && forall k :: 0 <= k < n ==> rs[k] == SettledWith(replies(k))
  {
    seq(n, k requires 0 <= k < n => SettledWith(replies(k)))
  }

  lemma SettledSnoc(replies: nat -> PublishReply, n: nat)
    ensures Settled(replies, n) + [SettledWith(replies(n))] == Settled(replies, n + 1)
  {
  }

  /** The events one publish per row emits, in row order. */
  function EventsFor(rows: seq<Row>, replies: nat -> PublishReply): (es: seq<Event>)
    ensures |es| == |rows| && forall k :: 0 <= k < |rows| ==> es[k] == EventFor(rows[k].endpoint, replies(k))
  {
    seq(|rows|, k requires 0 <= k < |rows| => EventFor(rows[k].endpoint, replies(k)))
  }

  lemma EventsForSnoc(rows: seq<Row>, replies: nat -> PublishReply)
    requires rows != []
    ensures var n := |rows| - 1;
      EventsFor(rows[..n], replies) + [EventFor(rows[n].endpoint, replies(n))] == EventsFor(rows, replies)
  {
  }

  /** The endpoints of the rows are those of all but the last row, then the last row's. */
  lemma EndpointsSnoc(rows: seq<Row>)
    requires rows != []
    ensures Endpoints(rows[..|rows| - 1]) + [rows[|rows| - 1].endpoint] == Endpoints(rows)
  {
  }

  /** Every row of a map with configured platforms has a configured platform. */
  lemma AllKnownPrefix(platforms: map<string, Platform>, rows: seq<Row>, n: nat)
    requires AllKnown(platforms, rows) && n <= |rows|
    ensures AllKnown(platforms, rows[..n])
  {
    forall i | 0 <= i < n ensures rows[..n][i].platform in platforms { assert rows[..n][i] == rows[i]; }
  }

  /**
   * The last row of a map with configured platforms adds one publish to that row's
   * endpoint and one event for it to the trace, after what the earlier rows added.
   */
  lemma FanOutLast(s: State, platforms: map<string, Platform>, iosPayloadKey: string, rows: seq<Row>,
                   message: string, data: Json, badge: Badge, replies: nat -> PublishReply)
    requires rows != [] && AllKnown(platforms, rows)
    ensures var n := |rows| - 1;
      var t1 := FanOut(s, platforms, iosPayloadKey, rows[..n], message, data, badge, replies).0.trace;
      var t2 := FanOut(s, platforms, iosPayloadKey, rows, message, data, badge, replies).0.trace;
      && |s.trace| <= |t1| <= |t2| && t1[..|s.trace|] == s.trace && t2[..|t1|] == t1
      && PublishTargets(t2[|t1|..]) == [rows[n].endpoint]
      && OnlyPublishes(t2[|t1|..])
      && Events(t2[|t1|..]) == [EventFor(rows[n].endpoint, replies(n))]
  {
    var n := |rows| - 1;
    AllKnownPrefix(platforms, rows, n);
    FanOutSettlesEveryRow(s, platforms, iosPayloadKey, rows[..n], message, data, badge, replies);
    FanOutStep(s, platforms, iosPayloadKey, rows, message, data, badge, replies);
    var s1 := FanOut(s, platforms, iosPayloadKey, rows[..n], message, data, badge, replies).0;
    PublishEmitsOneEvent(s1, platforms[rows[n].platform], rows[n].endpoint,
                         Shape(rows[n].platform, iosPayloadKey, message, data, badge), replies(n));
  }

  /**
   * When every row's platform is configured, the map calls send_to_endpoint once per row,
   * in row order: one publish to each row's endpoint.
   */
  lemma {:induction false} FanOutPublishesOncePerRow(s: State, platforms: map<string, Platform>,
                                                     iosPayloadKey: string, rows: seq<Row>, message: string,
                                                     data: Json, badge: Badge, replies: nat -> PublishReply)
    requires AllKnown(platforms, rows)
    ensures var s1 := FanOut(s, platforms, iosPayloadKey, rows, message, data, badge, replies).0;
      |s.trace| <= |s1.trace| && PublishTargets(s1.trace[|s.trace|..]) == Endpoints(rows)
  {
    if rows == [] {
      assert s.trace[|s.trace|..] == [];
    } else {
      var n := |rows| - 1;
      AllKnownPrefix(platforms, rows, n);
      FanOutPublishesOncePerRow(s, platforms, iosPayloadKey, rows[..n], message, data, badge, replies);
      FanOutLast(s, platforms, iosPayloadKey, rows, message, data, badge, replies);
      var t1 := FanOut(s, platforms, iosPayloadKey, rows[..n], message, data, badge, replies).0.trace;
      var t2 := FanOut(s, platforms, iosPayloadKey, rows, message, data, badge, replies).0.trace;
      TraceExtension(s.trace, t1, t2);
      EndpointsSnoc(rows);
    }
  }

  /** When every row's platform is configured, the map adds nothing to the trace but publishes and their events. */
  lemma {:induction false} FanOutOnlyPublishes(s: State, platforms: map<string, Platform>,
                                               iosPayloadKey: string, rows: seq<Row>, message: string,
                                               data: Json, badge: Badge, replies: nat -> PublishReply)
    requires AllKnown(platforms, rows)
    ensures var s1 := FanOut(s, platforms, iosPayloadKey, rows, message, data, badge, replies).0;
      |s.trace| <= |s1.trace| && OnlyPublishes(s1.trace[|s.trace|..])
  {
    if rows == [] {
      assert s.trace[|s.trace|..] == [];
    } else {
      var n := |rows| - 1;
      AllKnownPrefix(platforms, rows, n);
      FanOutOnlyPublishes(s, platforms, iosPayloadKey, rows[..n], message, data, badge, replies);
      FanOutLast(s, platforms, iosPayloadKey, rows, message, data, badge, replies);
      var t1 := FanOut(s, platforms, iosPayloadKey, rows[..n], message, data, badge, replies).0.trace;
      var t2 := FanOut(s, platforms, iosPayloadKey, rows, message, data, badge, replies).0.trace;
      OnlyPublishesExtension(s.trace, t1, t2);
    }
  }

  /** When every row's platform is configured, each row's publish emits its one event, in row order. */
  lemma {:induction false} FanOutEmitsOncePerRow(s: State, platforms: map<string, Platform>,
                                                 iosPayloadKey: string, rows: seq<Row>, message: string,
                                                 data: Json, badge: Badge, replies: nat -> PublishReply)
    requires AllKnown(platforms, rows)
    ensures var s1 := FanOut(s, platforms, iosPayloadKey, rows, message, data, badge, replies).0;
      && |s.trace| <= |s1.trace|
      && Events(s1.trace[|s.trace|..]) == EventsFor(rows, replies)
  {
    if rows == [] {
      assert s.trace[|s.trace|..] == [];
    } else {
      var n := |rows| - 1;
      AllKnownPrefix(platforms, rows, n);
      FanOutEmitsOncePerRow(s, platforms, iosPayloadKey, rows[..n], message, data, badge, replies);
      FanOutLast(s, platforms, iosPayloadKey, rows, message, data, badge, replies);
      var t1 := FanOut(s, platforms, iosPayloadKey, rows[..n], message, data, badge, replies).0.trace;
      var t2 := FanOut(s, platforms, iosPayloadKey, rows, message, data, badge, replies).0.trace;
      TraceExtension(s.trace, t1, t2);
      EventsForSnoc(rows, replies);
    }
  }

  /** The map over one more row: its send_to_endpoint either stops the map or adds one result. */
  lemma FanOutExtend(s: State, platforms: map<string, Platform>, iosPayloadKey: string, rows: seq<Row>, k: nat,
                     message: string, data: Json, badge: Badge, replies: nat -> PublishReply)
    requires k < |rows|
    requires FanOut(s, platforms, iosPayloadKey, rows[..k], message, data, badge, replies).2.None?
    ensures var (s1, results, _) := FanOut(s, platforms, iosPayloadKey, rows[..k], message, data, badge, replies);
      var (s2, r) := SendToEndpointEffect(s1, platforms, iosPayloadKey, rows[k].platform, rows[k].endpoint,
                                          message, data, badge, replies(k));
      FanOut(s, platforms, iosPayloadKey, rows[..k + 1], message, data, badge, replies)
        == if r.Err? && r.error.NoPlatform? then (s2, results, Some(r.error)) else (s2, results + [r], None)
  {
    assert rows[..k + 1][..k] == rows[..k];
  }

  /** Once the map has stopped on an unknown platform, later rows change nothing. */
  lemma {:induction false} FanOutStaysStopped(s: State, platforms: map<string, Platform>, iosPayloadKey: string,
                                              rows: seq<Row>, k: nat, message: string, data: Json, badge: Badge,
                                              replies: nat -> PublishReply)
    requires k <= |rows|
    requires FanOut(s, platforms, iosPayloadKey, rows[..k], message, data, badge, replies).2.Some?
    ensures FanOut(s, platforms, iosPayloadKey, rows, message, data, badge, replies)
         == FanOut(s, platforms, iosPayloadKey, rows[..k], message, data, badge, replies)
    decreases |rows|
  {
    if k < |rows| {
      var n := |rows| - 1;
      assert rows[..n][..k] == rows[..k];
      FanOutStaysStopped(s, platforms, iosPayloadKey, rows[..n], k, message, data, badge, replies);
    } else {
      assert rows[..k] == rows;
    }
  }

  /**
   * One step of the map, in the terms a loop over the rows keeps: after the k-th
   * send_to_endpoint the map either has stopped for good or has one more result.
   */
  lemma FanOutAdvance(s: State, platforms: map<string, Platform>, iosPayloadKey: string, rows: seq<Row>, k: nat,
                      message: string, data: Json, badge: Badge, replies: nat -> PublishReply,
                      s1: State, results: seq<Result<Option<string>>>, s2: State, r: Result<Option<string>>)
    requires k < |rows|
    requires FanOut(s, platforms, iosPayloadKey, rows[..k], message, data, badge, replies) == (s1, results, None)
    requires (s2, r) == SendToEndpointEffect(s1, platforms, iosPayloadKey, rows[k].platform, rows[k].endpoint,
                                             message, data, badge, replies(k))
    ensures r.Err? && r.error.NoPlatform? ==>
      FanOut(s, platforms, iosPayloadKey, rows, message, data, badge, replies) == (s2, results, Some(r.error))
    ensures !(r.Err? && r.error.NoPlatform?) ==>
      FanOut(s, platforms, iosPayloadKey, rows[..k + 1], message, data, badge, replies)
        == (s2, results + [r], None)
  {
    FanOutExtend(s, platforms, iosPayloadKey, rows, k, message, data, badge, replies);
    if r.Err? && r.error.NoPlatform? {
      FanOutStaysStopped(s, platforms, iosPayloadKey, rows, k + 1, message, data, badge, replies);
    }
  }

  /**
   * The first row whose platform is not configured stops the map: the rows before it were
   * published to, it and the rows after it were not, and its lookup error is the outcome.
   */
  lemma StopsAtUnknownPlatform(s: State, platforms: map<string, Platform>, iosPayloadKey: string,
                               rows: seq<Row>, k: nat, message: string, data: Json, badge: Badge,
                               replies: nat -> PublishReply)
    requires k < |rows| && AllKnown(platforms, rows[..k]) && rows[k].platform !in platforms
    ensures var (s1, results, stopped) := FanOut(s, platforms, iosPayloadKey, rows, message, data, badge, replies);
      && stopped == Some(NoPlatform(rows[k].platform))
      && |results| == k
      && |s.trace| <= |s1.trace| && s1.trace[..|s.trace|] == s.trace
      && PublishTargets(s1.trace[|s.trace|..]) == Endpoints(rows[..k])
  {
    FanOutSettlesEveryRow(s, platforms, iosPayloadKey, rows[..k], message, data, badge, replies);
    FanOutPublishesOncePerRow(s, platforms, iosPayloadKey, rows[..k], message, data, badge, replies);
    var (s1, results, _) := FanOut(s, platforms, iosPayloadKey, rows[..k], message, data, badge, replies);
    FanOutAdvance(s, platforms, iosPayloadKey, rows, k, message, data, badge, replies,
                  s1, results, s1, Err(NoPlatform(rows[k].platform)));
  }

  /** A user with no stored rows gets [] after the one row query, and no publish happens. */
  lemma SendWithoutRows(s: State, platforms: map<string, Platform>, iosPayloadKey: string, user: User,
                        message: string, data: Json, badge: Badge, env: SendEnv)
    requires env.selectFault.None? && OfUser(s.targets, user.id) == []
    ensures SendEffect(s, platforms, iosPayloadKey, user, message, data, badge, env)
         == (Record(s, SelectByUser(user.id)), Ok([]))
  {
  }

  /**
   * With every platform configured, send queries the user's rows once, then publishes to
   * each of them once, in row order, with one event per row.
   */
  lemma SendPublishesToEveryRow(s: State, platforms: map<string, Platform>, iosPayloadKey: string, user: User,
                                message: string, data: Json, badge: Badge, env: SendEnv)
    requires env.selectFault.None? && AllKnown(platforms, OfUser(s.targets, user.id))
    ensures var rows := OfUser(s.targets, user.id);
      var s1 := SendEffect(s, platforms, iosPayloadKey, user, message, data, badge, env).0;
      var start := |s.trace| + 1;
      && |s1.trace| >= start && s1.trace[..start] == s.trace + [SelectByUser(user.id)]
      && s1.targets == s.targets && s1.endpoints == s.endpoints
      && PublishTargets(s1.trace[start..]) == Endpoints(rows)
      && Events(s1.trace[start..]) == EventsFor(rows, env.replies)
      && forall op :: op in s1.trace[start..] ==> op.PublishCall? || op.Emitted?
  {
    var rows := OfUser(s.targets, user.id);
    var s0 := Record(s, SelectByUser(user.id));
    FanOutSettlesEveryRow(s0, platforms, iosPayloadKey, rows, message, data, badge, env.replies);
    if rows == [] {
      assert s0.trace[|s0.trace|..] == [];
    } else {
      FanOutPublishesOncePerRow(s0, platforms, iosPayloadKey, rows, message, data, badge, env.replies);
      FanOutEmitsOncePerRow(s0, platforms, iosPayloadKey, rows, message, data, badge, env.replies);
      FanOutOnlyPublishes(s0, platforms, iosPayloadKey, rows, message, data, badge, env.replies);
    }
  }

  /**
   * With every platform configured, send resolves with one message id per row, in row
   * order, exactly when every publish succeeded; otherwise it fails with the first
   * publish error in row order.
   */
  lemma SendSettlesLikeWhenAll(s: State, platforms: map<string, Platform>, iosPayloadKey: string, user: User,
                               message: string, data: Json, badge: Badge, env: SendEnv)
    requires env.selectFault.None? && AllKnown(platforms, OfUser(s.targets, user.id))
    ensures var rows := OfUser(s.targets, user.id);
      var r := SendEffect(s, platforms, iosPayloadKey, user, message, data, badge, env).1;
      && (r.Ok? <==> forall k :: 0 <= k < |rows| ==> env.replies(k).Published?)
      && (r.Ok? ==> |r.value| == |rows| &&
                    forall k :: 0 <= k < |rows| ==> r.value[k] == SettledWith(env.replies(k)).value)
      && (r.Err? ==> exists k :: 0 <= k < |rows| && env.replies(k).PublishFailed? &&
                                 r.error == ProviderError(env.replies(k).reason) &&
                                 forall j :: 0 <= j < k ==> env.replies(j).Published?)
  {
    var rows := OfUser(s.targets, user.id);
    var s0 := Record(s, SelectByUser(user.id));
    FanOutSettlesEveryRow(s0, platforms, iosPayloadKey, rows, message, data, badge, env.replies);
    JoinOfSettled(env.replies, |rows|);
    if rows != [] {
      assert SendEffect(s, platforms, iosPayloadKey, user, message, data, badge, env).1
          == Join(Settled(env.replies, |rows|));
    }
  }

  /** when.all over the first n settled calls: all message ids, or the first publish error. */
  lemma JoinOfSettled(replies: nat -> PublishReply, n: nat)
    ensures var r := Join(Settled(replies, n));
      && (r.Ok? <==> forall k :: 0 <= k < n ==> replies(k).Published?)
      && (r.Ok? ==> |r.value| == n && forall k :: 0 <= k < n ==> r.value[k] == SettledWith(replies(k)).value)
      && (r.Err? ==> exists k :: 0 <= k < n && replies(k).PublishFailed? &&
                                 r.error == ProviderError(replies(k).reason) &&
                                 forall j :: 0 <= j < k ==> replies(j).Published?)
  {
    var results := Settled(replies, n);
    assert forall k :: 0 <= k < n ==> (results[k].Ok? <==> replies(k).Published?);
  }

  /** The compiled send never rejects: every failure of the TypeScript send becomes a resolved None. */
  lemma AbsorbingSendResolves(s: State, platforms: map<string, Platform>, iosPayloadKey: string, user: User,
                              message: string, data: Json, badge: Badge, env: SendEnv)
    ensures var (s1, r) := SendEffect(s, platforms, iosPayloadKey, user, message, data, badge, env);
      var (s2, a) := SendAbsorbingEffect(s, platforms, iosPayloadKey, user, message, data, badge, env);
      s2 == s1 && (a.None? <==> r.Err?) && (r.Ok? ==> a == Some(r.value))
  {
  }
}
