/**
 * The Songbird_SNS bulb as an object: its platform registry, the push_targets table,
 * the provider's endpoints and the trace of operations are fields that its methods
 * update in place, step by step. Each method is proved against the step or effect
 * function that specifies it; the properties of those functions are lemmas in
 * Effects, Registration and Dispatch.
 */
module Songbird {
  import opened Outcomes
  import opened Json
  import opened Payload
  import opened PushTargets
  import opened Registry
  import opened Effects
  import Registration
  import Dispatch

  class SongbirdSns {
    const config: Config
    var platforms: map<string, Platform>
    var targets: seq<Row>
    var endpoints: map<string, string>
    var trace: seq<Op>

    /** The table invariant: at most one row per device_id. */
    ghost predicate Valid()
      reads this
    {
      UniqueDevices(targets)
    }

    function Snapshot(): State
      reads this
    {
      State(targets, endpoints, trace)
    }

    constructor (config: Config)
      ensures this.config == config && platforms == map[]
      ensures targets == [] && endpoints == map[] && trace == []
      ensures Valid()
    {
      this.config := config;
      platforms, targets, endpoints, trace := map[], [], map[], [];
    }

    /** The configuration step of grow: one platform per configured ARN. */
    method Grow()
      modifies this`platforms
      ensures platforms == old(platforms) + ConfiguredPlatforms(config)
    {
      if Truthy(config.androidArn) {
        CreatePlatform("android", config.androidArn.value);
      }
      if Truthy(config.iosArn) {
        CreatePlatform("ios", config.iosArn.value);
      }
      assert platforms.Keys == old(platforms).Keys + ConfiguredPlatforms(config).Keys;
    }

    method CreatePlatform(name: string, arn: string)
      modifies this`platforms
      ensures platforms == old(platforms)[name := NewPlatform(config, name, arn)]
    {
      platforms := platforms[name := NewPlatform(config, name, arn)];
    }

    // ---- store and provider calls ----

    method SelectDevice(deviceId: string, fault: Option<string>) returns (r: Result<Option<Row>>)
      modifies this`trace
      ensures (Snapshot(), r) == SelectByDeviceEffect(old(Snapshot()), deviceId, fault)
    {
      trace := trace + [SelectByDevice(deviceId)];
      if fault.Some? {
        r := Err(StoreError(fault.value));
      } else {
        r := Ok(ForDevice(targets, deviceId));
      }
    }

    method SelectUser(user: int, fault: Option<string>) returns (r: Result<seq<Row>>)
      modifies this`trace
      ensures (Snapshot(), r) == SelectByUserEffect(old(Snapshot()), user, fault)
    {
      trace := trace + [SelectByUser(user)];
      if fault.Some? {
        r := Err(StoreError(fault.value));
      } else {
        r := Ok(OfUser(targets, user));
      }
    }

    method DeleteRows(deviceId: string, fault: Option<string>) returns (r: Result<()>)
      modifies this`targets, this`trace
      ensures (Snapshot(), r) == DeleteByDeviceEffect(old(Snapshot()), deviceId, fault)
    {
      trace := trace + [DeleteByDevice(deviceId)];
      if fault.Some? {
        r := Err(StoreError(fault.value));
      } else {
        targets := WithoutDevice(targets, deviceId);
        r := Ok(());
      }
    }

    method Insert(row: Row)
      modifies this`targets, this`trace
      ensures Snapshot() == InsertEffect(old(Snapshot()), row)
    {
      trace := trace + [InsertRow(row)];
      targets := targets + [row];
    }

    method GetUser(platform: Platform, endpoint: string, fault: Option<string>) returns (r: Result<string>)
      modifies this`trace
      ensures (Snapshot(), r) == GetUserEffect(old(Snapshot()), platform, endpoint, fault)
    {
      trace := trace + [GetUserCall(platform.name, endpoint)];
      if fault.Some? {
        r := Err(ProviderError(fault.value));
      } else if endpoint !in endpoints {
        r := Err(ProviderError("NotFound"));
      } else {
        r := Ok(endpoints[endpoint]);
      }
    }

    method DeleteEndpoint(endpoint: string, platform: Platform, fault: Option<string>) returns (r: Result<()>)
      modifies this`endpoints, this`trace
      ensures (Snapshot(), r) == DeleteEndpointEffect(old(Snapshot()), platform, endpoint, fault)
    {
      trace := trace + [DeleteUserCall(platform.name, endpoint)];
      if fault.Some? {
        r := Err(ProviderError(fault.value));
      } else {
        endpoints := endpoints - {endpoint};
        r := Ok(());
      }
    }

    method CreateEndpoint(user: User, platform: Platform, deviceId: string, reply: AddUserReply)
      returns (r: Result<()>)
      modifies this`targets, this`endpoints, this`trace
      ensures (Snapshot(), r) == CreateEndpointEffect(old(Snapshot()), user, platform, deviceId, reply)
    {
      trace := trace + [AddUserCall(platform.name, deviceId, UserData(user.id))];
      match reply
      case AddUserFailed(reason) =>
        r := Err(ProviderError(reason));
      case Created(endpoint) =>
        endpoints := endpoints[endpoint := "true"];
        Insert(Row(user.id, deviceId, endpoint, platform.name));
        r := Ok(());
    }

    // ---- register ----

    /** update_records: each step runs only after the previous one succeeded. */
    method Replace(row: Row, user: User, platform: Platform, deviceId: string, env: Registration.RegisterEnv)
      returns (r: Result<()>)
      modifies this`targets, this`endpoints, this`trace
      ensures (Snapshot(), r) == Registration.ReplaceEffect(old(Snapshot()), row, user, platform, deviceId, env)
    {
      r := DeleteEndpoint(row.endpoint, platform, env.deleteUserFault);
      if r.Err? {
        return;
      }
      r := DeleteRows(deviceId, env.deleteRowsFault);
      if r.Err? {
        return;
      }
      r := CreateEndpoint(user, platform, deviceId, env.addUser);
    }

    /** The promise chain of register, after get_platform. */
    method Chain(user: User, platform: Platform, deviceId: string, env: Registration.RegisterEnv)
      returns (r: Result<()>)
      modifies this`targets, this`endpoints, this`trace
      ensures (Snapshot(), r) == Registration.ChainEffect(old(Snapshot()), user, platform, deviceId, env)
    {
      var found := SelectDevice(deviceId, env.selectFault);
      if found.Err? {
        return Err(found.error);
      }
      match found.value
      case None =>
        r := CreateEndpoint(user, platform, deviceId, env.addUser);
      case Some(row) =>
        if row.user == user.id {
          var enabled := GetUser(platform, row.endpoint, env.getUserFault);
          if enabled.Err? {
            return Err(enabled.error);
          }
          if enabled.value == "false" {
            r := Replace(row, user, platform, deviceId, env);
          } else {
            r := Ok(());
          }
        } else {
          r := Replace(row, user, platform, deviceId, env);
        }
    }

    /** register as in the TypeScript source: every failure surfaces. */
    method Reconcile(user: User, platformName: string, deviceId: string, env: Registration.RegisterEnv)
      returns (r: Result<()>)
      requires Valid()
      modifies this`targets, this`endpoints, this`trace
      ensures Valid()
      ensures (Snapshot(), r) == Registration.ReconcileEffect(old(Snapshot()), platforms, user, platformName, deviceId, env)
    {
      Registration.ReconcileKeepsUniqueDevices(Snapshot(), platforms, user, platformName, deviceId, env);
      if Registration.IsAnonymous(user) {
        return Ok(());
      }
      var platform := GetPlatform(platforms, platformName);
      if platform.Err? {
        return Err(platform.error);
      }
      r := Chain(user, platform.value, deviceId, env);
    }

    /** register as compiled: the chain's failures are caught; get_platform's throw is not. */
    method Register(user: User, platformName: string, deviceId: string, env: Registration.RegisterEnv)
      returns (c: Registration.Completion)
      requires Valid()
      modifies this`targets, this`endpoints, this`trace
      ensures Valid()
      ensures (Snapshot(), c) == Registration.RegisterEffect(old(Snapshot()), platforms, user, platformName, deviceId, env)
    {
      Registration.ReconcileKeepsUniqueDevices(Snapshot(), platforms, user, platformName, deviceId, env);
      if Registration.IsAnonymous(user) {
        return Registration.Resolved;
      }
      var platform := GetPlatform(platforms, platformName);
      if platform.Err? {
        return Registration.Threw(platform.error);
      }
      var _ := Chain(user, platform.value, deviceId, env);
      c := Registration.Resolved;
    }

    /** on_login: register only when args, args.platform and args.device_id are all truthy. */
    method OnLogin(user: User, args: Option<Registration.LoginArgs>, env: Registration.RegisterEnv)
      returns (c: Registration.Completion)
      requires Valid()
      modifies this`targets, this`endpoints, this`trace
      ensures Valid()
      ensures Registration.LoginTarget(args).None? ==> c == Registration.Resolved && Snapshot() == old(Snapshot())
      ensures Registration.LoginTarget(args).Some? ==>
        var (platformName, deviceId) := Registration.LoginTarget(args).value;
        (Snapshot(), c) == Registration.RegisterEffect(old(Snapshot()), platforms, user, platformName, deviceId, env)
    {
      var target := Registration.LoginTarget(args);
      if target.Some? {
        c := Register(user, target.value.0, target.value.1, env);
      } else {
        c := Registration.Resolved;
      }
    }

    // ---- send ----

    /** publish: the sns.publish call, then one emitted event; returns the callback's arguments. */
    method Publish(platform: Platform, endpoint: string, wire: WireMessage, reply: PublishReply)
      returns (callback: CallbackArgs)
      modifies this`trace
      ensures (Snapshot(), callback) == PublishEffect(old(Snapshot()), platform, endpoint, wire, reply)
    {
      trace := trace + [PublishCall(platform.name, PublishRequest(wire, endpoint, "json"))];
      trace := trace + [Emitted(platform.name, EventFor(endpoint, reply))];
      callback := CallbackFor(reply);
    }

    /** send_to_endpoint: Err(NoPlatform) is its synchronous throw; other results settle its deferred. */
    method SendToEndpoint(platformName: string, endpoint: string, message: string, data: Json, badge: Badge,
                          reply: PublishReply) returns (r: Result<Option<string>>)
      modifies this`trace
      ensures (Snapshot(), r) == Dispatch.SendToEndpointEffect(old(Snapshot()), platforms, config.iosPayloadKey,
                                                               platformName, endpoint, message, data, badge, reply)
    {
      var platform := GetPlatform(platforms, platformName);
      if platform.Err? {
        return Err(platform.error);
      }
      var wire := Shape(platformName, config.iosPayloadKey, message, data, badge);
      var callback := Publish(platform.value, endpoint, wire, reply);
      if callback.error.Some? {
        r := Err(ProviderError(callback.error.value));
      } else {
        r := Ok(callback.messageId);
      }
    }

    /** `rows.map(send_to_endpoint)`, visited in row order; a synchronous throw stops the map. */
    method SendToRows(rows: seq<Row>, message: string, data: Json, badge: Badge, replies: nat -> PublishReply)
      returns (results: seq<Result<Option<string>>>, stopped: Option<Error>)
      modifies this`trace
      ensures (Snapshot(), results, stopped)
           == Dispatch.FanOut(old(Snapshot()), platforms, config.iosPayloadKey, rows, message, data, badge, replies)
    {
      ghost var start := Snapshot();
      results, stopped := [], None;
      var k := 0;
      while k < |rows|
        invariant 0 <= k <= |rows|
        invariant Dispatch.FanOut(start, platforms, config.iosPayloadKey, rows[..k], message, data, badge, replies)
               == (Snapshot(), results, None)
      {
        ghost var before := Snapshot();
        var res := SendToEndpoint(rows[k].platform, rows[k].endpoint, message, data, badge, replies(k));
        Dispatch.FanOutAdvance(start, platforms, config.iosPayloadKey, rows, k, message, data, badge, replies,
                               before, results, Snapshot(), res);
        if res.Err? && res.error.NoPlatform? {
          stopped := Some(res.error);
          return;
        }
        results := results + [res];
        k := k + 1;
      }
      assert rows[..k] == rows;
    }

    /** send as in the TypeScript source: the rows' results are joined like when.all. */
    method SendSettled(user: User, message: string, data: Json, badge: Badge, env: Dispatch.SendEnv)
      returns (r: Result<seq<Option<string>>>)
      modifies this`trace
      ensures (Snapshot(), r) == Dispatch.SendEffect(old(Snapshot()), platforms, config.iosPayloadKey, user,
                                                     message, data, badge, env)
    {
      var found := SelectUser(user.id, env.selectFault);
      if found.Err? {
        return Err(found.error);
      }
      var rows := found.value;
      if |rows| == 0 {
        return Ok([]);
      }
      var results, stopped := SendToRows(rows, message, data, badge, env.replies);
      if stopped.Some? {
        return Err(stopped.value);
      }
      r := Dispatch.Join(results);
    }

    /** send as compiled: a failure is caught and logged, and the promise resolves with no value. */
    method Send(user: User, message: string, data: Json, badge: Badge, env: Dispatch.SendEnv)
      returns (r: Option<seq<Option<string>>>)
      modifies this`trace
      ensures (Snapshot(), r) == Dispatch.SendAbsorbingEffect(old(Snapshot()), platforms, config.iosPayloadKey,
                                                              user, message, data, badge, env)
    {
      var settled := SendSettled(user, message, data, badge, env);
      r := if settled.Ok? then Some(settled.value) else None;
    }
  }
}
