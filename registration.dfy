/**
 * The registration reconciler: on_login and register. Reconcile follows the
 * TypeScript register, which surfaces every failure; Register follows the
 * compiled register, whose `.catch` absorbs every failure of the promise chain.
 */
module Registration {
  import opened Outcomes
  import opened Json
  import opened PushTargets
  import opened Registry
  import opened Effects

  /** The store and provider outcomes a register call meets, one per call it can make. */
  datatype RegisterEnv = RegisterEnv(
    selectFault: Option<string>,      // query_single on device_id
    getUserFault: Option<string>,     // getUser
    deleteUserFault: Option<string>,  // deleteUser
    deleteRowsFault: Option<string>,  // DELETE ... WHERE device_id
    addUser: AddUserReply)            // addUser: the created endpoint or an error

  /** How a compiled register call ends: its promise resolves, or get_platform throws first. */
  datatype Completion = Resolved | Threw(error: Error)

  /** The `args` of a user.login event; fields are optional for older callers. */
  datatype LoginArgs = LoginArgs(platform: Option<string>, deviceId: Option<string>)

  /** The anonymous-user guard of register. */
  predicate IsAnonymous(user: User) {
    user.username == Some("anonymous") || user.name == Some("anonymous")
  }

  /** The (platform, device_id) pair on_login registers, when args and both fields are truthy. */
  function LoginTarget(args: Option<LoginArgs>): (t: Option<(string, string)>)
    ensures t.Some? <==> args.Some? && Truthy(args.value.platform) && Truthy(args.value.deviceId)
    ensures t.Some? ==> t.value == (args.value.platform.value, args.value.deviceId.value)
  {
    if args.Some? && Truthy(args.value.platform) && Truthy(args.value.deviceId) then
      Some((args.value.platform.value, args.value.deviceId.value))
    else None
  }

  /** update_records: delete endpoint, delete row, create endpoint (with its insert), each only after the last succeeded. */
  function ReplaceEffect(s: State, row: Row, user: User, platform: Platform, deviceId: string, env: RegisterEnv)
    : (State, Result<()>)
  {
    var (s1, deleted) := DeleteEndpointEffect(s, platform, row.endpoint, env.deleteUserFault);
    if deleted.Err? then (s1, deleted)
    else
      var (s2, dropped) := DeleteByDeviceEffect(s1, deviceId, env.deleteRowsFault);
      if dropped.Err? then (s2, dropped)
      else CreateEndpointEffect(s2, user, platform, deviceId, env.addUser)
  }

  /** The promise chain of register, after the platform has been found. */
  function ChainEffect(s: State, user: User, platform: Platform, deviceId: string, env: RegisterEnv)
    : (State, Result<()>)
  {
    var (s1, found) := SelectByDeviceEffect(s, deviceId, env.selectFault);
    if found.Err? then (s1, Err(found.error))
    else match found.value
      case None => CreateEndpointEffect(s1, user, platform, deviceId, env.addUser)
      case Some(row) =>
        if row.user == user.id then
          var (s2, enabled) := GetUserEffect(s1, platform, row.endpoint, env.getUserFault);
          if enabled.Err? then (s2, Err(enabled.error))
          else if enabled.value == "false" then ReplaceEffect(s2, row, user, platform, deviceId, env)
          else (s2, Ok(()))
        else ReplaceEffect(s1, row, user, platform, deviceId, env)
  }

  /** register as in the TypeScript source: Err(NoPlatform) is the synchronous throw, other errors reject. */
  function ReconcileEffect(s: State, platforms: map<string, Platform>, user: User, platformName: string,
                           deviceId: string, env: RegisterEnv): (State, Result<()>)
  {
    if IsAnonymous(user) then (s, Ok(()))
    else match GetPlatform(platforms, platformName)
      case Err(e) => (s, Err(e))
      case Ok(platform) => ChainEffect(s, user, platform, deviceId, env)
  }

  /** register as compiled: the chain's failures are caught and logged; only get_platform's throw escapes. */
  function RegisterEffect(s: State, platforms: map<string, Platform>, user: User, platformName: string,
                          deviceId: string, env: RegisterEnv): (State, Completion)
  {
    if IsAnonymous(user) then (s, Resolved)
    else match GetPlatform(platforms, platformName)
      case Err(e) => (s, Threw(e))
      case Ok(platform) => (ChainEffect(s, user, platform, deviceId, env).0, Resolved)
  }

  // ---- properties ----

  /** Every step of the chain fails with a store or provider error, never a platform error. */
  lemma ChainNeverThrows(s: State, user: User, platform: Platform, deviceId: string, env: RegisterEnv)
    ensures var r := ChainEffect(s, user, platform, deviceId, env).1; r.Err? ==> !r.error.NoPlatform?
  {
  }

  /**
   * The compiled register changes the state exactly as the TypeScript one and completes
   * normally unless the TypeScript one fails with the unknown-platform error.
   */
  lemma RegisterAbsorbsChainFailures(s: State, platforms: map<string, Platform>, user: User,
                                     platformName: string, deviceId: string, env: RegisterEnv)
    ensures var (s1, r) := ReconcileEffect(s, platforms, user, platformName, deviceId, env);
      && RegisterEffect(s, platforms, user, platformName, deviceId, env).0 == s1
      && RegisterEffect(s, platforms, user, platformName, deviceId, env).1
         == (if r.Err? && r.error.NoPlatform? then Threw(r.error) else Resolved)
  {
    if !IsAnonymous(user) && platformName in platforms {
      ChainNeverThrows(s, user, platforms[platformName], deviceId, env);
    }
  }

  /** An anonymous user touches neither the store nor the provider. */
  lemma AnonymousIsNoOp(s: State, platforms: map<string, Platform>, user: User, platformName: string,
                        deviceId: string, env: RegisterEnv)
    requires IsAnonymous(user)
    ensures ReconcileEffect(s, platforms, user, platformName, deviceId, env) == (s, Ok(()))
    ensures RegisterEffect(s, platforms, user, platformName, deviceId, env) == (s, Resolved)
  {
  }

  /** An unknown platform name fails before the store is queried, and escapes the compiled register. */
  lemma UnknownPlatformFailsFirst(s: State, platforms: map<string, Platform>, user: User, platformName: string,
                                  deviceId: string, env: RegisterEnv)
    requires !IsAnonymous(user) && platformName !in platforms
    ensures ReconcileEffect(s, platforms, user, platformName, deviceId, env) == (s, Err(NoPlatform(platformName)))
    ensures RegisterEffect(s, platforms, user, platformName, deviceId, env) == (s, Threw(NoPlatform(platformName)))
  {
  }

  /** A failed device lookup is the only step taken. */
  lemma SelectFailureStops(s: State, platforms: map<string, Platform>, user: User, platformName: string,
                           deviceId: string, env: RegisterEnv)
    requires !IsAnonymous(user) && platformName in platforms && env.selectFault.Some?
    ensures ReconcileEffect(s, platforms, user, platformName, deviceId, env)
      == (Record(s, SelectByDevice(deviceId)), Err(StoreError(env.selectFault.value)))
  {
  }

  /**
   * No row for the device: one addUser, then one insert of (user, device, new endpoint,
   * platform); if addUser fails, nothing is inserted and the error surfaces.
   */
  lemma NewDeviceIsCreated(s: State, platforms: map<string, Platform>, user: User, platformName: string,
                           deviceId: string, env: RegisterEnv)
    requires !IsAnonymous(user) && platformName in platforms && env.selectFault.None?
    requires forall r :: r in s.targets ==> r.deviceId != deviceId
    ensures var p := platforms[platformName];
      var calls := s.trace + [SelectByDevice(deviceId), AddUserCall(p.name, deviceId, UserData(user.id))];
      ReconcileEffect(s, platforms, user, platformName, deviceId, env) ==
        match env.addUser
        case Created(endpoint) =>
          var row := Row(user.id, deviceId, endpoint, p.name);
          (State(s.targets + [row], s.endpoints[endpoint := "true"], calls + [InsertRow(row)]), Ok(()))
        case AddUserFailed(reason) =>
          (State(s.targets, s.endpoints, calls), Err(ProviderError(reason)))
  {
    assert ForDevice(s.targets, deviceId) == None by {
      forall i | 0 <= i < |s.targets| ensures s.targets[i].deviceId != deviceId {
        assert s.targets[i] in s.targets;
      }
    }
    var p := platforms[platformName];
    var calls := s.trace + [SelectByDevice(deviceId), AddUserCall(p.name, deviceId, UserData(user.id))];
    assert Record(Record(s, SelectByDevice(deviceId)), AddUserCall(p.name, deviceId, UserData(user.id))).trace == calls;
  }

  /**
   * Same owner, endpoint reported enabled (any `Enabled` other than "false"): the only
   * provider call is getUser, made with the login's platform, and table and endpoints are
   * unchanged. The login's platform need not be the one stored in the row.
   */
  lemma HealthyEndpointIsKept(s: State, platforms: map<string, Platform>, user: User, platformName: string,
                              row: Row, env: RegisterEnv)
    requires UniqueDevices(s.targets) && row in s.targets && row.user == user.id
    requires !IsAnonymous(user) && platformName in platforms
    requires env.selectFault.None? && env.getUserFault.None?
    requires row.endpoint in s.endpoints && s.endpoints[row.endpoint] != "false"
    ensures ReconcileEffect(s, platforms, user, platformName, row.deviceId, env) ==
      (State(s.targets, s.endpoints,
             s.trace + [SelectByDevice(row.deviceId), GetUserCall(platforms[platformName].name, row.endpoint)]),
       Ok(()))
  {
    ForDeviceIsTheRow(s.targets, row);
    var p := platforms[platformName];
    assert Record(Record(s, SelectByDevice(row.deviceId)), GetUserCall(p.name, row.endpoint)).trace
      == s.trace + [SelectByDevice(row.deviceId), GetUserCall(p.name, row.endpoint)];
  }

  /**
   * Same owner, getUser rejecting (a provider fault, or an endpoint the provider does not
   * hold): no `Enabled` value is assumed, nothing is replaced, and the error surfaces.
   */
  lemma GetUserFailureStops(s: State, platforms: map<string, Platform>, user: User, platformName: string,
                            row: Row, env: RegisterEnv)
    requires UniqueDevices(s.targets) && row in s.targets && row.user == user.id
    requires !IsAnonymous(user) && platformName in platforms
    requires env.selectFault.None?
    requires env.getUserFault.Some? || row.endpoint !in s.endpoints
    ensures ReconcileEffect(s, platforms, user, platformName, row.deviceId, env) ==
      (State(s.targets, s.endpoints,
             s.trace + [SelectByDevice(row.deviceId), GetUserCall(platforms[platformName].name, row.endpoint)]),
       Err(ProviderError(if env.getUserFault.Some? then env.getUserFault.value else "NotFound")))
  {
    ForDeviceIsTheRow(s.targets, row);
    var p := platforms[platformName];
    assert Record(Record(s, SelectByDevice(row.deviceId)), GetUserCall(p.name, row.endpoint)).trace
      == s.trace + [SelectByDevice(row.deviceId), GetUserCall(p.name, row.endpoint)];
  }

  /**
   * Same owner, endpoint reported disabled, every step succeeding: getUser, deleteUser of
   * the old endpoint, row delete, addUser, insert, in that order, all with the login's
   * platform, which the new row records.
   */
  lemma DisabledEndpointIsReplaced(s: State, platforms: map<string, Platform>, user: User, platformName: string,
                                   row: Row, env: RegisterEnv, created: string)
    requires UniqueDevices(s.targets) && row in s.targets && row.user == user.id
    requires !IsAnonymous(user) && platformName in platforms
    requires env.selectFault.None? && env.getUserFault.None? && env.deleteUserFault.None?
    requires env.deleteRowsFault.None? && env.addUser == Created(created)
    requires row.endpoint in s.endpoints && s.endpoints[row.endpoint] == "false"
    ensures var p := platforms[platformName].name;
      var d := row.deviceId;
      var newRow := Row(user.id, d, created, p);
      ReconcileEffect(s, platforms, user, platformName, d, env) ==
        (State(WithoutDevice(s.targets, d) + [newRow], (s.endpoints - {row.endpoint})[created := "true"],
               s.trace + [SelectByDevice(d), GetUserCall(p, row.endpoint), DeleteUserCall(p, row.endpoint),
                          DeleteByDevice(d), AddUserCall(p, d, UserData(user.id)), InsertRow(newRow)]),
         Ok(()))
  {
    ForDeviceIsTheRow(s.targets, row);
    var p := platforms[platformName].name;
    var d := row.deviceId;
    var t := s.trace;
    assert t + [SelectByDevice(d)] + [GetUserCall(p, row.endpoint)] + [DeleteUserCall(p, row.endpoint)]
             + [DeleteByDevice(d)] + [AddUserCall(p, d, UserData(user.id))] + [InsertRow(Row(user.id, d, created, p))]
      == t + [SelectByDevice(d), GetUserCall(p, row.endpoint), DeleteUserCall(p, row.endpoint),
              DeleteByDevice(d), AddUserCall(p, d, UserData(user.id)), InsertRow(Row(user.id, d, created, p))];
  }

  /** One recorded step followed by several is the trace with all of them appended. */
  lemma PrependStep(t: seq<Op>, first: Op, a: Op, b: Op, c: Op, d: Op)
    ensures (t + [first]) + [a, b, c, d] == t + [first, a, b, c, d]
  {
    assert [first] + [a, b, c, d] == [first, a, b, c, d];
  }

  /** A different owner: after the device query, register is exactly update_records. */
  lemma ReassignedDeviceIsReplaced(s: State, platforms: map<string, Platform>, user: User,
                                   platformName: string, row: Row, env: RegisterEnv)
    requires UniqueDevices(s.targets) && row in s.targets && row.user != user.id
    requires !IsAnonymous(user) && platformName in platforms && env.selectFault.None?
    ensures ReconcileEffect(s, platforms, user, platformName, row.deviceId, env) ==
      ReplaceEffect(Record(s, SelectByDevice(row.deviceId)), row, user, platforms[platformName], row.deviceId, env)
  {
    ForDeviceIsTheRow(s.targets, row);
  }

  /** update_records with every step succeeding: the old endpoint and the device's rows go, the new ones come. */
  lemma ReplaceSucceeds(s: State, row: Row, user: User, platform: Platform, deviceId: string,
                        env: RegisterEnv, created: string)
    requires env.deleteUserFault.None? && env.deleteRowsFault.None? && env.addUser == Created(created)
    ensures var newRow := Row(user.id, deviceId, created, platform.name);
      ReplaceEffect(s, row, user, platform, deviceId, env) ==
        (State(WithoutDevice(s.targets, deviceId) + [newRow], (s.endpoints - {row.endpoint})[created := "true"],
               s.trace + [DeleteUserCall(platform.name, row.endpoint), DeleteByDevice(deviceId),
                          AddUserCall(platform.name, deviceId, UserData(user.id)), InsertRow(newRow)]),
         Ok(()))
  {
    var t := s.trace;
    var newRow := Row(user.id, deviceId, created, platform.name);
    assert t + [DeleteUserCall(platform.name, row.endpoint)] + [DeleteByDevice(deviceId)]
             + [AddUserCall(platform.name, deviceId, UserData(user.id))] + [InsertRow(newRow)]
      == t + [DeleteUserCall(platform.name, row.endpoint), DeleteByDevice(deviceId),
              AddUserCall(platform.name, deviceId, UserData(user.id)), InsertRow(newRow)];
  }

  /**
   * A different owner: the replace runs without getUser, every other device's rows stay as
   * they were, and afterwards the device has exactly one row, owned by the new user, holding
   * the created endpoint and the login's platform.
   */
  lemma ReassignedDeviceMovesToNewOwner(s: State, platforms: map<string, Platform>, user: User,
                                        platformName: string, row: Row, env: RegisterEnv, created: string)
    requires UniqueDevices(s.targets) && row in s.targets && row.user != user.id
    requires !IsAnonymous(user) && platformName in platforms
    requires env.selectFault.None? && env.deleteUserFault.None?
    requires env.deleteRowsFault.None? && env.addUser == Created(created)
    ensures var p := platforms[platformName].name;
      var d := row.deviceId;
      var newRow := Row(user.id, d, created, p);
      var targets := WithoutDevice(s.targets, d) + [newRow];
      && ReconcileEffect(s, platforms, user, platformName, d, env) ==
           (State(targets, (s.endpoints - {row.endpoint})[created := "true"],
                  s.trace + [SelectByDevice(d), DeleteUserCall(p, row.endpoint), DeleteByDevice(d),
                             AddUserCall(p, d, UserData(user.id)), InsertRow(newRow)]),
            Ok(()))
      && RowsFor(targets, d) == [newRow]
  {
    var platform := platforms[platformName];
    var p := platform.name;
    var d := row.deviceId;
    var s0 := Record(s, SelectByDevice(d));
    ReassignedDeviceIsReplaced(s, platforms, user, platformName, row, env);
    assert s0.targets == s.targets && s0.endpoints == s.endpoints && s0.trace == s.trace + [SelectByDevice(d)];
    ReplaceSucceeds(s0, row, user, platform, d, env, created);
    ReplacedRowIsOnlyRow(s.targets, Row(user.id, d, created, p));
    PrependStep(s.trace, SelectByDevice(d), DeleteUserCall(p, row.endpoint), DeleteByDevice(d),
                AddUserCall(p, d, UserData(user.id)), InsertRow(Row(user.id, d, created, p)));
  }

  /**
   * A replace stops at its first failing step: a failed deleteUser leaves the row, a failed
   * row delete creates no endpoint, a failed addUser inserts nothing.
   */
  lemma ReplaceStopsAtFirstFailure(s: State, row: Row, user: User, platform: Platform, deviceId: string,
                                   env: RegisterEnv)
    ensures var (s1, r) := ReplaceEffect(s, row, user, platform, deviceId, env);
      var p := platform.name;
      && (env.deleteUserFault.Some? ==>
            (s1, r) == (State(s.targets, s.endpoints, s.trace + [DeleteUserCall(p, row.endpoint)]),
                        Err(ProviderError(env.deleteUserFault.value))))
      && (env.deleteUserFault.None? && env.deleteRowsFault.Some? ==>
            (s1, r) == (State(s.targets, s.endpoints - {row.endpoint},
                              s.trace + [DeleteUserCall(p, row.endpoint), DeleteByDevice(deviceId)]),
                        Err(StoreError(env.deleteRowsFault.value))))
      && (env.deleteUserFault.None? && env.deleteRowsFault.None? && env.addUser.AddUserFailed? ==>
            (s1, r) == (State(WithoutDevice(s.targets, deviceId), s.endpoints - {row.endpoint},
                              s.trace + [DeleteUserCall(p, row.endpoint), DeleteByDevice(deviceId),
                                         AddUserCall(p, deviceId, UserData(user.id))]),
                        Err(ProviderError(env.addUser.reason))))
  {
    var p := platform.name;
    var t := s.trace;
    assert t + [DeleteUserCall(p, row.endpoint)] + [DeleteByDevice(deviceId)]
      == t + [DeleteUserCall(p, row.endpoint), DeleteByDevice(deviceId)];
    assert t + [DeleteUserCall(p, row.endpoint)] + [DeleteByDevice(deviceId)] + [AddUserCall(p, deviceId, UserData(user.id))]
      == t + [DeleteUserCall(p, row.endpoint), DeleteByDevice(deviceId), AddUserCall(p, deviceId, UserData(user.id))];
  }

  /** register keeps "at most one row per device_id". */
  lemma ReconcileKeepsUniqueDevices(s: State, platforms: map<string, Platform>, user: User, platformName: string,
                                    deviceId: string, env: RegisterEnv)
    requires UniqueDevices(s.targets)
    ensures UniqueDevices(ReconcileEffect(s, platforms, user, platformName, deviceId, env).0.targets)
  {
    if !IsAnonymous(user) && platformName in platforms && env.selectFault.None? {
      var platform := platforms[platformName];
      var row := Row(user.id, deviceId, if env.addUser.Created? then env.addUser.endpoint else "", platform.name);
      match ForDevice(s.targets, deviceId)
      case None =>
        AppendKeepsUnique(s.targets, row);
      case Some(_) =>
        WithoutDeviceKeepsUnique(s.targets, deviceId);
        AppendKeepsUnique(WithoutDevice(s.targets, deviceId), row);
    }
  }

  /** register only appends to the trace. */
  lemma ReconcileOnlyAppendsTrace(s: State, platforms: map<string, Platform>, user: User, platformName: string,
                                  deviceId: string, env: RegisterEnv)
    ensures var s1 := ReconcileEffect(s, platforms, user, platformName, deviceId, env).0;
      |s.trace| <= |s1.trace| && s1.trace[..|s.trace|] == s.trace
  {
  }

  /**
   * A device that registers, whose endpoint the provider then disables, and that registers
   * again, ends with the second endpoint as its only row, and the first endpoint deleted.
   */
  lemma ReRegisterAfterDisable(s: State, platforms: map<string, Platform>, user: User, platformName: string,
                               deviceId: string, first: string, second: string)
    requires UniqueDevices(s.targets) && forall r :: r in s.targets ==> r.deviceId != deviceId
    requires !IsAnonymous(user) && platformName in platforms && first != second
    ensures
      var ok1 := RegisterEnv(None, None, None, None, Created(first));
      var ok2 := RegisterEnv(None, None, None, None, Created(second));
      var (s1, r1) := ReconcileEffect(s, platforms, user, platformName, deviceId, ok1);
      var disabled := s1.(endpoints := s1.endpoints[first := "false"]);
      var (s2, r2) := ReconcileEffect(disabled, platforms, user, platformName, deviceId, ok2);
      && r1 == Ok(()) && r2 == Ok(())
      && RowsFor(s2.targets, deviceId) == [Row(user.id, deviceId, second, platforms[platformName].name)]
      && first !in s2.endpoints && second in s2.endpoints
  {
    var p := platforms[platformName];
    var ok1 := RegisterEnv(None, None, None, None, Created(first));
    var ok2 := RegisterEnv(None, None, None, None, Created(second));
    NewDeviceIsCreated(s, platforms, user, platformName, deviceId, ok1);
    var (s1, r1) := ReconcileEffect(s, platforms, user, platformName, deviceId, ok1);
    var row := Row(user.id, deviceId, first, p.name);
    assert s1.targets == s.targets + [row];
    AppendKeepsUnique(s.targets, row);
    var disabled := s1.(endpoints := s1.endpoints[first := "false"]);
    ForDeviceIsTheRow(disabled.targets, row);
    assert row.platform == p.name;
    assert ForDevice(disabled.targets, deviceId) == Some(row);
    var (s2, r2) := ReconcileEffect(disabled, platforms, user, platformName, deviceId, ok2);
    ReplacedRowIsOnlyRow(disabled.targets, Row(user.id, deviceId, second, p.name));
  }
}
