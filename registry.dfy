/** The platform registry: configuration, platform handles and lookup by name. */
module Registry {
  import opened Outcomes

  /** The options the bulb reads from its configuration. */
  datatype Config = Config(
    region: string,
    apiVersion: string,
    snsKeyId: string,
    snsAccessKey: string,
    androidArn: Option<string>,
    iosArn: Option<string>,
    iosPayloadKey: string)

  /** What an sns-mobile handle is created with; `name` is the handle's `platform` property. */
  datatype Platform = Platform(
    name: string,
    region: string,
    apiVersion: string,
    accessKeyId: string,
    secretAccessKey: string,
    applicationArn: string)

  /** The handle create_platform builds for a name and an application ARN. */
  function NewPlatform(config: Config, name: string, arn: string): Platform {
    Platform(name, config.region, config.apiVersion, config.snsKeyId, config.snsAccessKey, arn)
  }

  /** The entries grow adds to the registry: one per configured (truthy) ARN. */
  function ConfiguredPlatforms(config: Config): (m: map<string, Platform>)
    ensures "android" in m <==> Truthy(config.androidArn)
    ensures "ios" in m <==> Truthy(config.iosArn)
    ensures forall name :: name in m ==> name == "android" || name == "ios"
    ensures "android" in m ==> m["android"] == NewPlatform(config, "android", config.androidArn.value)
    ensures "ios" in m ==> m["ios"] == NewPlatform(config, "ios", config.iosArn.value)
  {
    var android: map<string, Platform> :=
      if Truthy(config.androidArn) then map["android" := NewPlatform(config, "android", config.androidArn.value)]
      else map[];
    if Truthy(config.iosArn) then android["ios" := NewPlatform(config, "ios", config.iosArn.value)]
    else android
  }

  /** get_platform: the platform stored under `name`, or the "no platform configuration" error. */
  function GetPlatform(platforms: map<string, Platform>, name: string): (r: Result<Platform>)
    ensures r.Ok? <==> name in platforms
    ensures r.Ok? ==> r.value == platforms[name]
    ensures r.Err? ==> r.error == NoPlatform(name)
  {
    if name in platforms then Ok(platforms[name]) else Err(NoPlatform(name))
  }

  /** create_platform followed by get_platform returns the new handle; other names are unaffected. */
  lemma GetAfterCreate(platforms: map<string, Platform>, config: Config, name: string, arn: string, other: string)
    ensures GetPlatform(platforms[name := NewPlatform(config, name, arn)], name) == Ok(NewPlatform(config, name, arn))
    ensures other != name ==>
      GetPlatform(platforms[name := NewPlatform(config, name, arn)], other) == GetPlatform(platforms, other)
  {
  }

  // ---- get_platform as written ----

  /**
   * Names every plain JavaScript object answers through Object.prototype.
   * `this.platforms[name]` on the `{}` registry yields a truthy value for these.
   */
  const ObjectPrototypeMembers: set<string> := {
    "constructor", "hasOwnProperty", "isPrototypeOf", "propertyIsEnumerable",
    "toLocaleString", "toString", "valueOf", "__proto__",
    "__defineGetter__", "__defineSetter__", "__lookupGetter__", "__lookupSetter__"
  }

  /** What the property read on the registry object finds. */
  datatype Found = OwnPlatform(platform: Platform) | Inherited(member: string)

  /** get_platform as written: a property read followed by a truthiness test. */
  function GetPlatformAsWritten(platforms: map<string, Platform>, name: string): (r: Result<Found>)
    ensures r.Err? <==> name !in platforms && name !in ObjectPrototypeMembers
    ensures name in platforms ==> r == Ok(OwnPlatform(platforms[name]))
  {
    if name in platforms then Ok(OwnPlatform(platforms[name]))
    else if name in ObjectPrototypeMembers then Ok(Inherited(name))
    else Err(NoPlatform(name))
  }

  /** With no "constructor" platform configured, the as-written lookup does not throw; the corrected one does. */
  lemma InheritedNameIsNotRejected(platforms: map<string, Platform>)
    requires "constructor" !in platforms
    ensures GetPlatformAsWritten(platforms, "constructor") == Ok(Inherited("constructor"))
    ensures GetPlatform(platforms, "constructor") == Err(NoPlatform("constructor"))
  {
  }

  /** On every other name the two lookups agree. */
  lemma LookupsAgreeOffPrototype(platforms: map<string, Platform>, name: string)
    requires name in platforms || name !in ObjectPrototypeMembers
    ensures GetPlatform(platforms, name).Ok? <==> GetPlatformAsWritten(platforms, name).Ok?
    ensures GetPlatform(platforms, name).Ok? ==>
      GetPlatformAsWritten(platforms, name) == Ok(OwnPlatform(GetPlatform(platforms, name).value))
  {
  }
}
