/** The plugin configuration: the host's system configuration store and the three
    readers of it (SquareConfigService, SquareApiFactory, SquareApiTestService). */
module Config {
  import opened Php
  import opened PhpFacts

  /** The host's system configuration: global values, and per-sales-channel values
      that take precedence over them when set (not null). */
  class SystemConfig {
    var global: map<string, Value>
    var channels: map<string, map<string, Value>>

    constructor (global: map<string, Value>, channels: map<string, map<string, Value>>)
      ensures this.global == global && this.channels == channels
    {
      this.global := global;
      this.channels := channels;
    }

    /** `SystemConfigService::get($key, $salesChannelId)` */
    function Read(key: string, salesChannel: Option<string>): (v: Value)
      reads this
      ensures salesChannel.None? ==> v == Field(global, key)
      ensures v != Null ==>
        v == Field(global, key)
        || (salesChannel.Some? && salesChannel.value in channels && v == Field(channels[salesChannel.value], key))
    {
      if salesChannel.Some? && salesChannel.value in channels && Field(channels[salesChannel.value], key) != Null
      then channels[salesChannel.value][key]
      else Field(global, key)
    }

    /** `SystemConfigService::set($key, $value)`, in the global scope. */
    method Write(key: string, value: Value)
      modifies this
      ensures global == old(global)[key := value] && channels == old(channels)
    {
      global := global[key := value];
    }
  }

  // ----------------------------------------------------------- SquareConfigService

  const ConfigPrefix: string := "SquarePayments.config."

  /** The stored key of a plugin setting: the prefix and the trimmed name. */
  function ConfigKey(name: string): (k: string)
    ensures StartsWith(k, ConfigPrefix) && k[|ConfigPrefix|..] == Trim(name)
  {
    ConfigPrefix + Trim(name)
  }

  /** SquareConfigService::get */
  function ConfigGet(cfg: SystemConfig, name: string, salesChannel: Option<string>): Value
    reads cfg
  {
    cfg.Read(ConfigKey(name), salesChannel)
  }

  /** SquareConfigService::set: its second parameter, named like a sales-channel id,
      is what the host stores under the prefixed key, in the global scope. */
  method ConfigSet(cfg: SystemConfig, name: string, salesChannelId: Option<string>)
    modifies cfg
    ensures cfg.global == old(cfg.global)[ConfigKey(name) := Nullable(salesChannelId)]
    ensures cfg.channels == old(cfg.channels)
    ensures ConfigGet(cfg, name, None) == Nullable(salesChannelId)
  {
    cfg.Write(ConfigKey(name), Nullable(salesChannelId));
  }

  /** isConfigured's mode: `(string)($mode ?? 'sandbox')`. */
  function Mode(cfg: SystemConfig, salesChannel: Option<string>): string
    reads cfg
  {
    ToStr(OrElse(ConfigGet(cfg, "mode", salesChannel), Str("sandbox")))
  }

  function EnvSuffix(sandbox: bool): string {
    if sandbox then "Sandbox" else "Production"
  }

  /** `(string)($get(<name><Sandbox|Production>) ?? '')` */
  function Credential(cfg: SystemConfig, name: string, sandbox: bool, salesChannel: Option<string>): string
    reads cfg
  {
    ToStr(OrElse(ConfigGet(cfg, name + EnvSuffix(sandbox), salesChannel), Str("")))
  }

  /** isConfigured: the selected environment's access token, application id and
      location id are all non-empty. */
  predicate IsConfigured(cfg: SystemConfig, salesChannel: Option<string>)
    reads cfg
  {
    var sandbox := Mode(cfg, salesChannel) == "sandbox";
    Credential(cfg, "accessToken", sandbox, salesChannel) != ""
    && Credential(cfg, "applicationId", sandbox, salesChannel) != ""
    && Credential(cfg, "locationId", sandbox, salesChannel) != ""
  }

  /** Two configurations that store the same credential under a key. */
  predicate SameSetting(cfg1: SystemConfig, cfg2: SystemConfig, name: string, salesChannel: Option<string>)
    reads cfg1, cfg2
  {
    ConfigGet(cfg1, name, salesChannel) == ConfigGet(cfg2, name, salesChannel)
  }

  /** isConfigured reads the mode and the selected environment's three credentials
      and nothing else: configurations that agree on those give the same answer,
      whatever else they store. */
  lemma ConfiguredReadsSelectedOnly(cfg1: SystemConfig, cfg2: SystemConfig, salesChannel: Option<string>)
    requires SameSetting(cfg1, cfg2, "mode", salesChannel)
    requires var suffix := EnvSuffix(Mode(cfg1, salesChannel) == "sandbox");
      && SameSetting(cfg1, cfg2, "accessToken" + suffix, salesChannel)
      && SameSetting(cfg1, cfg2, "applicationId" + suffix, salesChannel)
      && SameSetting(cfg1, cfg2, "locationId" + suffix, salesChannel)
    ensures IsConfigured(cfg1, salesChannel) == IsConfigured(cfg2, salesChannel)
  {
    assert Mode(cfg1, salesChannel) == Mode(cfg2, salesChannel);
  }

  /** A missing mode is read as sandbox. */
  lemma MissingModeIsSandbox(cfg: SystemConfig, salesChannel: Option<string>)
    requires ConfigGet(cfg, "mode", salesChannel) == Null
    ensures Mode(cfg, salesChannel) == "sandbox"
  {
  }

  // -------------------------------------------------------------- SquareApiFactory

  /** The SDK's environment constants. */
  const SdkSandbox: string := "sandbox"
  const SdkProduction: string := "production"

  /** The factory's test: `($mode ?? 'sandbox') === 'sandbox'` without a cast. */
  predicate FactorySandbox(cfg: SystemConfig)
    reads cfg
  {
    OrElse(ConfigGet(cfg, "mode", None), Str("sandbox")) == Str("sandbox")
  }

  lemma DecimalTextStart(neg: bool, whole: nat, frac: nat, k: nat)
    ensures var t := DecimalText(neg, whole, frac, k);
      |t| > 0 && (t[0] == '-' || IsDigit(t[0]))
  {
    var w := NatText(whole);
    assert IsDigit(w[0]);
    if !neg {
      assert DecimalText(neg, whole, frac, k)[0] == w[0];
    }
  }

  lemma Split(s: nat, p: nat) returns (w: nat, f: nat)
    requires p >= 1
    ensures w == s / p && f == s % p
  {
    w, f := s / p, s % p;
  }

  lemma FloatTextStart(r: real)
    ensures |FloatText(r)| > 0 && (FloatText(r)[0] == '-' || IsDigit(FloatText(r)[0]))
  {
    var a := if r < 0.0 then -r else r;
    var k := Places(a, 0);
    var scaled: nat := Scaled(a, k);
    var p: nat := Pow10(k);
    FloatTextIs(r, a, k, p, scaled);
    var w, f := Split(scaled, p);
    DecimalTextStart(r < 0.0 && scaled != 0, w, f, k);
  }

  lemma IntTextStart(i: int)
    ensures |IntText(i)| > 0 && (IntText(i)[0] == '-' || IsDigit(IntText(i)[0]))
  {
    if i >= 0 {
      assert IsDigit(NatText(i)[0]);
    }
  }

  /** The configuration service casts the mode to a string before comparing, the
      factory compares it as it is; both select sandbox for exactly the same values. */
  lemma ModeReadingsAgree(cfg: SystemConfig)
    ensures Mode(cfg, None) == "sandbox" <==> FactorySandbox(cfg)
  {
    var v := OrElse(ConfigGet(cfg, "mode", None), Str("sandbox"));
    if v.Int? {
      IntTextStart(v.i);
    } else if v.Float? {
      FloatTextStart(v.r);
    }
  }

  /** The settings a SquareClient is built with. */
  datatype ClientSettings = ClientSettings(accessToken: Value, environment: string)

  /** create: the sandbox token and environment in sandbox mode, production ones
      otherwise. */
  function Create(cfg: SystemConfig): (c: ClientSettings)
    reads cfg
    ensures FactorySandbox(cfg) ==> c == ClientSettings(ConfigGet(cfg, "accessTokenSandbox", None), SdkSandbox)
    ensures !FactorySandbox(cfg) ==> c == ClientSettings(ConfigGet(cfg, "accessTokenProduction", None), SdkProduction)
  {
    var sandbox := FactorySandbox(cfg);
    ClientSettings(
      ConfigGet(cfg, if sandbox then "accessTokenSandbox" else "accessTokenProduction", None),
      if sandbox then SdkSandbox else SdkProduction)
  }

  /** createClientByEnv: the sandbox token iff the environment is the SDK's sandbox
      constant; the environment is passed through. */
  function CreateClientByEnv(cfg: SystemConfig, environment: string): (c: ClientSettings)
    reads cfg
    ensures c.environment == environment
    ensures c.accessToken == ConfigGet(cfg, if environment == SdkSandbox then "accessTokenSandbox" else "accessTokenProduction", None)
  {
    ClientSettings(
      ConfigGet(cfg, if environment == SdkSandbox then "accessTokenSandbox" else "accessTokenProduction", None),
      environment)
  }

  /** Building a client for the environment the mode selects gives the client
      `create` builds. */
  lemma CreateByModeEnvironment(cfg: SystemConfig)
    ensures CreateClientByEnv(cfg, Create(cfg).environment) == Create(cfg)
  {
  }

  /** getLocationId / getApplicationId: the selected environment's value; the file
      declares strict types, so a value that is not a string fails the `string`
      return type (Thrown). */
  function SelectedId(cfg: SystemConfig, name: string): (r: Outcome<string>)
    reads cfg
    ensures var v := ConfigGet(cfg, name + EnvSuffix(FactorySandbox(cfg)), None);
      (r.Ok? <==> v.Str?) && (r.Ok? ==> r.value == v.s)
  {
    var v := ConfigGet(cfg, name + EnvSuffix(FactorySandbox(cfg)), None);
    if v.Str? then Ok(v.s) else Thrown("TypeError")
  }

  function LocationId(cfg: SystemConfig): Outcome<string>
    reads cfg
  {
    SelectedId(cfg, "locationId")
  }

  function ApplicationId(cfg: SystemConfig): Outcome<string>
    reads cfg
  {
    SelectedId(cfg, "applicationId")
  }

  /** Whenever isConfigured holds and the location id is stored as a string, the
      factory hands out that non-empty location id. */
  lemma ConfiguredLocation(cfg: SystemConfig)
    requires IsConfigured(cfg, None)
    requires ConfigGet(cfg, "locationId" + EnvSuffix(FactorySandbox(cfg)), None).Str?
    ensures LocationId(cfg).Ok? && LocationId(cfg).value != ""
  {
    ModeReadingsAgree(cfg);
  }

  // ---------------------------------------------------------- SquareApiTestService

  /** checkLocation's environment: 'production' only for exactly that string. */
  function TestEnvironment(payload: Fields): (env: string)
    ensures env == "production" || env == "sandbox"
    ensures env == "production" <==> Field(payload, "environment") == Str("production")
  {
    if OrElse(Field(payload, "environment"), Str("sandbox")) == Str("production") then "production" else "sandbox"
  }

  /** getConfigValue's key. */
  function TestConfigKey(key: string, environment: string): string {
    ConfigPrefix + key + (if environment == "production" then "Production" else "Sandbox")
  }

  predicate IsScalar(v: Value) {
    v.Bool? || v.Int? || v.Float? || v.Str?
  }

  /** getConfigValue: scalars cast to string, anything else null. */
  function TestConfigValue(cfg: SystemConfig, key: string, environment: string, salesChannel: Option<string>): (r: Option<string>)
    reads cfg
    ensures r.Some? <==> IsScalar(cfg.Read(TestConfigKey(key, environment), salesChannel))
  {
    var v := cfg.Read(TestConfigKey(key, environment), salesChannel);
    if IsScalar(v) then Some(ToStr(v)) else None
  }

  /** What the location lookup gave: the location, the errors' details, or an
      exception's message. */
  datatype LocationCall = LocationFound(location: Value) | LocationErrors(details: seq<Value>) | LocationThrew(message: string)

  /** The client and request the check makes. */
  datatype LocationRequest = LocationRequest(accessToken: string, locationId: string, environment: string)

  datatype LocationCheck = LocationCheck(response: Fields, request: Option<LocationRequest>)

  function Failure(message: Value): Fields {
    map["success" := Bool(false), "message" := message]
  }

  /** The sales-channel id coerced to `?string`; an array is a TypeError. */
  function ChannelArg(v: Value): Outcome<Option<string>> {
    if v == Null then Ok(None) else if IsArray(v) then Thrown("TypeError") else Ok(Some(ToStr(v)))
  }

  /** The answer to a location lookup that was made: success with the location; else
      the first error's detail, 'Unknown error' without one, or the exception's
      message. */
  function Answered(request: LocationRequest, call: LocationCall): (r: LocationCheck)
    ensures r.request == Some(request) && "success" in r.response
    ensures r.response["success"] == Bool(true) <==> call.LocationFound?
    ensures call.LocationFound? ==> "location" in r.response && r.response["location"] == call.location
    ensures call.LocationErrors? && |call.details| > 0 ==> r.response == Failure(call.details[0])
    ensures call.LocationErrors? && |call.details| == 0 ==> r.response == Failure(Str("Unknown error"))
    ensures call.LocationThrew? ==> r.response == Failure(Str(call.message))
  {
    match call
    case LocationFound(loc) =>
      LocationCheck(map["success" := Bool(true), "message" := Str("Connection successful."), "location" := loc], Some(request))
    case LocationErrors(details) =>
      LocationCheck(Failure(if |details| > 0 then details[0] else Str("Unknown error")), Some(request))
    case LocationThrew(message) => LocationCheck(Failure(Str(message)), Some(request))
  }

  /** checkLocation. */
  function CheckLocation(cfg: SystemConfig, payload: Fields, call: LocationCall): (r: LocationCheck)
    reads cfg
    ensures r.request.Some? ==> r.request.value.environment == TestEnvironment(payload)
    ensures r.request.Some? ==>
      && ChannelArg(Field(payload, "salesChannelId")).Ok?
      && var sc := ChannelArg(Field(payload, "salesChannelId")).value;
      && TestConfigValue(cfg, "accessToken", TestEnvironment(payload), sc) == Some(r.request.value.accessToken)
      && TestConfigValue(cfg, "locationId", TestEnvironment(payload), sc) == Some(r.request.value.locationId)
      && Truthy(Str(r.request.value.accessToken)) && Truthy(Str(r.request.value.locationId))
    ensures "success" in r.response
    ensures r.response["success"] == Bool(true) <==> r.request.Some? && call.LocationFound?
    ensures ChannelArg(Field(payload, "salesChannelId")).Thrown? ==>
      r == LocationCheck(Failure(Str(ChannelArg(Field(payload, "salesChannelId")).error)), None)
    ensures ChannelArg(Field(payload, "salesChannelId")).Ok? ==>
      var sc := ChannelArg(Field(payload, "salesChannelId")).value;
      var token := TestConfigValue(cfg, "accessToken", TestEnvironment(payload), sc);
      var location := TestConfigValue(cfg, "locationId", TestEnvironment(payload), sc);
      && (!Truthy(Nullable(token)) || !Truthy(Nullable(location)) ==>
            r == LocationCheck(Failure(Str("Missing access token or location ID for environment: " + TestEnvironment(payload))), None))
      && (Truthy(Nullable(token)) && Truthy(Nullable(location)) ==>
            r == Answered(LocationRequest(token.value, location.value, TestEnvironment(payload)), call))
  {
    var env := TestEnvironment(payload);
    var channel := ChannelArg(Field(payload, "salesChannelId"));
    if channel.Thrown? then LocationCheck(Failure(Str(channel.error)), None)
    else
      var token := TestConfigValue(cfg, "accessToken", env, channel.value);
      var location := TestConfigValue(cfg, "locationId", env, channel.value);
      if !Truthy(Nullable(token)) || !Truthy(Nullable(location)) then
        LocationCheck(Failure(Str("Missing access token or location ID for environment: " + env)), None)
      else
        Answered(LocationRequest(token.value, location.value, env), call)
  }

  /** A missing access token or location id fails naming the environment, whatever
      the processor would have answered, and without a call. */
  lemma MissingCredentialFails(cfg: SystemConfig, payload: Fields, call: LocationCall)
    requires ChannelArg(Field(payload, "salesChannelId")).Ok?
    requires var sc := ChannelArg(Field(payload, "salesChannelId")).value;
      || !Truthy(Nullable(TestConfigValue(cfg, "accessToken", TestEnvironment(payload), sc)))
      || !Truthy(Nullable(TestConfigValue(cfg, "locationId", TestEnvironment(payload), sc)))
    ensures CheckLocation(cfg, payload, call) ==
      LocationCheck(Failure(Str("Missing access token or location ID for environment: " + TestEnvironment(payload))), None)
  {
  }
}
