/** Client configuration and the default request context (src/lib/breeze.ts):
    the SDK settings read from the environment, the lazily built client,
    and the env-provided identifiers the withdraw routes fall back to. */
module Breeze {
  import opened Wrappers
  import opened Js

  /** The process environment: an absent name is an unset variable. */
  type Env = map<string, string>

  function EnvGet(env: Env, name: string): (r: Option<string>)
    ensures r.Some? <==> name in env
    ensures r.Some? ==> r.value == env[name]
  {
    if name in env then Some(env[name]) else None
  }

  const API_KEY_MISSING: string := "BREEZE_API_KEY is not configured"
  const TIMEOUT_INVALID: string := "BREEZE_API_TIMEOUT_MS must be a valid number if provided"

  /** `BreezeSdkConfig`. */
  datatype SdkConfig = SdkConfig(apiKey: string, baseUrl: Option<string>, timeout: Option<JsNumber>)

  /** A configuration the client may be built from: a key is present and
      a timeout, when given, is a number. */
  predicate WellFormed(c: SdkConfig) {
    c.apiKey != "" && (c.timeout.Some? ==> !c.timeout.value.NaN?)
  }

  /** `resolveConfig`: a thrown error is a `Failure` with its message.
      `toNumber` is the `Number(...)` conversion. */
  function ResolveConfig(env: Env, toNumber: NumberParser): (r: Result<SdkConfig, string>)
    ensures !Present(EnvGet(env, "BREEZE_API_KEY")) ==> r == Failure(API_KEY_MISSING)
    ensures (Present(EnvGet(env, "BREEZE_API_KEY")) && Present(EnvGet(env, "BREEZE_API_TIMEOUT_MS"))
             && toNumber(env["BREEZE_API_TIMEOUT_MS"]).NaN?) ==> r == Failure(TIMEOUT_INVALID)
    ensures r.Success? ==>
      && WellFormed(r.value)
      && r.value.apiKey == env["BREEZE_API_KEY"]
      && r.value.baseUrl == EnvGet(env, "BREEZE_BASE_URL")
      && (r.value.timeout.None? <==> !Present(EnvGet(env, "BREEZE_API_TIMEOUT_MS")))
      && (r.value.timeout.Some? ==> r.value.timeout.value == toNumber(env["BREEZE_API_TIMEOUT_MS"]))
  {
    var apiKey := EnvGet(env, "BREEZE_API_KEY");
    if !Present(apiKey) then Failure(API_KEY_MISSING)
    else
      var baseUrl := EnvGet(env, "BREEZE_BASE_URL");
      var timeoutEnv := EnvGet(env, "BREEZE_API_TIMEOUT_MS");
      var timeout := if Present(timeoutEnv) then Some(toNumber(timeoutEnv.value)) else None;
      if timeout.Some? && timeout.value.NaN? then Failure(TIMEOUT_INVALID)
      else Success(SdkConfig(apiKey.value, baseUrl, timeout))
  }

  /** The configuration resolves exactly when the key is present and a
      present timeout is a number. */
  lemma ResolveConfigSucceedsIff(env: Env, toNumber: NumberParser)
    ensures ResolveConfig(env, toNumber).Success? <==>
      && Present(EnvGet(env, "BREEZE_API_KEY"))
      && !(Present(EnvGet(env, "BREEZE_API_TIMEOUT_MS")) && toNumber(env["BREEZE_API_TIMEOUT_MS"]).NaN?)
  {
  }

  /** Only the three `BREEZE_API_KEY`, `BREEZE_BASE_URL` and
      `BREEZE_API_TIMEOUT_MS` variables matter. */
  lemma ResolveConfigReadsOnlyItsVariables(env1: Env, env2: Env, toNumber: NumberParser)
    requires forall name :: name in ["BREEZE_API_KEY", "BREEZE_BASE_URL", "BREEZE_API_TIMEOUT_MS"] ==>
      EnvGet(env1, name) == EnvGet(env2, name)
    ensures ResolveConfig(env1, toNumber) == ResolveConfig(env2, toNumber)
  {
    assert EnvGet(env1, "BREEZE_API_KEY") == EnvGet(env2, "BREEZE_API_KEY");
    assert EnvGet(env1, "BREEZE_BASE_URL") == EnvGet(env2, "BREEZE_BASE_URL");
    assert EnvGet(env1, "BREEZE_API_TIMEOUT_MS") == EnvGet(env2, "BREEZE_API_TIMEOUT_MS");
  }

  /** A `BreezeSDK` instance and the settings it was built with. */
  class BreezeSdk {
    const config: SdkConfig

    constructor (config: SdkConfig)
      ensures this.config == config
    {
      this.config := config;
    }
  }

  /** The module-level `cachedSdk` slot of src/lib/breeze.ts. */
  class SdkCache {
    var cachedSdk: BreezeSdk?

    /** Only a well-formed configuration is ever cached. */
    predicate Valid()
      reads this
    {
      cachedSdk != null ==> WellFormed(cachedSdk.config)
    }

    constructor ()
      ensures cachedSdk == null && Valid()
    {
      cachedSdk := null;
    }

    /** `getBreezeSdk`: the cached client when there is one (the
        environment is not read again); otherwise a new client from the
        resolved configuration, cached only when resolution succeeded. */
    method GetBreezeSdk(env: Env, toNumber: NumberParser) returns (r: Result<BreezeSdk, string>)
      requires Valid()
      modifies this
      ensures Valid()
      ensures old(cachedSdk) != null ==> r == Success(old(cachedSdk)) && cachedSdk == old(cachedSdk)
      ensures old(cachedSdk) == null && ResolveConfig(env, toNumber).Failure? ==>
        r == Failure(ResolveConfig(env, toNumber).error) && cachedSdk == null
      ensures old(cachedSdk) == null && ResolveConfig(env, toNumber).Success? ==>
        r.Success? && fresh(r.value) && cachedSdk == r.value && r.value.config == ResolveConfig(env, toNumber).value
    {
      if cachedSdk != null {
        return Success(cachedSdk);
      }
      var config := ResolveConfig(env, toNumber);
      if config.Failure? {
        return Failure(config.error);
      }
      cachedSdk := new BreezeSdk(config.value);
      r := Success(cachedSdk);
    }

    /** Two calls, possibly under different environments: once the first
        has produced a client, the second returns that same instance; a
        first call that failed leaves the slot empty for the second to retry. */
    method GetBreezeSdkTwice(env1: Env, env2: Env, toNumber: NumberParser)
      returns (first: Result<BreezeSdk, string>, second: Result<BreezeSdk, string>)
      requires Valid()
      modifies this
      ensures Valid()
      ensures first.Success? ==> second == first
      ensures old(cachedSdk) == null && first.Failure? ==>
        ResolveConfig(env1, toNumber).Failure? && first.error == ResolveConfig(env1, toNumber).error
        && (ResolveConfig(env2, toNumber).Success? <==> second.Success?)
    {
      first := GetBreezeSdk(env1, toNumber);
      second := GetBreezeSdk(env2, toNumber);
    }
  }

  /** The object `getDefaultBreezeContext` returns: exactly these four fields. */
  datatype BreezeContext = BreezeContext(
    userId: Option<string>,
    userKey: Option<string>,
    fundId: Option<string>,
    payerKey: Option<string>)

  /** `getDefaultBreezeContext`. `??` falls through only on an unset
      variable: a variable set to "" is kept. */
  function GetDefaultBreezeContext(env: Env): (ctx: BreezeContext)
    ensures ctx.userId == EnvGet(env, "BREEZE_USER_ID")
    ensures ctx.fundId == EnvGet(env, "BREEZE_FUND_ID")
    ensures ctx.userKey == FirstSet(env, ["BREEZE_USER_KEY", "BREEZE_USER_ID"])
    ensures ctx.payerKey == FirstSet(env, ["BREEZE_PAYER_KEY", "BREEZE_USER_KEY", "BREEZE_USER_ID"])
  {
    var userId := EnvGet(env, "BREEZE_USER_ID");
    var userKey := EnvGet(env, "BREEZE_USER_KEY").OrElse(userId);
    var fundId := EnvGet(env, "BREEZE_FUND_ID");
    var payerKey := EnvGet(env, "BREEZE_PAYER_KEY").OrElse(userKey);
    assert ["BREEZE_USER_KEY", "BREEZE_USER_ID"][1..] == ["BREEZE_USER_ID"];
    assert ["BREEZE_PAYER_KEY", "BREEZE_USER_KEY", "BREEZE_USER_ID"][1..] == ["BREEZE_USER_KEY", "BREEZE_USER_ID"];
    BreezeContext(userId, userKey, fundId, payerKey)
  }

  /** The value of the first of `names` that is set in the environment. */
  function FirstSet(env: Env, names: seq<string>): (r: Option<string>)
    ensures r.None? <==> forall i :: 0 <= i < |names| ==> names[i] !in env
    ensures r.Some? ==> exists i :: 0 <= i < |names| && names[i] in env && r.value == env[names[i]]
                                    && (forall j :: 0 <= j < i ==> names[j] !in env)
  {
    if names == [] then None
    else if names[0] in env then
      Some(env[names[0]])
    else
      var rest := FirstSet(env, names[1..]);
      FirstSetShifts(env, names, rest);
      rest
  }

  lemma FirstSetShifts(env: Env, names: seq<string>, rest: Option<string>)
    requires names != [] && names[0] !in env
    requires rest.None? <==> forall i :: 0 <= i < |names| - 1 ==> names[1..][i] !in env
    requires rest.Some? ==> exists i :: 0 <= i < |names| - 1 && names[1..][i] in env && rest.value == env[names[1..][i]]
                                        && (forall j :: 0 <= j < i ==> names[1..][j] !in env)
    ensures rest.None? <==> forall i :: 0 <= i < |names| ==> names[i] !in env
    ensures rest.Some? ==> exists i :: 0 <= i < |names| && names[i] in env && rest.value == env[names[i]]
                                       && (forall j :: 0 <= j < i ==> names[j] !in env)
  {
    if rest.None? {
      forall i | 0 <= i < |names|
        ensures names[i] !in env
      {
        if i > 0 {
          assert names[i] == names[1..][i - 1];
        }
      }
    } else {
      assert exists i :: 0 <= i < |names| - 1 && names[1..][i] in env && rest.value == env[names[1..][i]]
                         && (forall j :: 0 <= j < i ==> names[1..][j] !in env);
      var i :| 0 <= i < |names| - 1 && names[1..][i] in env && rest.value == env[names[1..][i]]
               && (forall j :: 0 <= j < i ==> names[1..][j] !in env);
      assert names[i + 1] == names[1..][i];
      forall j | 0 <= j < i + 1
        ensures names[j] !in env
      {
        if j > 0 {
          assert names[j] == names[1..][j - 1];
        }
      }
    }
  }

  /** `??` keeps an empty `BREEZE_USER_KEY`: it then hides `BREEZE_USER_ID`,
      and the context's user key is absent to the routes' `||` checks. */
  lemma EmptyUserKeyShadowsUserId(env: Env)
    requires "BREEZE_USER_KEY" in env && env["BREEZE_USER_KEY"] == ""
    ensures GetDefaultBreezeContext(env).userKey == Some("")
    ensures !Present(GetDefaultBreezeContext(env).userKey)
  {
    assert ["BREEZE_USER_KEY", "BREEZE_USER_ID"][0] == "BREEZE_USER_KEY";
  }

  /** The context holds a user key exactly when one of the two user
      variables is set, and a payer key whenever it holds a user key. */
  lemma ContextKeysAreSetTogether(env: Env)
    ensures GetDefaultBreezeContext(env).userKey.Some? <==> "BREEZE_USER_KEY" in env || "BREEZE_USER_ID" in env
    ensures GetDefaultBreezeContext(env).userKey.Some? ==> GetDefaultBreezeContext(env).payerKey.Some?
    ensures "BREEZE_PAYER_KEY" !in env ==> GetDefaultBreezeContext(env).payerKey == GetDefaultBreezeContext(env).userKey
  {
    var a := ["BREEZE_USER_KEY", "BREEZE_USER_ID"];
    var b := ["BREEZE_PAYER_KEY", "BREEZE_USER_KEY", "BREEZE_USER_ID"];
    assert a[0] == "BREEZE_USER_KEY" && a[1] == "BREEZE_USER_ID";
    assert b[0] == "BREEZE_PAYER_KEY" && b[1..] == a;
  }
}
