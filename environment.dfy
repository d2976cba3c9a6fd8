/** The Cloud Functions configuration (functions/src/config/environment.ts): the
    record built from environment variables, the required-key validation over a
    dotted-path lookup, and the `Environment` holder that exposes the record. */
module Environment {
  import opened Wrappers
  import opened Text
  import opened JsValues

  datatype SlackConfig = SlackConfig(webhookUrl: string, channelId: string, clientId: string, clientSecret: string)
  datatype EncryptionConfig = EncryptionConfig(key: string, algorithm: string)
  datatype OAuthConfig = OAuthConfig(stateSecret: string, expiryMinutes: int)
  datatype FirebaseConfig = FirebaseConfig(serviceAccountId: string)
  datatype EnvironmentConfig = EnvironmentConfig(
    slack: SlackConfig,
    encryption: EncryptionConfig,
    oauth: OAuthConfig,
    firebase: FirebaseConfig)

  /** The process environment: variable name to value; an unset variable is absent. */
  type Env = map<string, string>

  /** `process.env[name] || ''`. */
  function EnvVar(env: Env, name: string): (r: string)
    ensures name !in env ==> r == ""
    ensures name in env ==> r == env[name]
  {
    OrElse(if name in env then env[name] else "", "")
  }

  const Algorithm := "aes-256-gcm"
  const ExpiryMinutes := 10
  const ServiceAccountId := "mizuno-lab-access-control@appspot.gserviceaccount.com"

  /** `loadConfig()`: every variable read with `|| ''`, the state secret falling back
      to the encryption key, and the fixed algorithm, expiry and service account. */
  function LoadConfig(env: Env): (c: EnvironmentConfig)
    ensures c.slack == SlackConfig(EnvVar(env, "SLACK_WEBHOOK_URL"), EnvVar(env, "SLACK_CHANNEL_ID"),
                                   EnvVar(env, "SLACK_CLIENT_ID"), EnvVar(env, "SLACK_CLIENT_SECRET"))
    ensures c.encryption.key == EnvVar(env, "ENCRYPTION_KEY")
    ensures c.encryption.algorithm == "aes-256-gcm" && c.oauth.expiryMinutes == 10
    ensures EnvVar(env, "STATE_SECRET") != "" ==> c.oauth.stateSecret == env["STATE_SECRET"]
    ensures EnvVar(env, "STATE_SECRET") == "" ==> c.oauth.stateSecret == EnvVar(env, "ENCRYPTION_KEY")
    ensures c.firebase.serviceAccountId == ServiceAccountId
  {
    EnvironmentConfig(
      SlackConfig(
        EnvVar(env, "SLACK_WEBHOOK_URL"),
        EnvVar(env, "SLACK_CHANNEL_ID"),
        EnvVar(env, "SLACK_CLIENT_ID"),
        EnvVar(env, "SLACK_CLIENT_SECRET")),
      EncryptionConfig(EnvVar(env, "ENCRYPTION_KEY"), Algorithm),
      OAuthConfig(OrElse(EnvVar(env, "STATE_SECRET"), EnvVar(env, "ENCRYPTION_KEY")), ExpiryMinutes),
      FirebaseConfig(ServiceAccountId))
  }

  /** The configuration as the plain object `getNestedValue` walks. */
  function ConfigObject(c: EnvironmentConfig): JsValue {
    JsObject(map[
      "slack" := JsObject(map[
        "webhookUrl" := JsString(c.slack.webhookUrl),
        "channelId" := JsString(c.slack.channelId),
        "clientId" := JsString(c.slack.clientId),
        "clientSecret" := JsString(c.slack.clientSecret)]),
      "encryption" := JsObject(map[
        "key" := JsString(c.encryption.key),
        "algorithm" := JsString(c.encryption.algorithm)]),
      "oauth" := JsObject(map[
        "stateSecret" := JsString(c.oauth.stateSecret),
        "expiryMinutes" := JsNumber(c.oauth.expiryMinutes)]),
      "firebase" := JsObject(map[
        "serviceAccountId" := JsString(c.firebase.serviceAccountId)])])
  }

  /** `keys.reduce((current, key) => current?.[key], start)`. Once a step finds
      nothing, the rest of the walk finds nothing. */
  function Walk(current: Option<JsValue>, keys: seq<string>): (r: Option<JsValue>)
    ensures current.None? ==> r.None?
    decreases |keys|
  {
    if |keys| == 0 then current else Walk(Step(current, keys[0]), keys[1..])
  }

  /** `getNestedValue(obj, path)`. */
  function GetNestedValue(obj: JsValue, path: string): Option<JsValue> {
    Walk(Some(obj), Split(path, '.'))
  }

  /** A path without a `.` reads that one member. */
  lemma {:induction false} SingleKeyLookup(obj: JsValue, path: string)
    requires '.' !in path
    ensures GetNestedValue(obj, path) == Step(Some(obj), path)
  {
    SplitNoSep(path, '.');
    assert [path][0] == path && [path][1..] == [];
    assert Walk(Some(obj), [path]) == Walk(Step(Some(obj), path), []);
  }

  /** The walk succeeds only if every prefix of the path names an object: a
      missing key anywhere makes the whole lookup `undefined`. */
  lemma {:induction false} MissingStepUndefined(obj: Object, keys: seq<string>)
    requires |keys| >= 1 && keys[0] !in obj
    ensures Walk(Some(JsObject(obj)), keys) == None
  {
  }

  /** A two-key path reads the named field of the named object. */
  lemma {:induction false} WalkTwo(obj: JsValue, a: string, b: string)
    ensures Walk(Some(obj), [a, b]) == Step(Step(Some(obj), a), b)
  {
    var first := Step(Some(obj), a);
    assert [a, b][0] == a && [a, b][1..] == [b];
    assert Walk(Some(obj), [a, b]) == Walk(first, [b]);
    assert [b][0] == b && [b][1..] == [];
    assert Walk(first, [b]) == Walk(Step(first, b), []);
  }

  const RequiredPaths := ["slack.webhookUrl", "slack.clientId", "slack.clientSecret", "encryption.key", "oauth.stateSecret"]

  /** The value each required path names, in the same order. */
  function RequiredValues(c: EnvironmentConfig): seq<string> {
    [c.slack.webhookUrl, c.slack.clientId, c.slack.clientSecret, c.encryption.key, c.oauth.stateSecret]
  }

  function MissingMessage(path: string): string {
    "Required environment variable missing: " + path
  }

  /** Looking up `a.b` in the configuration object reads field `b` of member `a`. */
  lemma {:induction false} LookupPath(c: EnvironmentConfig, path: string, a: string, b: string)
    requires '.' !in a && '.' !in b && path == a + "." + b
    ensures GetNestedValue(ConfigObject(c), path) == Step(Step(Some(ConfigObject(c)), a), b)
  {
    SplitTwo(a, '.', b);
    WalkTwo(ConfigObject(c), a, b);
  }

  /** A path `a.b` whose field `b` of member `a` holds the string `v` resolves to `v`. */
  lemma ResolveAt(c: EnvironmentConfig, path: string, a: string, b: string, v: string)
    requires '.' !in a && '.' !in b && path == a + "." + b
    requires Step(Step(Some(ConfigObject(c)), a), b) == Some(JsString(v))
    ensures GetNestedValue(ConfigObject(c), path) == Some(JsString(v))
  {
    LookupPath(c, path, a, b);
  }

  /** The two keys of each required path, in the same order. */
  const RequiredKeys: seq<(string, string)> :=
    [("slack", "webhookUrl"), ("slack", "clientId"), ("slack", "clientSecret"), ("encryption", "key"), ("oauth", "stateSecret")]

  /** Each required path is its two dot-free keys joined by `.`. */
  lemma RequiredKeysSplit(i: int)
    requires 0 <= i < |RequiredPaths|
    ensures i < |RequiredKeys| && '.' !in RequiredKeys[i].0 && '.' !in RequiredKeys[i].1
    ensures RequiredPaths[i] == RequiredKeys[i].0 + "." + RequiredKeys[i].1
  {
  }

  /** The field each pair of keys reads in the configuration object is the value
      `RequiredValues` lists for that path. */
  lemma RequiredKeysField(c: EnvironmentConfig, i: int)
    requires 0 <= i < |RequiredPaths|
    ensures i < |RequiredKeys| &&
            Step(Step(Some(ConfigObject(c)), RequiredKeys[i].0), RequiredKeys[i].1) == Some(JsString(RequiredValues(c)[i]))
  {
  }

  /** Each required path resolves to the string the configuration holds for it. */
  lemma RequiredPathResolves(c: EnvironmentConfig, i: int)
    requires 0 <= i < |RequiredPaths|
    ensures GetNestedValue(ConfigObject(c), RequiredPaths[i]) == Some(JsString(RequiredValues(c)[i]))
  {
    RequiredKeysSplit(i);
    RequiredKeysField(c, i);
    ResolveAt(c, RequiredPaths[i], RequiredKeys[i].0, RequiredKeys[i].1, RequiredValues(c)[i]);
  }

  /** `!value` fails for the `i`th required path. */
  predicate PathPresent(c: EnvironmentConfig, i: int)
    requires 0 <= i < |RequiredPaths|
  {
    Truthy(GetNestedValue(ConfigObject(c), RequiredPaths[i]))
  }

  /** A required path is present exactly when the configuration's string for it is non-empty. */
  lemma PathPresentIffNonEmpty(c: EnvironmentConfig, i: int)
    requires 0 <= i < |RequiredPaths|
    ensures PathPresent(c, i) <==> RequiredValues(c)[i] != ""
  {
    RequiredPathResolves(c, i);
  }

  /** Every required value is non-empty; `slack.channelId` is not among them. */
  predicate RequiredPresent(c: EnvironmentConfig) {
    c.slack.webhookUrl != "" && c.slack.clientId != "" && c.slack.clientSecret != "" &&
    c.encryption.key != "" && c.oauth.stateSecret != ""
  }

  /** The five fields are non-empty exactly when each value the required paths name is. */
  lemma RequiredPresentIffAllNonEmpty(c: EnvironmentConfig)
    ensures RequiredPresent(c) <==> forall j :: 0 <= j < |RequiredPaths| ==> RequiredValues(c)[j] != ""
  {
    var vs := RequiredValues(c);
    assert vs[0] == c.slack.webhookUrl && vs[1] == c.slack.clientId && vs[2] == c.slack.clientSecret;
    assert vs[3] == c.encryption.key && vs[4] == c.oauth.stateSecret;
  }

  /** The five fields are non-empty exactly when every required path, looked up by
      its dotted name, is present. */
  lemma RequiredPresentIffAllPathsPresent(c: EnvironmentConfig)
    ensures RequiredPresent(c) <==> forall j :: 0 <= j < |RequiredPaths| ==> PathPresent(c, j)
  {
    RequiredPresentIffAllNonEmpty(c);
    forall j | 0 <= j < |RequiredPaths|
      ensures PathPresent(c, j) <==> RequiredValues(c)[j] != ""
    {
      PathPresentIffNonEmpty(c, j);
    }
  }

  /** `Environment`: the loaded configuration of a process. */
  class Environment {
    var config: EnvironmentConfig

    /** Runs `loadConfig()`; validation is `ValidateConfig`. */
    constructor (env: Env)
      ensures config == LoadConfig(env)
    {
      config := LoadConfig(env);
    }

    /** `validateConfig()`: the first required path, in the listed order, whose value
        is falsy is reported; `None` when all are present. */
    method ValidateConfig() returns (missing: Option<string>)
      ensures missing.None? <==> RequiredPresent(config)
      ensures missing.Some? ==>
                exists i :: 0 <= i < |RequiredPaths| && missing.value == MissingMessage(RequiredPaths[i]) &&
                  RequiredValues(config)[i] == "" && forall j :: 0 <= j < i ==> RequiredValues(config)[j] != ""
    {
      var required := RequiredPaths;
      RequiredPresentIffAllNonEmpty(config);
      var k := 0;
      while k < |required|
        invariant 0 <= k <= |required|
        invariant forall j :: 0 <= j < k ==> RequiredValues(config)[j] != ""
      {
        var value := GetNestedValue(ConfigObject(config), required[k]);
        RequiredPathResolves(config, k);
        if !Truthy(value) {
          assert RequiredValues(config)[k] == "";
          return Some(MissingMessage(required[k]));
        }
        k := k + 1;
      }
      missing := None;
    }

    /** `get()`: a shallow copy, here the same record value. */
    method Get() returns (c: EnvironmentConfig)
      ensures c == config
    {
      c := config;
    }
  }

  /** Builds an `Environment` the way its private constructor does: load, then
      validate, the failure being the thrown error's message. */
  method NewEnvironment(env: Env) returns (e: Environment?, error: Option<string>)
    ensures error.None? <==> e != null
    ensures e != null ==> fresh(e) && e.config == LoadConfig(env) && RequiredPresent(e.config)
    ensures error.Some? ==> !RequiredPresent(LoadConfig(env))
  {
    e := new Environment(env);
    error := e.ValidateConfig();
    if error.Some? {
      e := null;
    }
  }

  /** With the state secret falling back to the encryption key, validation never
      reports `oauth.stateSecret` for a loaded configuration: a missing encryption key
      is reported first, and a present one fills the state secret. */
  lemma StateSecretNeverReported(env: Env)
    ensures var c := LoadConfig(env);
            c.encryption.key != "" ==> c.oauth.stateSecret != ""
  {
  }

  /** The channel id is optional: a configuration with an empty channel id passes
      exactly when it would with any other channel id. */
  lemma ChannelIdNotRequired(c: EnvironmentConfig, channelId: string)
    ensures RequiredPresent(c.(slack := c.slack.(channelId := channelId))) == RequiredPresent(c)
  {
  }
}
