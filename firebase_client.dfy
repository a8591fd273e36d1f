/** The Firebase client module: the configuration read from the environment, the
    list of missing settings, and the lazily initialised, process-wide handles
    (`init`, `auth`, `db`, `storage`). The pyrebase library is outside the model:
    the application handle it would create is a parameter, and the service
    handles are tokens derived from it. */
module Firebase {
  import opened Wrappers
  import opened Text

  /** The configuration keys, in the order `_config` declares them. */
  const ConfigKeys: seq<string> := [
    "apiKey", "authDomain", "projectId", "storageBucket",
    "messagingSenderId", "appId", "measurementId", "databaseURL"
  ]

  /** The environment variable each configuration key is read from (same order). */
  const EnvNames: seq<string> := [
    "FIREBASE_API_KEY", "FIREBASE_AUTH_DOMAIN", "FIREBASE_PROJECT_ID", "FIREBASE_STORAGE_BUCKET",
    "FIREBASE_MESSAGING_SENDER_ID", "FIREBASE_APP_ID", "FIREBASE_MEASUREMENT_ID", "FIREBASE_DATABASE_URL"
  ]

  /** The one key that may be left unset. */
  const OptionalKey: string := "measurementId"

  const MissingPrefix: string := "Missing Firebase env vars: "

  /** One `key: value` pair of `_config`; the value is `None` when the variable is unset. */
  datatype ConfigEntry = ConfigEntry(key: string, value: Option<string>)

  /** `os.getenv(name)`. */
  function Getenv(env: map<string, string>, name: string): Option<string> {
    if name in env then Some(env[name]) else None
  }

  /** `_config`, built from the process environment. */
  function BuildConfig(env: map<string, string>): (config: seq<ConfigEntry>)
    ensures |config| == |ConfigKeys|
    ensures forall i :: 0 <= i < |config| ==>
              config[i].key == ConfigKeys[i] && (config[i].value.Some? <==> EnvNames[i] in env)
    ensures forall i :: 0 <= i < |config| && EnvNames[i] in env ==> config[i].value == Some(env[EnvNames[i]])
  {
    seq(|ConfigKeys|, i requires 0 <= i < |ConfigKeys| =>
      ConfigEntry(ConfigKeys[i], Getenv(env, EnvNames[i])))
  }

  /** Python falsiness of an environment value: unset or empty. */
  predicate Falsy(v: Option<string>) {
    v.None? || v.value == ""
  }

  /** The comprehension that lists the keys whose value is falsy, except the
      optional key, in the order of the configuration. */
  function Missing(config: seq<ConfigEntry>): (missing: seq<string>)
    ensures |missing| <= |config|
    ensures forall j :: 0 <= j < |missing| ==> missing[j] != OptionalKey
  {
    if config == [] then []
    else
      (if Falsy(config[0].value) && config[0].key != OptionalKey then [config[0].key] else []) +
      Missing(config[1..])
  }

  /** A key is listed exactly when some entry carries it, it is not the optional
      key, and the entry's value is unset or empty. */
  lemma {:induction false} MissingMembers(config: seq<ConfigEntry>)
    ensures forall k :: k in Missing(config) <==>
              exists i :: 0 <= i < |config| && config[i].key == k && k != OptionalKey && Falsy(config[i].value)
  {
    if config != [] {
      MissingMembers(config[1..]);
      assert forall i :: 1 <= i < |config| ==> config[i] == config[1..][i - 1];
    }
  }

  /** The keys of a configuration, in order. */
  function Keys(config: seq<ConfigEntry>): (ks: seq<string>)
    ensures |ks| == |config|
    ensures forall i :: 0 <= i < |config| ==> ks[i] == config[i].key
  {
    seq(|config|, i requires 0 <= i < |config| => config[i].key)
  }

  /** `xs` is `ys` with some elements deleted: the elements of `xs` occur in `ys`
      in the same order. */
  ghost predicate Subsequence(xs: seq<string>, ys: seq<string>)
    decreases |ys|
  {
    if ys == [] then xs == []
    else (xs != [] && xs[0] == ys[0] && Subsequence(xs[1..], ys[1..])) || Subsequence(xs, ys[1..])
  }

  /** The missing keys are listed in the order the configuration declares them. */
  lemma {:induction false} MissingInDeclarationOrder(config: seq<ConfigEntry>)
    ensures Subsequence(Missing(config), Keys(config))
  {
    if config != [] {
      MissingInDeclarationOrder(config[1..]);
      var m, ks := Missing(config), Keys(config);
      assert ks[1..] == Keys(config[1..]);
      if Falsy(config[0].value) && config[0].key != OptionalKey {
        assert m == [ks[0]] + Missing(config[1..]);
        assert m[1..] == Missing(config[1..]);
      } else {
        assert m == Missing(config[1..]);
      }
    }
  }

  /** For the configuration read from the environment, the missing keys follow
      the order of `ConfigKeys`. */
  lemma MissingFromEnvInOrder(env: map<string, string>)
    ensures Subsequence(Missing(BuildConfig(env)), ConfigKeys)
  {
    MissingInDeclarationOrder(BuildConfig(env));
    assert Keys(BuildConfig(env)) == ConfigKeys;
  }

  /** The message of the `RuntimeError` raised when settings are missing. */
  function MissingMessage(m: seq<string>): string {
    MissingPrefix + Join(m, ", ")
  }

  /** The configuration key read from each environment variable is missing exactly
      when it is not the optional key and the variable is unset or empty. */
  lemma MissingFromEnv(env: map<string, string>, i: nat)
    requires i < |ConfigKeys|
    ensures ConfigKeys[i] in Missing(BuildConfig(env)) <==>
              ConfigKeys[i] != OptionalKey && (EnvNames[i] !in env || env[EnvNames[i]] == "")
  {
    var config := BuildConfig(env);
    MissingMembers(config);
    if ConfigKeys[i] in Missing(config) {
      var j :| 0 <= j < |config| && config[j].key == ConfigKeys[i] && ConfigKeys[i] != OptionalKey && Falsy(config[j].value);
      assert j == i;
    } else {
      assert !(ConfigKeys[i] != OptionalKey && Falsy(config[i].value));
    }
  }

  /** Initialisation can succeed exactly when every mandatory variable is set to a
      non-empty value; the optional one plays no part. */
  lemma {:induction false} NothingMissingIff(env: map<string, string>)
    ensures Missing(BuildConfig(env)) == [] <==>
              forall i :: 0 <= i < |EnvNames| && ConfigKeys[i] != OptionalKey ==>
                EnvNames[i] in env && env[EnvNames[i]] != ""
  {
    var m := Missing(BuildConfig(env));
    if m == [] {
      forall i | 0 <= i < |EnvNames| && ConfigKeys[i] != OptionalKey
        ensures EnvNames[i] in env && env[EnvNames[i]] != ""
      {
        MissingFromEnv(env, i);
      }
    } else {
      var k := m[0];
      assert k in m;
      MissingMembers(BuildConfig(env));
      var i :| 0 <= i < |ConfigKeys| && ConfigKeys[i] == k;
      MissingFromEnv(env, i);
    }
  }

  /** Two configurations that differ only in the optional entry miss the same keys. */
  lemma {:induction false} MissingIgnoresOptional(c1: seq<ConfigEntry>, c2: seq<ConfigEntry>)
    requires |c1| == |c2|
    requires forall i :: 0 <= i < |c1| ==> c1[i].key == c2[i].key
    requires forall i :: 0 <= i < |c1| && c1[i].key != OptionalKey ==>
               Falsy(c1[i].value) == Falsy(c2[i].value)
    ensures Missing(c1) == Missing(c2)
  {
    if c1 != [] {
      MissingIgnoresOptional(c1[1..], c2[1..]);
    }
  }

  /** Unsetting FIREBASE_MEASUREMENT_ID never changes what is reported missing. */
  lemma MeasurementIdIrrelevant(env: map<string, string>)
    ensures Missing(BuildConfig(env)) == Missing(BuildConfig(env - {EnvNames[6]}))
  {
    MissingIgnoresOptional(BuildConfig(env), BuildConfig(env - {EnvNames[6]}));
  }

  /** The error message names every missing key. */
  lemma MissingMessageNamesEach(m: seq<string>, k: nat)
    requires k < |m|
    ensures Contains(MissingMessage(m), m[k])
  {
    JoinContainsEach(m, ", ", k);
    var joined := Join(m, ", ");
    var i :| 0 <= i <= |joined| - |m[k]| && OccursAt(joined, m[k], i);
    var msg := MissingMessage(m);
    assert msg[|MissingPrefix| + i..|MissingPrefix| + i + |m[k]|] == joined[i..i + |m[k]|];
    assert OccursAt(msg, m[k], |MissingPrefix| + i);
  }

  /** No configuration key contains an underscore. */
  lemma ConfigKeysHaveNoUnderscore()
    ensures forall i :: 0 <= i < |ConfigKeys| ==> '_' !in ConfigKeys[i]
  {
  }

  /** The missing-settings message contains no underscore: neither the prefix, nor
      the separator, nor any configuration key does. */
  lemma MissingMessageHasNoUnderscore(env: map<string, string>)
    ensures '_' !in MissingMessage(Missing(BuildConfig(env)))
  {
    var config := BuildConfig(env);
    var m := Missing(config);
    MissingMembers(config);
    ConfigKeysHaveNoUnderscore();
    forall k | 0 <= k < |m| ensures '_' !in m[k] {
      assert m[k] in m;
      var i :| 0 <= i < |config| && config[i].key == m[k];
      assert m[k] == ConfigKeys[i];
    }
    JoinOmitsChar(m, ", ", '_');
    assert MissingMessage(m) == MissingPrefix + Join(m, ", ");
  }

  /** An application handle, as `pyrebase.initialize_app` returns it. */
  datatype AppHandle = AppHandle(id: nat)

  /** The service handles obtained from an application handle. */
  datatype Service = AuthService(app: AppHandle) | DatabaseService(app: AppHandle) | StorageService(app: AppHandle)

  /** The module state of firebase_client.py: its configuration and the four globals
      `_firebase`, `_auth`, `_db`, `_storage`. */
  class Client {
    const config: seq<ConfigEntry>
    var app: Option<AppHandle>
    var authService: Option<Service>
    var database: Option<Service>
    var storage: Option<Service>

    /** Either nothing is initialised, or everything is, from one application
        handle, and only for a configuration that misses nothing. */
    ghost predicate Valid()
      reads this
    {
      match app
      case None => authService.None? && database.None? && storage.None?
      case Some(a) =>
        && Missing(config) == []
        && authService == Some(AuthService(a))
        && database == Some(DatabaseService(a))
        && storage == Some(StorageService(a))
    }

    /** Module import: read the configuration, leave every handle unset. */
    constructor (env: map<string, string>)
      ensures Valid()
      ensures config == BuildConfig(env)
      ensures app.None?
    {
      config := BuildConfig(env);
      app, authService, database, storage := None, None, None, None;
    }

    /** `init()`: validate and initialise on the first call that finds nothing
        missing; afterwards return the same handle without checking again.
        `created` is what `pyrebase.initialize_app` would return. */
    method Init(created: AppHandle) returns (r: Result<AppHandle, string>)
      requires Valid()
      modifies this
      ensures Valid()
      ensures old(app).Some? ==> r == Success(old(app).value) && unchanged(this)
      ensures old(app).None? && Missing(config) != [] ==>
                r == Failure(MissingMessage(Missing(config))) && unchanged(this)
      ensures old(app).None? && Missing(config) == [] ==>
                && r == Success(created) && app == Some(created)
                && authService == Some(AuthService(created))
                && database == Some(DatabaseService(created))
                && storage == Some(StorageService(created))
      ensures r.Success? <==> app.Some?
      ensures r.Success? ==> r.value == app.value
    {
      if app.None? {
        var missing := Missing(config);
        if missing != [] {
          return Failure(MissingMessage(missing));
        }
        app := Some(created);
        authService := Some(AuthService(created));
        database := Some(DatabaseService(created));
        storage := Some(StorageService(created));
      }
      r := Success(app.value);
    }

    /** `auth()`: initialise if needed, then hand out the auth service. */
    method Auth(created: AppHandle) returns (r: Result<Service, string>)
      requires Valid()
      modifies this
      ensures Valid()
      ensures old(app).Some? ==> unchanged(this)
      ensures app == if old(app).Some? then old(app) else if Missing(config) == [] then Some(created) else None
      ensures r.Success? <==> Missing(config) == []
      ensures r.Success? ==> app.Some? && r.value == AuthService(app.value)
      ensures r.Failure? ==> unchanged(this) && r.error == MissingMessage(Missing(config))
    {
      var a := Init(created);
      if a.Failure? {
        return Failure(a.error);
      }
      r := Success(authService.value);
    }

    /** `db()`: initialise if needed, then hand out the database service. */
    method Db(created: AppHandle) returns (r: Result<Service, string>)
      requires Valid()
      modifies this
      ensures Valid()
      ensures old(app).Some? ==> unchanged(this)
      ensures app == if old(app).Some? then old(app) else if Missing(config) == [] then Some(created) else None
      ensures r.Success? <==> Missing(config) == []
      ensures r.Success? ==> app.Some? && r.value == DatabaseService(app.value)
      ensures r.Failure? ==> unchanged(this) && r.error == MissingMessage(Missing(config))
    {
      var a := Init(created);
      if a.Failure? {
        return Failure(a.error);
      }
      r := Success(database.value);
    }

    /** `storage()`: initialise if needed, then hand out the storage service. */
    method Storage(created: AppHandle) returns (r: Result<Service, string>)
      requires Valid()
      modifies this
      ensures Valid()
      ensures old(app).Some? ==> unchanged(this)
      ensures app == if old(app).Some? then old(app) else if Missing(config) == [] then Some(created) else None
      ensures r.Success? <==> Missing(config) == []
      ensures r.Success? ==> app.Some? && r.value == StorageService(app.value)
      ensures r.Failure? ==> unchanged(this) && r.error == MissingMessage(Missing(config))
    {
      var a := Init(created);
      if a.Failure? {
        return Failure(a.error);
      }
      r := Success(storage.value);
    }
  }
}
