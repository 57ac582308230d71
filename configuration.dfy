/**
  The configuration class of the web API (web-api/config.py): class attributes
  read once from the process environment, and `validate`, which checks that the
  three device credentials are present.
 */
module Configuration {
  import opened Wrappers

  /**
    The process environment as the class body reads it: `strings` holds the
    variables read as text, `integers` the variables read through `int(...)`,
    already converted.
   */
  datatype Environment = Environment(strings: map<string, string>, integers: map<string, int>)

  /** `os.getenv(name, default)` */
  function GetEnv(env: Environment, name: string, default: string): string {
    if name in env.strings then env.strings[name] else default
  }

  /** `int(os.getenv(name, default))`, the conversion taken as given */
  function GetIntEnv(env: Environment, name: string, default: int): int {
    if name in env.integers then env.integers[name] else default
  }

  /** `str.lower` on one character, restricted to ASCII letters */
  function LowerChar(c: char): char {
    if 'A' <= c <= 'Z' then (c as int + 32) as char else c
  }

  /** `str.lower` */
  function Lower(s: string): (r: string)
    ensures |r| == |s|
    ensures forall i :: 0 <= i < |s| ==> r[i] == LowerChar(s[i])
  {
    if s == [] then [] else [LowerChar(s[0])] + Lower(s[1..])
  }

  datatype Config = Config(
    bleUuid: string,
    secretKey: string,
    publicKey: string,
    scanDuration: int,
    host: string,
    port: int,
    debug: bool,
    logLevel: string)

  const DefaultScanDuration := 15
  const DefaultHost := "0.0.0.0"
  const DefaultPort := 8000
  const DefaultDebug := "false"
  const DefaultLogLevel := "INFO"

  /** The class attributes of `Config`, evaluated against `env`. */
  function Load(env: Environment): Config {
    Config(
      bleUuid := GetEnv(env, "SESAME_BLE_UUID", ""),
      secretKey := GetEnv(env, "SESAME_SECRET_KEY", ""),
      publicKey := GetEnv(env, "SESAME_PUBLIC_KEY", ""),
      scanDuration := GetIntEnv(env, "SESAME_SCAN_DURATION", DefaultScanDuration),
      host := GetEnv(env, "HOST", DefaultHost),
      port := GetIntEnv(env, "PORT", DefaultPort),
      debug := Lower(GetEnv(env, "DEBUG", DefaultDebug)) == "true",
      logLevel := GetEnv(env, "LOG_LEVEL", DefaultLogLevel))
  }

  /** Every attribute whose variable is unset takes its documented default. */
  lemma DefaultsWhenUnset(env: Environment)
    ensures "SESAME_BLE_UUID" !in env.strings ==> Load(env).bleUuid == ""
    ensures "SESAME_SECRET_KEY" !in env.strings ==> Load(env).secretKey == ""
    ensures "SESAME_PUBLIC_KEY" !in env.strings ==> Load(env).publicKey == ""
    ensures "SESAME_SCAN_DURATION" !in env.integers ==> Load(env).scanDuration == 15
    ensures "HOST" !in env.strings ==> Load(env).host == "0.0.0.0"
    ensures "PORT" !in env.integers ==> Load(env).port == 8000
    ensures "DEBUG" !in env.strings ==> !Load(env).debug
    ensures "LOG_LEVEL" !in env.strings ==> Load(env).logLevel == "INFO"
  {
    if "DEBUG" !in env.strings {
      assert Lower(DefaultDebug)[0] == 'f';
    }
  }

  /** A variable that is set is taken as it is, even when it is empty. */
  lemma SetValuesTaken(env: Environment)
    ensures "SESAME_BLE_UUID" in env.strings ==> Load(env).bleUuid == env.strings["SESAME_BLE_UUID"]
    ensures "SESAME_SECRET_KEY" in env.strings ==> Load(env).secretKey == env.strings["SESAME_SECRET_KEY"]
    ensures "SESAME_PUBLIC_KEY" in env.strings ==> Load(env).publicKey == env.strings["SESAME_PUBLIC_KEY"]
    ensures "SESAME_SCAN_DURATION" in env.integers ==> Load(env).scanDuration == env.integers["SESAME_SCAN_DURATION"]
    ensures "HOST" in env.strings ==> Load(env).host == env.strings["HOST"]
    ensures "PORT" in env.integers ==> Load(env).port == env.integers["PORT"]
    ensures "LOG_LEVEL" in env.strings ==> Load(env).logLevel == env.strings["LOG_LEVEL"]
  {
  }

  /**
    DEBUG is on exactly when the variable is set to a four-letter value that
    spells "true" in any mix of upper and lower case.
   */
  lemma {:induction false} DebugMeansTrueInAnyCase(env: Environment)
    ensures Load(env).debug <==>
      "DEBUG" in env.strings &&
      |env.strings["DEBUG"]| == 4 &&
      forall i :: 0 <= i < 4 ==> LowerChar(env.strings["DEBUG"][i]) == "true"[i]
  {
    var v := GetEnv(env, "DEBUG", DefaultDebug);
    if "DEBUG" !in env.strings {
      assert Lower(v)[0] == 'f';
    } else if |v| == 4 && forall i :: 0 <= i < 4 ==> LowerChar(v[i]) == "true"[i] {
      assert Lower(v) == "true";
    }
  }

  /** The three credentials, in the order `validate` checks them, with their variable names. */
  function Required(c: Config): seq<(string, string)> {
    [("SESAME_BLE_UUID", c.bleUuid), ("SESAME_SECRET_KEY", c.secretKey), ("SESAME_PUBLIC_KEY", c.publicKey)]
  }

  /** The name of the first entry of `entries` whose value is empty. */
  function FirstMissing(entries: seq<(string, string)>): (r: Option<string>)
    ensures r.None? <==> forall i :: 0 <= i < |entries| ==> entries[i].1 != ""
    ensures r.Some? ==> exists k :: 0 <= k < |entries| && entries[k].1 == "" && r.value == entries[k].0 &&
                          forall i :: 0 <= i < k ==> entries[i].1 != ""
  {
    if entries == [] then None
    else if entries[0].1 == "" then Some(entries[0].0)
    else
      var r := FirstMissing(entries[1..]);
      assert forall i :: 1 <= i < |entries| ==> entries[i] == entries[1..][i - 1];
      if r.Some? then
        ghost var k :| 0 <= k < |entries[1..]| && entries[1..][k].1 == "" && r.value == entries[1..][k].0 &&
                       forall i :: 0 <= i < k ==> entries[1..][i].1 != "";
        assert entries[k + 1] == entries[1..][k];
        assert forall i :: 1 <= i < k + 1 ==> entries[i] == entries[1..][i - 1];
        r
      else r
  }

  /** The message `validate` raises for a missing variable. */
  function RequiredMessage(name: string): string {
    name + " environment variable is required"
  }

  /**
    `Config.validate`: either returns True or raises ValueError naming the first
    missing credential. It reads the attributes and changes nothing.
   */
  function Validate(c: Config): (r: Result<bool, string>)
    ensures r.Success? <==> c.bleUuid != "" && c.secretKey != "" && c.publicKey != ""
    ensures r.Success? ==> r.value
  {
    if c.bleUuid == "" then Failure(RequiredMessage("SESAME_BLE_UUID"))
    else if c.secretKey == "" then Failure(RequiredMessage("SESAME_SECRET_KEY"))
    else if c.publicKey == "" then Failure(RequiredMessage("SESAME_PUBLIC_KEY"))
    else Success(true)
  }

  /** `validate` fails exactly when a credential is missing, and names the first one in the fixed order. */
  lemma ValidateNamesFirstMissing(c: Config)
    ensures Validate(c).Failure? <==> FirstMissing(Required(c)).Some?
    ensures Validate(c).Failure? ==> Validate(c).error == RequiredMessage(FirstMissing(Required(c)).value)
  {
    var req := Required(c);
    assert req[0].1 == c.bleUuid && req[1].1 == c.secretKey && req[2].1 == c.publicKey;
    var m := FirstMissing(req);
    if m.Some? {
      var k :| 0 <= k < |req| && req[k].1 == "" && m.value == req[k].0 && forall i :: 0 <= i < k ==> req[i].1 != "";
      assert k == 0 || k == 1 || k == 2;
    }
  }
}
