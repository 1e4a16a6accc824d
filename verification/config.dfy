/** The configuration reader of notflixbot/config.py: a nested-key lookup
    over the parsed JSON document, the record built from it field by field,
    and the stored credentials. */
module Configuration {
  import opened Wrappers
  import opened Json
  import opened PyStr
  import opened Exceptions

  /** Where `reduce(operator.getitem, keys, root)` ends up: at a value, at a
      dict without the next key (KeyError), or at something that is not a
      dict (TypeError, which nothing catches). */
  datatype Walked = Reached(value: JValue) | NoKey | NotSubscriptable

  function Walk(v: JValue, keys: seq<string>): Walked
    decreases |keys|
  {
    if keys == [] then Reached(v)
    else match v
      case JObj(m) => if keys[0] in m then Walk(m[keys[0]], keys[1..]) else NoKey
      case _ => NotSubscriptable
  }

  /** The fold law of `reduce`: walking a longer path is walking its first
      part and then the rest from wherever that led. */
  lemma {:induction false} WalkAppend(v: JValue, a: seq<string>, b: seq<string>)
    ensures Walk(v, a + b) == if Walk(v, a).Reached? then Walk(Walk(v, a).value, b) else Walk(v, a)
    decreases |a|
  {
    if a != [] {
      assert (a + b)[0] == a[0] && (a + b)[1..] == a[1..] + b;
      if v.JObj? && a[0] in v.fields {
        WalkAppend(v.fields[a[0]], a[1..], b);
      }
    } else {
      assert a + b == b;
    }
  }

  /** `'.'.join(keys)`, the path named in the error message. */
  function JsonPath(keys: seq<string>): string {
    Join(keys, '.')
  }

  /** `Config._get_cfg(keys, default, required)`.  Python's `None` is `JNull`.
      When the path is missing and not required the source returns `default`
      if it is not `None` and `None` otherwise, which is `default` either way. */
  function GetCfg(root: JValue, keys: seq<string>, default: JValue, required: bool): (r: Result<JValue, Exc>)
    ensures r.Failure? <==> Walk(root, keys).NotSubscriptable? || (Walk(root, keys).NoKey? && required)
    ensures r.Success? && r.value != default ==> Walk(root, keys) == Reached(r.value)
    ensures r.Failure? && required && !Walk(root, keys).NotSubscriptable? ==>
              r.error == ConfigError("required in config: '" + JsonPath(keys) + "'")
  {
    match Walk(root, keys)
    case Reached(v) => Success(v)
    case NoKey =>
      if required then Failure(ConfigError("required in config: '" + JsonPath(keys) + "'"))
      else Success(default)
    case NotSubscriptable => Failure(TypeError)
  }

  /** A one-key lookup, stated on the dict itself. */
  lemma GetCfgOneKey(m: map<string, JValue>, k: string, default: JValue, required: bool)
    ensures k in m ==> GetCfg(JObj(m), [k], default, required) == Success(m[k])
    ensures k !in m && required ==> GetCfg(JObj(m), [k], default, required) == Failure(ConfigError("required in config: '" + k + "'"))
    ensures k !in m && !required ==> GetCfg(JObj(m), [k], default, required) == Success(default)
  {
    assert [k][0] == k && [k][1..] == [];
    assert JsonPath([k]) == k;
    if k in m {
      assert Walk(JObj(m), [k]) == Walk(m[k], []) == Reached(m[k]);
    } else {
      assert Walk(JObj(m), [k]) == NoKey;
    }
  }

  /** A two-key lookup `root[a][b]`, stated on the nested dicts: the stored
      value comes back whatever it is (even `None` or ""), a missing key
      gives the error or the default, and a non-dict section raises
      TypeError. */
  lemma GetCfgTwoKeys(m: map<string, JValue>, a: string, b: string, default: JValue, required: bool)
    ensures a in m && m[a].JObj? && b in m[a].fields ==>
              GetCfg(JObj(m), [a, b], default, required) == Success(m[a].fields[b])
    ensures (a !in m || (m[a].JObj? && b !in m[a].fields)) ==>
              GetCfg(JObj(m), [a, b], default, required) ==
                if required then Failure(ConfigError("required in config: '" + a + "." + b + "'"))
                else Success(default)
    ensures a in m && !m[a].JObj? ==> GetCfg(JObj(m), [a, b], default, required) == Failure(TypeError)
  {
    assert [a, b][0] == a && [a, b][1..] == [b];
    assert [b][0] == b && [b][1..] == [];
    assert JsonPath([a, b]) == a + "." + b by {
      assert Join([a, b][1..], '.') == b;
    }
    assert "required in config: '" + JsonPath([a, b]) + "'" == "required in config: '" + a + "." + b + "'";
    if a !in m {
      assert Walk(JObj(m), [a, b]) == NoKey;
    } else if !m[a].JObj? {
      assert Walk(JObj(m), [a, b]) == Walk(m[a], [b]) == NotSubscriptable;
    } else if b !in m[a].fields {
      assert Walk(JObj(m), [a, b]) == Walk(m[a], [b]) == NoKey;
    } else {
      assert Walk(JObj(m), [a, b]) == Walk(m[a], [b]) == Walk(m[a].fields[b], []);
    }
  }

  // ---------------------------------------------------------------------
  // The record `_parse_config_dict` builds.

  /** `self.log`. */
  datatype LogConf = LogConf(level: JValue, logfile: JValue, json: JValue, stderr: JValue)

  /** A `Credentials` object: the three fields its parser reads. */
  datatype Credentials = Credentials(userId: JValue, deviceId: JValue, accessToken: JValue)

  datatype ConfigRecord = ConfigRecord(
    log: LogConf,
    homeserver: JValue,
    userId: JValue,
    passwd: JValue,
    deviceName: JValue,
    avatar: JValue,
    rooms: JValue,
    notflixbot: JValue,
    autotrust: JValue,
    cmdPrefixes: JValue,
    credentialsPath: JValue,
    creds: Option<Credentials>,
    storagePath: JValue)

  /** The key the stderr flag is read from: the misspelt `stderrr` as
      written, `stderr` as evidently intended. */
  function StderrKey(asWritten: bool): string {
    if asWritten then "stderrr" else "stderr"
  }

  /** The `self.log` dict, with the stderr flag read from `["log", stderrKey]`. */
  function ParseLogFrom(root: JValue, stderrKey: string): Result<LogConf, Exc> {
    var level :- GetCfg(root, ["log", "level"], JNull, true);
    var logfile :- GetCfg(root, ["log", "logfile"], JNull, false);
    var json :- GetCfg(root, ["log", "json"], JBool(false), false);
    var stderr :- GetCfg(root, ["log", stderrKey], JBool(true), false);
    Success(LogConf(level, logfile, json, stderr))
  }

  /** The log section as written: the flag is read from the misspelt key
      `stderrr`. */
  function ParseLogAsWritten(root: JValue): Result<LogConf, Exc> {
    ParseLogFrom(root, StderrKey(true))
  }

  /** The log section as evidently intended: the flag is read from `stderr`,
      the key the sample configuration carries. */
  function ParseLog(root: JValue): Result<LogConf, Exc> {
    ParseLogFrom(root, StderrKey(false))
  }

  /** As written, the stderr flag of every accepted log section without a
      `stderrr` key is True, whatever `log.stderr` holds. */
  lemma StderrFlagIgnoresStderrKey(root: JValue)
    requires ParseLogAsWritten(root).Success?
    requires !Walk(root, ["log", "stderrr"]).Reached?
    ensures ParseLogAsWritten(root).value.stderr == JBool(true)
  {
    var stderr := GetCfg(root, ["log", "stderrr"], JBool(true), false);
    assert stderr.Success?;
    OptionalLookup(root, ["log", "stderrr"], JBool(true));
  }

  /** The concrete case: `{"log": {"level": ..., "stderr": false}}` comes out
      with the flag True. */
  lemma StderrFalseIgnored(level: JValue)
    ensures var root := JObj(map["log" := JObj(map["level" := level, "stderr" := JBool(false)])]);
      ParseLogAsWritten(root) == Success(LogConf(level, JNull, JBool(false), JBool(true)))
  {
    var lg := map["level" := level, "stderr" := JBool(false)];
    var m := map["log" := JObj(lg)];
    GetCfgTwoKeys(m, "log", "level", JNull, true);
    GetCfgTwoKeys(m, "log", "logfile", JNull, false);
    GetCfgTwoKeys(m, "log", "json", JBool(false), false);
    GetCfgTwoKeys(m, "log", "stderrr", JBool(true), false);
  }

  /** Corrected, the flag is the stored `log.stderr` when present and True
      when absent. */
  lemma ParseLogHonoursStderr(lg: map<string, JValue>)
    requires "level" in lg
    ensures var r := ParseLog(JObj(map["log" := JObj(lg)]));
      && r.Success?
      && r.value.level == lg["level"]
      && r.value.stderr == (if "stderr" in lg then lg["stderr"] else JBool(true))
  {
    var m := map["log" := JObj(lg)];
    GetCfgTwoKeys(m, "log", "level", JNull, true);
    GetCfgTwoKeys(m, "log", "logfile", JNull, false);
    GetCfgTwoKeys(m, "log", "json", JBool(false), false);
    GetCfgTwoKeys(m, "log", "stderr", JBool(true), false);
  }

  /** `Credentials._parse_config_dict`: all three fields are required. */
  function ParseCredentials(d: JValue): (r: Result<Credentials, Exc>)
    ensures r.Success? <==> forall k :: k in CredentialKeys ==> Walk(d, [k]).Reached?
  {
    var userId :- GetCfg(d, ["user_id"], JNull, true);
    var deviceId :- GetCfg(d, ["device_id"], JNull, true);
    var accessToken :- GetCfg(d, ["access_token"], JNull, true);
    Success(Credentials(userId, deviceId, accessToken))
  }

  const CredentialKeys: set<string> := {"user_id", "device_id", "access_token"}

  /** A credentials dict carrying the three keys gives exactly those values. */
  lemma ParseCredentialsFields(m: map<string, JValue>)
    requires "user_id" in m && "device_id" in m && "access_token" in m
    ensures ParseCredentials(JObj(m)) == Success(Credentials(m["user_id"], m["device_id"], m["access_token"]))
  {
  }

  /** What the file at a path holds, for `Credentials.read`. */
  datatype CredsFile = Unparsable | Parsed(json: JValue)

  /** The files that exist; any other path is FileNotFoundError. */
  type FileStore = map<string, CredsFile>

  /** `Credentials.read(path)`: a missing file or invalid JSON is a
      ConfigError, then the parsed dict goes through `ParseCredentials`. */
  function ReadCredentials(path: string, fs: FileStore): (r: Result<Credentials, Exc>)
    ensures path !in fs ==> r.Failure? && r.error.ConfigError?
  {
    if path !in fs then Failure(ConfigError("config file not found: '" + path + "'"))
    else match fs[path]
      case Unparsable => Failure(ConfigError("invalid json in '" + path + "'"))
      case Parsed(j) => ParseCredentials(j)
  }

  /** The try/except around `Credentials.read(self.credentials_path)`, as
      written: a ConfigError leaves `creds` as `None`, any other exception
      escapes, and a path that is `None` (what an absent `credentials_path`
      yields), a list or a dict makes `open` raise TypeError.  A number is
      treated the same way. */
  function LoadCredsAsWritten(path: JValue, fs: FileStore): (r: Result<Option<Credentials>, Exc>)
    ensures r.Failure? ==> !r.error.ConfigError?
  {
    if !path.JStr? then Failure(TypeError)
    else match ReadCredentials(path.s, fs)
      case Success(c) => Success(Some(c))
      case Failure(e) => if e.ConfigError? then Success(None) else Failure(e)
  }

  /** As written, a configuration without `credentials_path` cannot be
      loaded at all: `_get_cfg` yields `None` and `open(None)` raises. */
  lemma MissingCredentialsPathRaises(m: map<string, JValue>, fs: FileStore)
    requires "credentials_path" !in m
    ensures var path := GetCfg(JObj(m), ["credentials_path"], JNull, false);
      path == Success(JNull) && LoadCredsAsWritten(path.value, fs) == Failure(TypeError)
  {
    GetCfgOneKey(m, "credentials_path", JNull, false);
  }

  /** The credentials step as evidently intended: no path means no stored
      credentials, as a missing file already does. */
  function LoadCreds(path: JValue, fs: FileStore): (r: Result<Option<Credentials>, Exc>)
    ensures path == JNull ==> r == Success(None)
    ensures path.JStr? ==> r == LoadCredsAsWritten(path, fs)
  {
    if path == JNull then Success(None) else LoadCredsAsWritten(path, fs)
  }

  /** A credentials file that is missing, unparsable or lacks a key leaves
      `creds` as `None`; a complete one is loaded. */
  lemma LoadCredsOutcome(p: string, fs: FileStore)
    ensures p !in fs ==> LoadCreds(JStr(p), fs) == Success(None)
    ensures p in fs && fs[p] == Unparsable ==> LoadCreds(JStr(p), fs) == Success(None)
    ensures p in fs && fs[p].Parsed? && fs[p].json.JObj? ==>
              LoadCreds(JStr(p), fs) ==
                if ParseCredentials(fs[p].json).Success? then Success(Some(ParseCredentials(fs[p].json).value))
                else Success(None)
  {
    if p in fs && fs[p].Parsed? && fs[p].json.JObj? {
      var m := fs[p].json.fields;
      GetCfgOneKey(m, "user_id", JNull, true);
      GetCfgOneKey(m, "device_id", JNull, true);
      GetCfgOneKey(m, "access_token", JNull, true);
    }
  }

  /** The `matrix` section, read in source order. */
  datatype MatrixFields = MatrixFields(
    homeserver: JValue, userId: JValue, passwd: JValue,
    deviceName: JValue, avatar: JValue, rooms: JValue)

  function ParseMatrix(root: JValue): Result<MatrixFields, Exc> {
    var homeserver :- GetCfg(root, ["matrix", "homeserver"], JNull, true);
    var userId :- GetCfg(root, ["matrix", "user_id"], JNull, true);
    var passwd :- GetCfg(root, ["matrix", "passwd"], JNull, false);
    var deviceName :- GetCfg(root, ["matrix", "device_name"], JNull, true);
    var avatar :- GetCfg(root, ["matrix", "avatar"], JNull, false);
    var rooms :- GetCfg(root, ["matrix", "rooms"], JList([]), false);
    Success(MatrixFields(homeserver, userId, passwd, deviceName, avatar, rooms))
  }

  /** The top-level keys after the `matrix` section. */
  datatype BotFields = BotFields(notflixbot: JValue, autotrust: JValue, cmdPrefixes: JValue)

  function ParseBot(root: JValue): Result<BotFields, Exc> {
    var notflixbot :- GetCfg(root, ["notflixbot"], JObj(map[]), false);
    var autotrust :- GetCfg(root, ["autotrust"], JBool(false), false);
    var cmdPrefixes :- GetCfg(root, ["cmd_prefixes"], JNull, true);
    Success(BotFields(notflixbot, autotrust, cmdPrefixes))
  }

  /** The stored credentials and the storage path, read last. */
  datatype StoreFields = StoreFields(credentialsPath: JValue, creds: Option<Credentials>, storagePath: JValue)

  /** The credentials step as written (`LoadCredsAsWritten`) or as intended
      (`LoadCreds`). */
  function LoadCredsFrom(path: JValue, fs: FileStore, asWritten: bool): Result<Option<Credentials>, Exc> {
    if asWritten then LoadCredsAsWritten(path, fs) else LoadCreds(path, fs)
  }

  function ParseStoreFrom(root: JValue, fs: FileStore, asWritten: bool): Result<StoreFields, Exc> {
    var credentialsPath :- GetCfg(root, ["credentials_path"], JNull, false);
    var creds :- LoadCredsFrom(credentialsPath, fs, asWritten);
    var storagePath :- GetCfg(root, ["storage_path"], JNull, true);
    Success(StoreFields(credentialsPath, creds, storagePath))
  }

  function ParseStoreAsWritten(root: JValue, fs: FileStore): Result<StoreFields, Exc> {
    ParseStoreFrom(root, fs, true)
  }

  function ParseStore(root: JValue, fs: FileStore): Result<StoreFields, Exc> {
    ParseStoreFrom(root, fs, false)
  }

  /** `Config._parse_config_dict`, in the order the source reads the keys, so
      that the first missing key is the one reported: as written when
      `asWritten` holds, with the two corrections otherwise.  Logger set-up
      between the log section and the rest is not part of this model. */
  function ParseConfigFrom(root: JValue, fs: FileStore, asWritten: bool): Result<ConfigRecord, Exc> {
    var log :- ParseLogFrom(root, StderrKey(asWritten));
    var mx :- ParseMatrix(root);
    var bot :- ParseBot(root);
    var st :- ParseStoreFrom(root, fs, asWritten);
    Success(ConfigRecord(log, mx.homeserver, mx.userId, mx.passwd, mx.deviceName, mx.avatar, mx.rooms,
                         bot.notflixbot, bot.autotrust, bot.cmdPrefixes, st.credentialsPath, st.creds,
                         st.storagePath))
  }

  /** The parse as the source writes it. */
  function ParseConfigAsWritten(root: JValue, fs: FileStore): Result<ConfigRecord, Exc> {
    ParseConfigFrom(root, fs, true)
  }

  /** The parse as evidently intended: `log.stderr` is read, and an absent
      `credentials_path` means no stored credentials. */
  function ParseConfig(root: JValue, fs: FileStore): Result<ConfigRecord, Exc> {
    ParseConfigFrom(root, fs, false)
  }

  /** The keys `_parse_config_dict` requires. */
  const RequiredPaths: seq<seq<string>> := [
    ["log", "level"], ["matrix", "homeserver"], ["matrix", "user_id"],
    ["matrix", "device_name"], ["cmd_prefixes"], ["storage_path"]]

  /** Every key path the parser reads, besides the stderr flag's. */
  const ReadPaths: seq<seq<string>> := [
    ["log", "level"], ["log", "logfile"], ["log", "json"],
    ["matrix", "homeserver"], ["matrix", "user_id"], ["matrix", "passwd"],
    ["matrix", "device_name"], ["matrix", "avatar"], ["matrix", "rooms"],
    ["notflixbot"], ["autotrust"], ["cmd_prefixes"], ["credentials_path"],
    ["storage_path"]]

  /** Any missing required key makes the whole parse fail, as written and
      corrected. */
  lemma RequiredKeyMissingFails(root: JValue, fs: FileStore, i: nat, asWritten: bool)
    requires i < |RequiredPaths| && Walk(root, RequiredPaths[i]).NoKey?
    ensures ParseConfigFrom(root, fs, asWritten).Failure?
  {
    if i == 0 {
      assert ParseLogFrom(root, StderrKey(asWritten)).Failure?;
    } else if i <= 3 {
      assert ParseMatrix(root).Failure?;
    } else if i == 4 {
      assert ParseBot(root).Failure?;
    } else {
      assert ParseStoreFrom(root, fs, asWritten).Failure?;
    }
  }

  /** The empty configuration is refused, naming `log.level`; so is one with
      only a top-level `stderr`. */
  lemma EmptyConfigFails(fs: FileStore, asWritten: bool)
    ensures ParseConfigFrom(JObj(map[]), fs, asWritten) == Failure(ConfigError("required in config: 'log.level'"))
    ensures ParseConfigFrom(JObj(map["stderr" := JBool(true)]), fs, asWritten) ==
              Failure(ConfigError("required in config: 'log.level'"))
  {
    GetCfgTwoKeys(map[], "log", "level", JNull, true);
    GetCfgTwoKeys(map["stderr" := JBool(true)], "log", "level", JNull, true);
    assert "required in config: '" + "log" + "." + "level" + "'" == "required in config: 'log.level'";
    var key := StderrKey(asWritten);
    assert ParseLogFrom(JObj(map[]), key) == Failure(ConfigError("required in config: 'log.level'"));
    assert ParseLogFrom(JObj(map["stderr" := JBool(true)]), key) == Failure(ConfigError("required in config: 'log.level'"));
  }

  /** As written, a configuration whose `credentials_path` is absent or null
      is refused with TypeError once the sections before it parse. */
  lemma NullCredentialsPathFails(root: JValue, fs: FileStore)
    requires ParseLogAsWritten(root).Success? && ParseMatrix(root).Success? && ParseBot(root).Success?
    requires Walk(root, ["credentials_path"]).NoKey? || Walk(root, ["credentials_path"]) == Reached(JNull)
    ensures ParseConfigAsWritten(root, fs) == Failure(TypeError)
  {
    assert GetCfg(root, ["credentials_path"], JNull, false) == Success(JNull);
    assert ParseStoreAsWritten(root, fs) == Failure(TypeError);
  }

  /** What an optional lookup yields: the stored value, or the default. */
  function Stored(root: JValue, keys: seq<string>, default: JValue): JValue {
    if Walk(root, keys).Reached? then Walk(root, keys).value else default
  }

  /** An optional lookup that succeeds yields the stored value when the path
      leads somewhere and the default when it does not. */
  lemma OptionalLookup(root: JValue, keys: seq<string>, default: JValue)
    requires GetCfg(root, keys, default, false).Success?
    ensures GetCfg(root, keys, default, false).value == Stored(root, keys, default)
  {
  }

  /** An optional lookup fails only on a non-dict section; a required one
      also on a missing key. */
  lemma LookupSucceeds(root: JValue, keys: seq<string>, default: JValue, required: bool)
    requires !Walk(root, keys).NotSubscriptable?
    requires required ==> Walk(root, keys).Reached?
    ensures GetCfg(root, keys, default, required).Success?
  {
  }

  lemma LogAccepted(root: JValue, asWritten: bool)
    requires Walk(root, ["log", "level"]).Reached?
    requires !Walk(root, ["log", "logfile"]).NotSubscriptable?
    requires !Walk(root, ["log", "json"]).NotSubscriptable?
    requires !Walk(root, ["log", StderrKey(asWritten)]).NotSubscriptable?
    ensures ParseLogFrom(root, StderrKey(asWritten)).Success?
  {
    LookupSucceeds(root, ["log", "level"], JNull, true);
    LookupSucceeds(root, ["log", "logfile"], JNull, false);
    LookupSucceeds(root, ["log", "json"], JBool(false), false);
    LookupSucceeds(root, ["log", StderrKey(asWritten)], JBool(true), false);
  }

  lemma MatrixAccepted(root: JValue)
    requires Walk(root, ["matrix", "homeserver"]).Reached?
    requires Walk(root, ["matrix", "user_id"]).Reached?
    requires !Walk(root, ["matrix", "passwd"]).NotSubscriptable?
    requires Walk(root, ["matrix", "device_name"]).Reached?
    requires !Walk(root, ["matrix", "avatar"]).NotSubscriptable?
    requires !Walk(root, ["matrix", "rooms"]).NotSubscriptable?
    ensures ParseMatrix(root).Success?
  {
    LookupSucceeds(root, ["matrix", "homeserver"], JNull, true);
    LookupSucceeds(root, ["matrix", "user_id"], JNull, true);
    LookupSucceeds(root, ["matrix", "passwd"], JNull, false);
    LookupSucceeds(root, ["matrix", "device_name"], JNull, true);
    LookupSucceeds(root, ["matrix", "avatar"], JNull, false);
    LookupSucceeds(root, ["matrix", "rooms"], JList([]), false);
  }

  lemma BotAccepted(root: JValue)
    requires !Walk(root, ["notflixbot"]).NotSubscriptable?
    requires !Walk(root, ["autotrust"]).NotSubscriptable?
    requires Walk(root, ["cmd_prefixes"]).Reached?
    ensures ParseBot(root).Success?
  {
    LookupSucceeds(root, ["notflixbot"], JObj(map[]), false);
    LookupSucceeds(root, ["autotrust"], JBool(false), false);
    LookupSucceeds(root, ["cmd_prefixes"], JNull, true);
  }

  /** The credentials path gets through the credentials step: a string whose
      file, when it parses, holds a dict; corrected, also an absent or null
      path. */
  predicate CredsPathAccepted(root: JValue, fs: FileStore, asWritten: bool) {
    var p := Walk(root, ["credentials_path"]);
    if p.Reached? && p.value.JStr? then
      p.value.s in fs && fs[p.value.s].Parsed? ==> fs[p.value.s].json.JObj?
    else !asWritten && (p.Reached? ==> p.value == JNull)
  }

  lemma StoreAccepted(root: JValue, fs: FileStore, asWritten: bool)
    requires !Walk(root, ["credentials_path"]).NotSubscriptable?
    requires Walk(root, ["storage_path"]).Reached?
    requires CredsPathAccepted(root, fs, asWritten)
    ensures ParseStoreFrom(root, fs, asWritten).Success?
  {
    LookupSucceeds(root, ["credentials_path"], JNull, false);
    LookupSucceeds(root, ["storage_path"], JNull, true);
    var path := GetCfg(root, ["credentials_path"], JNull, false).value;
    if path.JStr? && path.s in fs && fs[path.s].Parsed? {
      var m := fs[path.s].json.fields;
      GetCfgOneKey(m, "user_id", JNull, true);
      GetCfgOneKey(m, "device_id", JNull, true);
      GetCfgOneKey(m, "access_token", JNull, true);
    }
  }

  /** A configuration whose every read key is either present or missing (no
      non-dict section in the way), with every required key present and a
      credentials path the credentials step accepts, is accepted. */
  lemma CompleteConfigAccepted(root: JValue, fs: FileStore, asWritten: bool)
    requires forall i :: 0 <= i < |ReadPaths| ==> !Walk(root, ReadPaths[i]).NotSubscriptable?
    requires !Walk(root, ["log", StderrKey(asWritten)]).NotSubscriptable?
    requires forall i :: 0 <= i < |RequiredPaths| ==> Walk(root, RequiredPaths[i]).Reached?
    requires CredsPathAccepted(root, fs, asWritten)
    ensures ParseConfigFrom(root, fs, asWritten).Success?
  {
    assert !Walk(root, ReadPaths[1]).NotSubscriptable?;
    assert !Walk(root, ReadPaths[2]).NotSubscriptable?;
    assert Walk(root, RequiredPaths[0]).Reached?;
    LogAccepted(root, asWritten);
    assert !Walk(root, ReadPaths[5]).NotSubscriptable?;
    assert !Walk(root, ReadPaths[7]).NotSubscriptable?;
    assert !Walk(root, ReadPaths[8]).NotSubscriptable?;
    assert Walk(root, RequiredPaths[1]).Reached?;
    assert Walk(root, RequiredPaths[2]).Reached?;
    assert Walk(root, RequiredPaths[3]).Reached?;
    MatrixAccepted(root);
    assert !Walk(root, ReadPaths[9]).NotSubscriptable?;
    assert !Walk(root, ReadPaths[10]).NotSubscriptable?;
    assert Walk(root, RequiredPaths[4]).Reached?;
    BotAccepted(root);
    assert !Walk(root, ReadPaths[12]).NotSubscriptable?;
    assert Walk(root, RequiredPaths[5]).Reached?;
    StoreAccepted(root, fs, asWritten);
  }

  lemma LogDefaults(root: JValue, asWritten: bool)
    requires ParseLogFrom(root, StderrKey(asWritten)).Success?
    ensures var lg := ParseLogFrom(root, StderrKey(asWritten)).value;
      && lg.logfile == Stored(root, ["log", "logfile"], JNull)
      && lg.json == Stored(root, ["log", "json"], JBool(false))
      && lg.stderr == Stored(root, ["log", StderrKey(asWritten)], JBool(true))
  {
    OptionalLookup(root, ["log", "logfile"], JNull);
    OptionalLookup(root, ["log", "json"], JBool(false));
    OptionalLookup(root, ["log", StderrKey(asWritten)], JBool(true));
  }

  lemma MatrixDefaults(root: JValue)
    requires ParseMatrix(root).Success?
    ensures var mx := ParseMatrix(root).value;
      && mx.passwd == Stored(root, ["matrix", "passwd"], JNull)
      && mx.avatar == Stored(root, ["matrix", "avatar"], JNull)
      && mx.rooms == Stored(root, ["matrix", "rooms"], JList([]))
  {
    OptionalLookup(root, ["matrix", "passwd"], JNull);
    OptionalLookup(root, ["matrix", "avatar"], JNull);
    OptionalLookup(root, ["matrix", "rooms"], JList([]));
  }

  lemma BotDefaults(root: JValue)
    requires ParseBot(root).Success?
    ensures var bot := ParseBot(root).value;
      && bot.notflixbot == Stored(root, ["notflixbot"], JObj(map[]))
      && bot.autotrust == Stored(root, ["autotrust"], JBool(false))
  {
    OptionalLookup(root, ["notflixbot"], JObj(map[]));
    OptionalLookup(root, ["autotrust"], JBool(false));
  }

  lemma StoreDefaults(root: JValue, fs: FileStore, asWritten: bool)
    requires ParseStoreFrom(root, fs, asWritten).Success?
    ensures ParseStoreFrom(root, fs, asWritten).value.credentialsPath == Stored(root, ["credentials_path"], JNull)
  {
    OptionalLookup(root, ["credentials_path"], JNull);
  }

  /** The optional fields: a missing key gives `None` for logfile, passwd,
      avatar and credentials_path, False for log.json and autotrust, True
      for the stderr flag, [] for rooms and {} for notflixbot; a present key
      gives the stored value. */
  lemma OptionalFieldDefaults(root: JValue, fs: FileStore, asWritten: bool)
    requires ParseConfigFrom(root, fs, asWritten).Success?
    ensures var c := ParseConfigFrom(root, fs, asWritten).value;
      && c.log.logfile == Stored(root, ["log", "logfile"], JNull)
      && c.log.json == Stored(root, ["log", "json"], JBool(false))
      && c.log.stderr == Stored(root, ["log", StderrKey(asWritten)], JBool(true))
      && c.passwd == Stored(root, ["matrix", "passwd"], JNull)
      && c.avatar == Stored(root, ["matrix", "avatar"], JNull)
      && c.rooms == Stored(root, ["matrix", "rooms"], JList([]))
      && c.notflixbot == Stored(root, ["notflixbot"], JObj(map[]))
      && c.autotrust == Stored(root, ["autotrust"], JBool(false))
      && c.credentialsPath == Stored(root, ["credentials_path"], JNull)
  {
    LogDefaults(root, asWritten);
    MatrixDefaults(root);
    BotDefaults(root);
    StoreDefaults(root, fs, asWritten);
  }

  /** The exception a failed step raised, if any. */
  function ErrorOf<T>(r: Result<T, Exc>): Option<Exc> {
    match r
    case Failure(e) => Some(e)
    case Success(_) => None
  }

  /** `Config`: the object whose fields `_parse_config_dict` assigns one by
      one and whose `creds` `update_creds` replaces. */
  class Config {
    var log: LogConf
    var homeserver: JValue
    var userId: JValue
    var passwd: JValue
    var deviceName: JValue
    var avatar: JValue
    var rooms: JValue
    var notflixbot: JValue
    var autotrust: JValue
    var cmdPrefixes: JValue
    var credentialsPath: JValue
    var creds: Option<Credentials>
    var storagePath: JValue

    function Record(): ConfigRecord
      reads this
    {
      ConfigRecord(log, homeserver, userId, passwd, deviceName, avatar, rooms,
                   notflixbot, autotrust, cmdPrefixes, credentialsPath, creds, storagePath)
    }

    /** The object before `_parse_config_dict` has run. */
    constructor Blank()
      ensures creds == None
    {
      log := LogConf(JNull, JNull, JNull, JNull);
      homeserver, userId, passwd, deviceName, avatar := JNull, JNull, JNull, JNull, JNull;
      rooms, notflixbot, autotrust, cmdPrefixes := JNull, JNull, JNull, JNull;
      credentialsPath, creds, storagePath := JNull, None, JNull;
    }

    /** `_parse_config_dict`: reads and assigns the fields in source order and
      stops at the first exception. */
    method ParseConfigDict(root: JValue, fs: FileStore) returns (err: Option<Exc>)
      modifies this
      ensures ParseConfigAsWritten(root, fs).Success? ==> err == None && Record() == ParseConfigAsWritten(root, fs).value
      ensures ParseConfigAsWritten(root, fs).Failure? ==> err == Some(ParseConfigAsWritten(root, fs).error)
    {
      var lg := ParseLogAsWritten(root);
      if lg.Failure? { return ErrorOf(lg); }
      log := lg.value;
      err := AssignMatrix(root);
      if err.Some? { return; }
      err := AssignBot(root);
      if err.Some? { return; }
      err := AssignStore(root, fs);
    }

    /** The `matrix` assignments, homeserver through rooms. */
    method AssignMatrix(root: JValue) returns (err: Option<Exc>)
      modifies this
      ensures log == old(log)
      ensures ParseMatrix(root).Success? ==> (err == None &&
        var mx := ParseMatrix(root).value;
        homeserver == mx.homeserver && userId == mx.userId && passwd == mx.passwd &&
        deviceName == mx.deviceName && avatar == mx.avatar && rooms == mx.rooms)
      ensures ParseMatrix(root).Failure? ==> err == Some(ParseMatrix(root).error)
    {
      var v := GetCfg(root, ["matrix", "homeserver"], JNull, true);
      if v.Failure? { return ErrorOf(v); }
      homeserver := v.value;
      v := GetCfg(root, ["matrix", "user_id"], JNull, true);
      if v.Failure? { return ErrorOf(v); }
      userId := v.value;
      v := GetCfg(root, ["matrix", "passwd"], JNull, false);
      if v.Failure? { return ErrorOf(v); }
      passwd := v.value;
      v := GetCfg(root, ["matrix", "device_name"], JNull, true);
      if v.Failure? { return ErrorOf(v); }
      deviceName := v.value;
      v := GetCfg(root, ["matrix", "avatar"], JNull, false);
      if v.Failure? { return ErrorOf(v); }
      avatar := v.value;
      v := GetCfg(root, ["matrix", "rooms"], JList([]), false);
      if v.Failure? { return ErrorOf(v); }
      rooms := v.value;
      err := None;
    }

    /** The top-level assignments notflixbot, autotrust and cmd_prefixes. */
    method AssignBot(root: JValue) returns (err: Option<Exc>)
      modifies this
      ensures log == old(log) && homeserver == old(homeserver) && userId == old(userId)
      ensures passwd == old(passwd) && deviceName == old(deviceName)
      ensures avatar == old(avatar) && rooms == old(rooms)
      ensures ParseBot(root).Success? ==> (err == None &&
        var bot := ParseBot(root).value;
        notflixbot == bot.notflixbot && autotrust == bot.autotrust && cmdPrefixes == bot.cmdPrefixes)
      ensures ParseBot(root).Failure? ==> err == Some(ParseBot(root).error)
    {
      var v := GetCfg(root, ["notflixbot"], JObj(map[]), false);
      if v.Failure? { return ErrorOf(v); }
      notflixbot := v.value;
      v := GetCfg(root, ["autotrust"], JBool(false), false);
      if v.Failure? { return ErrorOf(v); }
      autotrust := v.value;
      v := GetCfg(root, ["cmd_prefixes"], JNull, true);
      if v.Failure? { return ErrorOf(v); }
      cmdPrefixes := v.value;
      err := None;
    }

    /** The credentials path, the credentials it names and the storage path. */
    method AssignStore(root: JValue, fs: FileStore) returns (err: Option<Exc>)
      modifies this
      ensures log == old(log) && homeserver == old(homeserver) && userId == old(userId)
      ensures passwd == old(passwd) && deviceName == old(deviceName)
      ensures avatar == old(avatar) && rooms == old(rooms)
      ensures notflixbot == old(notflixbot) && autotrust == old(autotrust) && cmdPrefixes == old(cmdPrefixes)
      ensures ParseStoreAsWritten(root, fs).Success? ==> (err == None &&
        var st := ParseStoreAsWritten(root, fs).value;
        credentialsPath == st.credentialsPath && creds == st.creds && storagePath == st.storagePath)
      ensures ParseStoreAsWritten(root, fs).Failure? ==> err == Some(ParseStoreAsWritten(root, fs).error)
    {
      var v := GetCfg(root, ["credentials_path"], JNull, false);
      if v.Failure? { return ErrorOf(v); }
      credentialsPath := v.value;
      var c := LoadCredsAsWritten(credentialsPath, fs);
      if c.Failure? { return ErrorOf(c); }
      creds := c.value;
      v := GetCfg(root, ["storage_path"], JNull, true);
      if v.Failure? { return ErrorOf(v); }
      storagePath := v.value;
      err := None;
    }

    /** `update_creds`: a complete credentials dict replaces `creds`, and
      nothing else changes; an incomplete one raises and leaves `creds` as it
      was.  Writing the file is output only. */
    method UpdateCreds(credentials: JValue) returns (err: Option<Exc>)
      modifies this
      ensures ParseCredentials(credentials).Success? ==>
                err == None && Record() == old(Record()).(creds := Some(ParseCredentials(credentials).value))
      ensures ParseCredentials(credentials).Failure? ==>
                err == Some(ParseCredentials(credentials).error) && Record() == old(Record())
    {
      var c := ParseCredentials(credentials);
      if c.Failure? { return ErrorOf(c); }
      creds := Some(c.value);
      err := None;
    }
  }

  /** `Config(config_dict, path)`: a fresh object holding the parsed record,
      or the exception the constructor raises. */
  method NewConfig(root: JValue, fs: FileStore) returns (r: Result<Config, Exc>)
    ensures r.Success? <==> ParseConfigAsWritten(root, fs).Success?
    ensures r.Success? ==> fresh(r.value) && r.value.Record() == ParseConfigAsWritten(root, fs).value
    ensures r.Failure? ==> r.error == ParseConfigAsWritten(root, fs).error
  {
    var c := new Config.Blank();
    var err := c.ParseConfigDict(root, fs);
    if err.Some? { return Failure(err.value); }
    r := Success(c);
  }
}
