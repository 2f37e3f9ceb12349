/** scripts/generate_firebase_config.py: reads `.env` into a dictionary,
    line by line, and projects a fixed set of its entries into the
    `google-services.json` document for the Android app. Whether `.env`
    exists and what it holds are inputs; the file written is the result. */
module FirebaseConfig {
  import opened Core
  import opened Types
  import opened PyText

  /** The script's `env` dictionary. */
  type Dict = map<string, string>

  /** The dictionary after the read loop, or the stripped line whose
      `key, value = line.split('=', 1)` raised, for want of an `=`. */
  datatype Loaded = Loaded(env: Dict) | UnpackError(line: string)

  /** A stripped line the loop skips: empty, or a comment. */
  predicate Ignored(line: string)
  {
    line == [] || line[0] == '#'
  }

  /** `key, value = line.split('=', 1)`: the text before the first `=`
      and everything after it, or nothing when the line has no `=`. */
  function SplitFirst(line: string): (r: Option<(string, string)>)
    ensures r.None? <==> '=' !in line
    ensures r.Some? ==> line == r.value.0 + "=" + r.value.1 && '=' !in r.value.0
  {
    match FindChar(line, '=')
    case None => None
    case Some(i) =>
      assert line == line[..i] + "=" + line[i + 1..];
      Some((line[..i], line[i + 1..]))
  }

  /** The split is the only one whose key holds no `=`. */
  lemma SplitFirstRecovers(key: string, value: string)
    requires '=' !in key
    ensures SplitFirst(key + "=" + value) == Some((key, value))
  {
    var line := key + "=" + value;
    assert line[|key|] == '=' && line[..|key|] == key;
    assert FindChar(line, '=') == Some(|key|);
    assert line[|key| + 1..] == value;
  }

  /** One turn of the read loop. */
  function ParseLine(env: Dict, raw: string): (r: Loaded)
    ensures Ignored(Strip(raw)) ==> r == Loaded(env)
    ensures r.UnpackError? <==> !Ignored(Strip(raw)) && '=' !in Strip(raw)
    ensures r.UnpackError? ==> r.line == Strip(raw)
    ensures r.Loaded? ==> env.Keys <= r.env.Keys
  {
    var line := Strip(raw);
    if Ignored(line) then Loaded(env)
    else
      match SplitFirst(line)
      case None => UnpackError(line)
      case Some((key, value)) => Loaded(env[key := value])
  }

  /** The read loop from `env` over the remaining lines. */
  function ParseFrom(env: Dict, lines: seq<string>): (r: Loaded)
    // entries are only added or overwritten, never removed
    ensures r.Loaded? ==> env.Keys <= r.env.Keys
    decreases |lines|
  {
    if lines == [] then Loaded(env)
    else
      match ParseLine(env, lines[0])
      case UnpackError(l) => UnpackError(l)
      case Loaded(e) => ParseFrom(e, lines[1..])
  }

  /** `line` is a stripped line of the input that holds no `=`. */
  predicate NamesALine(lines: seq<string>, line: string)
  {
    exists k :: 0 <= k < |lines| && line == Strip(lines[k]) && !Ignored(line) && '=' !in line
  }

  /** An abort names a line of the input that holds no `=`. */
  lemma {:induction false} AbortNamesALine(env: Dict, lines: seq<string>)
    ensures ParseFrom(env, lines).UnpackError? ==> NamesALine(lines, ParseFrom(env, lines).line)
    decreases |lines|
  {
    if lines != [] {
      var first := ParseLine(env, lines[0]);
      if first.UnpackError? {
        NamesFirstLine(lines);
      } else {
        AbortNamesALine(first.env, lines[1..]);
        var r := ParseFrom(first.env, lines[1..]);
        if r.UnpackError? {
          NamesLaterLine(lines, r.line);
        }
      }
    }
  }

  lemma NamesFirstLine(lines: seq<string>)
    requires lines != [] && !Ignored(Strip(lines[0])) && '=' !in Strip(lines[0])
    ensures NamesALine(lines, Strip(lines[0]))
  {
  }

  lemma NamesLaterLine(lines: seq<string>, line: string)
    requires lines != [] && NamesALine(lines[1..], line)
    ensures NamesALine(lines, line)
  {
    var k :| 0 <= k < |lines[1..]| && line == Strip(lines[1..][k]) && !Ignored(line) && '=' !in line;
    assert lines[1..][k] == lines[k + 1];
  }

  /** `for line in f: …`, the loop that fills `env` in place, over the
      lines the open file yields. */
  method LoadEnv(lines: seq<string>) returns (r: Loaded)
    ensures r == ParseFrom(map[], lines)
  {
    var env: Dict := map[];
    var i := 0;
    while i < |lines|
      invariant 0 <= i <= |lines|
      invariant ParseFrom(env, lines[i..]) == ParseFrom(map[], lines)
    {
      assert lines[i..][0] == lines[i] && lines[i..][1..] == lines[i + 1..];
      var line := Strip(lines[i]);
      if line != [] && line[0] != '#' {
        var split := SplitFirst(line);
        if split.None? {
          return UnpackError(line);
        }
        var (key, value) := split.value;
        env := env[key := value];
      }
      i := i + 1;
    }
    assert lines[i..] == [];
    return Loaded(env);
  }

  /** The first turn of the loop, then the rest. */
  lemma ParseFromCons(env: Dict, line: string, rest: seq<string>)
    ensures var first := ParseLine(env, line);
            ParseFrom(env, [line] + rest) == if first.Loaded? then ParseFrom(first.env, rest) else first
  {
    assert ([line] + rest)[0] == line && ([line] + rest)[1..] == rest;
  }

  /** Reading two pieces of a file one after the other is reading the
      whole file. */
  lemma {:induction false} ParseFromAppend(env: Dict, a: seq<string>, b: seq<string>)
    ensures var front := ParseFrom(env, a);
            ParseFrom(env, a + b) == if front.Loaded? then ParseFrom(front.env, b) else front
    decreases |a|
  {
    if a == [] {
      assert a + b == b;
    } else {
      assert (a + b)[0] == a[0];
      assert (a + b)[1..] == a[1..] + b;
      match ParseLine(env, a[0])
      case UnpackError(l) =>
      case Loaded(e) => ParseFromAppend(e, a[1..], b);
    }
  }

  /** Blank and comment lines anywhere in the file change nothing. */
  lemma IgnoredLinesVanish(env: Dict, a: seq<string>, skipped: seq<string>, b: seq<string>)
    requires forall k :: 0 <= k < |skipped| ==> Ignored(Strip(skipped[k]))
    ensures ParseFrom(env, a + skipped + b) == ParseFrom(env, a + b)
  {
    ParseFromAppend(env, a + skipped, b);
    ParseFromAppend(env, a, skipped);
    ParseFromAppend(env, a, b);
    match ParseFrom(env, a)
    case UnpackError(_) =>
    case Loaded(e) => SkippedLinesKeep(e, skipped);
  }

  lemma {:induction false} SkippedLinesKeep(env: Dict, skipped: seq<string>)
    requires forall k :: 0 <= k < |skipped| ==> Ignored(Strip(skipped[k]))
    ensures ParseFrom(env, skipped) == Loaded(env)
    decreases |skipped|
  {
    if skipped != [] {
      assert Ignored(Strip(skipped[0]));
      assert forall k :: 0 <= k < |skipped[1..]| ==> Ignored(Strip(skipped[1..][k])) by {
        forall k | 0 <= k < |skipped[1..]| ensures Ignored(Strip(skipped[1..][k])) {
          assert skipped[1..][k] == skipped[k + 1];
        }
      }
      SkippedLinesKeep(env, skipped[1..]);
    }
  }

  /** A line that `strip()` leaves alone and that is not a comment. */
  predicate Assignment(key: string, value: string)
  {
    && key != [] && !IsSpace(key[0]) && key[0] != '#' && '=' !in key
    && (value == [] || !IsSpace(value[|value| - 1]))
  }

  /** `KEY=VALUE` binds KEY to VALUE; a value may itself hold `=`, since
      only the first one splits. */
  lemma SplitsAtFirstEquals(env: Dict, key: string, value: string)
    requires Assignment(key, value)
    ensures ParseLine(env, key + "=" + value) == Loaded(env[key := value])
  {
    var line := key + "=" + value;
    AssignmentEnds(key, value);
    StripKeeps(line);
    SplitFirstRecovers(key, value);
    ParseLineSplits(env, line, key, value);
  }

  lemma AssignmentEnds(key: string, value: string)
    requires Assignment(key, value)
    ensures var line := key + "=" + value;
            line != [] && line[0] == key[0] && !IsSpace(line[|line| - 1])
  {
    var line := key + "=" + value;
    if value == [] {
      assert line[|line| - 1] == '=';
    } else {
      assert line[|line| - 1] == value[|value| - 1];
    }
  }

  /** The turn of the loop on a line whose stripped text splits. */
  lemma ParseLineSplits(env: Dict, raw: string, key: string, value: string)
    requires !Ignored(Strip(raw)) && SplitFirst(Strip(raw)) == Some((key, value))
    ensures ParseLine(env, raw) == Loaded(env[key := value])
  {
  }

  /** Neither side of the `=` is trimmed: `A = b` binds `"A "` to `" b"`. */
  lemma SpacesAroundEqualsKept()
    ensures ParseLine(map[], "A = b") == Loaded(map["A " := " b"])
  {
    SpacedAssignment();
    SpacedLine();
    SplitsAtFirstEquals(map[], "A ", " b");
  }

  lemma SpacedLine()
    ensures "A " + "=" + " b" == "A = b"
  {
  }

  lemma SpacedAssignment()
    ensures Assignment("A ", " b")
  {
    assert !IsSpace('A') && !IsSpace('b');
    assert "A "[0] == 'A' && " b"[1] == 'b';
  }

  lemma TwoLines(env: Dict, l1: string, l2: string, e1: Dict, e2: Dict)
    requires ParseLine(env, l1) == Loaded(e1) && ParseLine(e1, l2) == Loaded(e2)
    ensures ParseFrom(env, [l1, l2]) == Loaded(e2)
  {
    ParseFromCons(env, l1, [l2]);
    ParseFromCons(e1, l2, []);
    assert [l1, l2] == [l1] + [l2];
    assert [l2] == [l2] + [];
  }

  lemma Overwrite(env: Dict, key: string, first: string, second: string)
    ensures env[key := first][key := second] == env[key := second]
  {
  }

  lemma TwoBindings(env: Dict, key: string, first: string, second: string, l1: string, l2: string)
    requires ParseLine(env, l1) == Loaded(env[key := first])
    requires ParseLine(env[key := first], l2) == Loaded(env[key := first][key := second])
    ensures ParseFrom(env, [l1, l2]) == Loaded(env[key := second])
  {
    Overwrite(env, key, first, second);
    TwoLines(env, l1, l2, env[key := first], env[key := first][key := second]);
  }

  /** A later line for the same key overrides the earlier one. */
  lemma LaterDuplicateOverrides(env: Dict, key: string, first: string, second: string)
    requires Assignment(key, first) && Assignment(key, second)
    ensures ParseFrom(env, [key + "=" + first, key + "=" + second]) == Loaded(env[key := second])
  {
    SplitsAtFirstEquals(env, key, first);
    SplitsAtFirstEquals(env[key := first], key, second);
    TwoBindings(env, key, first, second, key + "=" + first, key + "=" + second);
  }

  lemma StopsAt(env: Dict, line: string, rest: seq<string>)
    requires ParseLine(env, line).UnpackError?
    ensures ParseFrom(env, [line] + rest) == ParseLine(env, line)
  {
    ParseFromCons(env, line, rest);
  }

  /** A non-blank, non-comment line without `=` ends the read at that line,
      whatever follows it. */
  lemma NoEqualsAborts(env: Dict, before: seq<string>, line: string, after: seq<string>)
    requires ParseFrom(env, before).Loaded?
    requires !Ignored(Strip(line)) && '=' !in Strip(line)
    ensures ParseFrom(env, before + [line] + after) == UnpackError(Strip(line))
  {
    var tail := [line] + after;
    var e := ParseFrom(env, before).env;
    calc {
      ParseFrom(env, before + [line] + after);
      { assert before + [line] + after == before + tail; }
      ParseFrom(env, before + tail);
      { ParseFromAppend(env, before, tail); }
      ParseFrom(e, tail);
      { StopsAt(e, line, after); }
      ParseLine(e, line);
      UnpackError(Strip(line));
    }
  }

  // ---------------------------------------------------------------------
  // The projection

  /** `env.get(key, "")` */
  function Get(env: Dict, key: string): (v: string)
    ensures key in env ==> v == env[key]
    ensures key !in env ==> v == ""
  {
    if key in env then env[key] else ""
  }

  /** One step into a JSON value: a member of an object or an element of
      an array. */
  datatype Step = Key(name: string) | Index(n: nat)

  function At(j: Json, path: seq<Step>): Option<Json>
    decreases |path|
  {
    if path == [] then Some(j)
    else
      match path[0]
      case Key(name) =>
        (match Member(j, name)
         case None => None
         case Some(child) => At(child, path[1..]))
      case Index(n) =>
        if j.JArray? && n < |j.items| then At(j.items[n], path[1..]) else None
  }

  const PackageName := "com.example.designwear"
  const ConfigurationVersion := "1"

  /** The field paths of the document, each with the variable it comes from. */
  const ProjectNumberPath := [Key("project_info"), Key("project_number")]
  const ProjectIdPath := [Key("project_info"), Key("project_id")]
  const StorageBucketPath := [Key("project_info"), Key("storage_bucket")]
  const AppIdPath := [Key("client"), Index(0), Key("client_info"), Key("mobilesdk_app_id")]
  const PackageNamePath := [Key("client"), Index(0), Key("client_info"), Key("android_client_info"), Key("package_name")]
  const ApiKeyPath := [Key("client"), Index(0), Key("api_key"), Index(0), Key("current_key")]
  const VersionPath := [Key("configuration_version")]

  function ProjectInfo(env: Dict): Json
  {
    JObject([
      ("project_number", JString(Get(env, "FIREBASE_MESSAGING_SENDER_ID"))),
      ("project_id", JString(Get(env, "FIREBASE_PROJECT_ID"))),
      ("storage_bucket", JString(Get(env, "FIREBASE_STORAGE_BUCKET")))])
  }

  function ClientInfo(env: Dict): Json
  {
    JObject([
      ("mobilesdk_app_id", JString(Get(env, "FIREBASE_ANDROID_APP_ID"))),
      ("android_client_info", JObject([("package_name", JString(PackageName))]))])
  }

  function ApiKey(env: Dict): Json
  {
    JObject([("current_key", JString(Get(env, "FIREBASE_ANDROID_API_KEY")))])
  }

  function Client(env: Dict): Json
  {
    JObject([
      ("client_info", ClientInfo(env)),
      ("oauth_client", JArray([])),
      ("api_key", JArray([ApiKey(env)])),
      ("services", JObject([("appinvite_service", JObject([("other_platform_oauth_client", JArray([]))]))]))])
  }

  /** The `config` dictionary. */
  function GoogleServices(env: Dict): Json
  {
    JObject([
      ("project_info", ProjectInfo(env)),
      ("client", JArray([Client(env)])),
      ("configuration_version", JString(ConfigurationVersion))])
  }

  /** The first member with a given name is the one found. */
  lemma {:induction false} MemberAt(ms: seq<(string, Json)>, key: string, i: nat)
    requires i < |ms| && ms[i].0 == key
    requires forall k :: 0 <= k < i ==> ms[k].0 != key
    ensures MemberIn(ms, key) == Some(ms[i].1)
  {
    if i > 0 {
      assert ms[1..][i - 1] == ms[i];
      MemberAt(ms[1..], key, i - 1);
    }
  }

  lemma AtKey(j: Json, name: string, child: Json, rest: seq<Step>)
    requires Member(j, name) == Some(child)
    ensures At(j, [Key(name)] + rest) == At(child, rest)
  {
    assert ([Key(name)] + rest)[0] == Key(name) && ([Key(name)] + rest)[1..] == rest;
  }

  lemma AtIndex(j: Json, n: nat, rest: seq<Step>)
    requires j.JArray? && n < |j.items|
    ensures At(j, [Index(n)] + rest) == At(j.items[n], rest)
  {
    assert ([Index(n)] + rest)[0] == Index(n) && ([Index(n)] + rest)[1..] == rest;
  }

  /** Each field of the document holds `env.get(K, "")` for its variable,
      or its constant. */
  lemma GoogleServicesFields(env: Dict)
    ensures var j := GoogleServices(env);
            && At(j, ProjectNumberPath) == Some(JString(Get(env, "FIREBASE_MESSAGING_SENDER_ID")))
            && At(j, ProjectIdPath) == Some(JString(Get(env, "FIREBASE_PROJECT_ID")))
            && At(j, StorageBucketPath) == Some(JString(Get(env, "FIREBASE_STORAGE_BUCKET")))
            && At(j, AppIdPath) == Some(JString(Get(env, "FIREBASE_ANDROID_APP_ID")))
            && At(j, ApiKeyPath) == Some(JString(Get(env, "FIREBASE_ANDROID_API_KEY")))
            && At(j, PackageNamePath) == Some(JString(PackageName))
            && At(j, VersionPath) == Some(JString(ConfigurationVersion))
  {
    var j := GoogleServices(env);
    MemberAt(j.members, "project_info", 0);
    MemberAt(j.members, "client", 1);
    MemberAt(j.members, "configuration_version", 2);
    ProjectInfoFields(env);
    ClientFields(env);
    AtKey(j, "configuration_version", JString(ConfigurationVersion), []);
  }

  lemma ProjectInfoFields(env: Dict)
    ensures var j := GoogleServices(env);
            && At(j, ProjectNumberPath) == Some(JString(Get(env, "FIREBASE_MESSAGING_SENDER_ID")))
            && At(j, ProjectIdPath) == Some(JString(Get(env, "FIREBASE_PROJECT_ID")))
            && At(j, StorageBucketPath) == Some(JString(Get(env, "FIREBASE_STORAGE_BUCKET")))
  {
    var j := GoogleServices(env);
    var info := ProjectInfo(env);
    MemberAt(j.members, "project_info", 0);
    MemberAt(info.members, "project_number", 0);
    MemberAt(info.members, "project_id", 1);
    MemberAt(info.members, "storage_bucket", 2);
    AtKey(j, "project_info", info, [Key("project_number")]);
    AtKey(info, "project_number", JString(Get(env, "FIREBASE_MESSAGING_SENDER_ID")), []);
    AtKey(j, "project_info", info, [Key("project_id")]);
    AtKey(info, "project_id", JString(Get(env, "FIREBASE_PROJECT_ID")), []);
    AtKey(j, "project_info", info, [Key("storage_bucket")]);
    AtKey(info, "storage_bucket", JString(Get(env, "FIREBASE_STORAGE_BUCKET")), []);
  }

  lemma ClientFields(env: Dict)
    ensures var j := GoogleServices(env);
            && At(j, AppIdPath) == Some(JString(Get(env, "FIREBASE_ANDROID_APP_ID")))
            && At(j, ApiKeyPath) == Some(JString(Get(env, "FIREBASE_ANDROID_API_KEY")))
            && At(j, PackageNamePath) == Some(JString(PackageName))
  {
    var j := GoogleServices(env);
    var clients := JArray([Client(env)]);
    MemberAt(j.members, "client", 1);
    AtKey(j, "client", clients, AppIdPath[1..]);
    AtIndex(clients, 0, AppIdPath[2..]);
    AtKey(j, "client", clients, PackageNamePath[1..]);
    AtIndex(clients, 0, PackageNamePath[2..]);
    AtKey(j, "client", clients, ApiKeyPath[1..]);
    AtIndex(clients, 0, ApiKeyPath[2..]);
    ClientEntryFields(env);
  }

  lemma ClientEntryFields(env: Dict)
    ensures At(Client(env), AppIdPath[2..]) == Some(JString(Get(env, "FIREBASE_ANDROID_APP_ID")))
    ensures At(Client(env), ApiKeyPath[2..]) == Some(JString(Get(env, "FIREBASE_ANDROID_API_KEY")))
    ensures At(Client(env), PackageNamePath[2..]) == Some(JString(PackageName))
  {
    AppIdField(env);
    ApiKeyField(env);
    PackageNameField(env);
  }

  lemma AppIdField(env: Dict)
    ensures At(Client(env), AppIdPath[2..]) == Some(JString(Get(env, "FIREBASE_ANDROID_APP_ID")))
  {
    var client := Client(env);
    MemberAt(client.members, "client_info", 0);
    MemberAt(ClientInfo(env).members, "mobilesdk_app_id", 0);
    AtKey(client, "client_info", ClientInfo(env), AppIdPath[3..]);
    AtKey(ClientInfo(env), "mobilesdk_app_id", JString(Get(env, "FIREBASE_ANDROID_APP_ID")), []);
  }

  lemma ApiKeyField(env: Dict)
    ensures At(Client(env), ApiKeyPath[2..]) == Some(JString(Get(env, "FIREBASE_ANDROID_API_KEY")))
  {
    var client := Client(env);
    var keys := JArray([ApiKey(env)]);
    MemberAt(client.members, "api_key", 2);
    AtKey(client, "api_key", keys, ApiKeyPath[3..]);
    AtIndex(keys, 0, ApiKeyPath[4..]);
    AtKey(ApiKey(env), "current_key", JString(Get(env, "FIREBASE_ANDROID_API_KEY")), []);
  }

  lemma PackageNameField(env: Dict)
    ensures At(Client(env), PackageNamePath[2..]) == Some(JString(PackageName))
  {
    var client := Client(env);
    var package := JObject([("package_name", JString(PackageName))]);
    MemberAt(client.members, "client_info", 0);
    MemberAt(ClientInfo(env).members, "android_client_info", 1);
    AtKey(client, "client_info", ClientInfo(env), PackageNamePath[3..]);
    AtKey(ClientInfo(env), "android_client_info", package, PackageNamePath[4..]);
    AtKey(package, "package_name", JString(PackageName), []);
  }

  const Projected := ["FIREBASE_MESSAGING_SENDER_ID", "FIREBASE_PROJECT_ID", "FIREBASE_STORAGE_BUCKET",
                      "FIREBASE_ANDROID_APP_ID", "FIREBASE_ANDROID_API_KEY"]

  /** The five variables the document reads; nothing else in `.env` matters. */
  lemma OnlyFiveVariablesMatter(e1: Dict, e2: Dict)
    requires forall k :: k in Projected ==> Get(e1, k) == Get(e2, k)
    ensures GoogleServices(e1) == GoogleServices(e2)
  {
    assert Get(e1, "FIREBASE_MESSAGING_SENDER_ID") == Get(e2, "FIREBASE_MESSAGING_SENDER_ID");
    assert Get(e1, "FIREBASE_PROJECT_ID") == Get(e2, "FIREBASE_PROJECT_ID");
    assert Get(e1, "FIREBASE_STORAGE_BUCKET") == Get(e2, "FIREBASE_STORAGE_BUCKET");
    assert Get(e1, "FIREBASE_ANDROID_APP_ID") == Get(e2, "FIREBASE_ANDROID_APP_ID");
    assert Get(e1, "FIREBASE_ANDROID_API_KEY") == Get(e2, "FIREBASE_ANDROID_API_KEY");
  }

  /** What a run of the script ends with. */
  datatype Generated = EnvFileMissing | Aborted(line: string) | Written(config: Json)

  /** `generate_google_services_json()`: `envFileExists` is
      `os.path.exists(env_path)` and `content` the text of `.env`. */
  method GenerateGoogleServicesJson(envFileExists: bool, content: string) returns (g: Generated)
    ensures !envFileExists ==> g == EnvFileMissing
    ensures envFileExists ==>
              match ParseFrom(map[], FileLines(content))
              case UnpackError(line) => g == Aborted(line)
              case Loaded(env) => g == Written(GoogleServices(env))
  {
    if !envFileExists {
      return EnvFileMissing;
    }
    var loaded := LoadEnv(FileLines(content));
    match loaded {
      case UnpackError(line) => g := Aborted(line);
      case Loaded(env) => g := Written(GoogleServices(env));
    }
  }
}
