/** The `.env` file served by GET /api/flutter-env, read back by the loop
    of scripts/generate_firebase_config.py: every variable of the template
    comes back with the value it was rendered with. */
module EnvRoundTrip {
  import opened Core
  import opened Types
  import opened PyText
  import AppConfig
  import opened FlutterEnv
  import opened FirebaseConfig

  /** A value the file carries unchanged: no line break, and nothing at
      the end for `strip()` to remove. */
  predicate Transportable(v: string)
  {
    '\n' !in v && '\r' !in v && (v == [] || !IsSpace(v[|v| - 1]))
  }

  /** Every variable the template reads holds a transportable value. */
  predicate SafeEnv(env: AppConfig.Env, t: seq<TemplateLine>)
  {
    forall k :: k in EntryKeys(t) && k in env ==> Transportable(env[k])
  }

  /** The dictionary the read loop should build from a template: each
      entry, in order, bound to the value it renders with. */
  function Bound(acc: Dict, env: AppConfig.Env, t: seq<TemplateLine>): Dict
    decreases |t|
  {
    if t == [] then acc
    else if t[0].Entry? then Bound(acc[t[0].key := AppConfig.EnvOr(env, t[0].key, t[0].fallback)], env, t[1..])
    else Bound(acc, env, t[1..])
  }

  lemma KeyTextFacts(key: string)
    requires KeyText(key)
    ensures !IsSpace(key[0]) && key[0] != '#'
    ensures '=' !in key && '\n' !in key && '\r' !in key
  {
    assert KeyChar(key[0]);
  }

  lemma PlainTextFacts(s: string)
    requires PlainText(s)
    ensures Transportable(s)
  {
  }

  /** The value a row renders with is transportable. */
  lemma RenderedValueTransportable(env: AppConfig.Env, t: seq<TemplateLine>, i: nat)
    requires WellFormed(t) && SafeEnv(env, t) && i < |t| && t[i].Entry?
    ensures Transportable(AppConfig.EnvOr(env, t[i].key, t[i].fallback))
  {
    assert RowWellFormed(t[i]);
    EntryKeyListed(t, i);
    PlainTextFacts(t[i].fallback);
  }

  /** No rendered row holds a line break. */
  lemma {:induction false} RowsUnbroken(env: AppConfig.Env, t: seq<TemplateLine>)
    requires WellFormed(t) && SafeEnv(env, t)
    ensures forall i :: 0 <= i < |t| ==>
              '\n' !in RenderTemplate(env, t)[i] && '\r' !in RenderTemplate(env, t)[i]
  {
    forall i | 0 <= i < |t|
      ensures '\n' !in RenderTemplate(env, t)[i] && '\r' !in RenderTemplate(env, t)[i]
    {
      assert RowWellFormed(t[i]);
      match t[i]
      case Blank =>
      case Comment(text) => PlainTextFacts(text);
      case Entry(key, fallback) =>
        KeyTextFacts(key);
        RenderedValueTransportable(env, t, i);
    }
  }

  /** The file the handler writes, as the script's loop sees it: the
      rendered rows, then the empty piece after the last newline. */
  lemma LinesOfRender(env: AppConfig.Env, t: seq<TemplateLine>)
    requires WellFormed(t) && SafeEnv(env, t)
    ensures FileLines(JoinLines(RenderTemplate(env, t))) == RenderTemplate(env, t) + [""]
  {
    var rows := RenderTemplate(env, t);
    RowsUnbroken(env, t);
    var text := JoinLines(rows);
    JoinLinesLacks(rows, '\r');
    UniversalNewlinesKeeps(text);
    SplitJoin(rows);
  }

  /** A rendered row, read by one turn of the loop. */
  lemma RowParses(acc: Dict, env: AppConfig.Env, t: seq<TemplateLine>)
    requires t != [] && WellFormed(t) && SafeEnv(env, t)
    ensures ParseLine(acc, RenderLine(env, t[0]))
            == Loaded(if t[0].Entry? then acc[t[0].key := AppConfig.EnvOr(env, t[0].key, t[0].fallback)] else acc)
  {
    assert RowWellFormed(t[0]);
    match t[0]
    case Blank =>
      assert Strip("") == "";
    case Comment(text) =>
      StripKeeps(text);
    case Entry(key, fallback) =>
      KeyTextFacts(key);
      RenderedValueTransportable(env, t, 0);
      SplitsAtFirstEquals(acc, key, AppConfig.EnvOr(env, key, fallback));
  }

  /** Reading the rendered rows of a well-formed template binds each entry
      to its rendered value. */
  lemma {:induction false} ParseRendered(acc: Dict, env: AppConfig.Env, t: seq<TemplateLine>)
    requires WellFormed(t) && SafeEnv(env, t)
    ensures ParseFrom(acc, RenderTemplate(env, t)) == Loaded(Bound(acc, env, t))
    decreases |t|
  {
    if t != [] {
      var row := RenderLine(env, t[0]);
      var rest := RenderTemplate(env, t[1..]);
      var next := if t[0].Entry? then acc[t[0].key := AppConfig.EnvOr(env, t[0].key, t[0].fallback)] else acc;
      TailConditions(env, t);
      calc {
        ParseFrom(acc, RenderTemplate(env, t));
        { RenderTemplateCons(env, t); }
        ParseFrom(acc, [row] + rest);
        { ParseFromCons(acc, row, rest); RowParses(acc, env, t); }
        ParseFrom(next, rest);
        { ParseRendered(next, env, t[1..]); }
        Loaded(Bound(next, env, t[1..]));
      }
    }
  }

  /** The rendered file is the first rendered row, then the rest. */
  lemma RenderTemplateCons(env: AppConfig.Env, t: seq<TemplateLine>)
    requires t != []
    ensures RenderTemplate(env, t) == [RenderLine(env, t[0])] + RenderTemplate(env, t[1..])
  {
    assert RenderTemplate(env, t)[1..] == RenderTemplate(env, t[1..]);
  }

  /** The rows after the first keep both conditions. */
  lemma TailConditions(env: AppConfig.Env, t: seq<TemplateLine>)
    requires t != [] && WellFormed(t) && SafeEnv(env, t)
    ensures WellFormed(t[1..]) && SafeEnv(env, t[1..])
  {
    forall i | 0 <= i < |t[1..]| ensures RowWellFormed(t[1..][i]) {
      assert t[1..][i] == t[i + 1];
    }
    assert EntryKeys(t) == (if t[0].Entry? then [t[0].key] else []) + EntryKeys(t[1..]);
  }

  /** Writing then reading back: the loop over the served file ends with
      exactly the dictionary the template binds. */
  lemma {:induction false} RoundTrip(env: AppConfig.Env, t: seq<TemplateLine>)
    requires WellFormed(t) && SafeEnv(env, t)
    ensures ParseFrom(map[], FileLines(JoinLines(RenderTemplate(env, t)))) == Loaded(Bound(map[], env, t))
  {
    var rows := RenderTemplate(env, t);
    var bound := Bound(map[], env, t);
    LinesOfRender(env, t);
    ParseRendered(map[], env, t);
    ParseFromAppend(map[], rows, [""]);
    EmptyLastPieceKeeps(bound);
  }

  /** The empty piece after the file's last newline changes nothing. */
  lemma EmptyLastPieceKeeps(d: Dict)
    ensures ParseFrom(d, [""]) == Loaded(d)
  {
    assert Strip("") == "";
    SkippedLinesKeep(d, [""]);
  }

  /** The keys the loop ends with are those it started with and the
      template's. */
  lemma {:induction false} BoundKeys(acc: Dict, env: AppConfig.Env, t: seq<TemplateLine>)
    ensures forall k :: k in Bound(acc, env, t) <==> k in acc || k in EntryKeys(t)
    decreases |t|
  {
    if t != [] {
      if t[0].Entry? {
        BoundKeys(acc[t[0].key := AppConfig.EnvOr(env, t[0].key, t[0].fallback)], env, t[1..]);
      } else {
        BoundKeys(acc, env, t[1..]);
      }
    }
  }

  /** A key the rest of the template does not name keeps its binding. */
  lemma {:induction false} BoundUntouched(acc: Dict, env: AppConfig.Env, t: seq<TemplateLine>, k: string)
    requires k in acc && k !in EntryKeys(t)
    ensures k in Bound(acc, env, t) && Bound(acc, env, t)[k] == acc[k]
    decreases |t|
  {
    if t != [] {
      if t[0].Entry? {
        BoundUntouched(acc[t[0].key := AppConfig.EnvOr(env, t[0].key, t[0].fallback)], env, t[1..], k);
      } else {
        BoundUntouched(acc, env, t[1..], k);
      }
    }
  }

  /** With distinct keys, each entry's key is bound to its own rendered value. */
  lemma {:induction false} BoundAt(acc: Dict, env: AppConfig.Env, t: seq<TemplateLine>, i: nat)
    requires Distinct(EntryKeys(t)) && i < |t| && t[i].Entry?
    ensures t[i].key in Bound(acc, env, t)
    ensures Bound(acc, env, t)[t[i].key] == AppConfig.EnvOr(env, t[i].key, t[i].fallback)
    decreases |t|
  {
    var keys := EntryKeys(t);
    var rest := EntryKeys(t[1..]);
    assert Distinct(rest) by {
      if t[0].Entry? {
        assert keys == [t[0].key] + rest;
        forall a, b | 0 <= a < b < |rest| ensures rest[a] != rest[b] {
          assert rest[a] == keys[a + 1] && rest[b] == keys[b + 1];
        }
      }
    }
    var next := if t[0].Entry? then acc[t[0].key := AppConfig.EnvOr(env, t[0].key, t[0].fallback)] else acc;
    if i == 0 {
      assert keys == [t[0].key] + rest;
      assert t[0].key !in rest by {
        forall b | 0 <= b < |rest| ensures rest[b] != t[0].key {
          assert keys[0] == t[0].key && keys[b + 1] == rest[b];
        }
      }
      BoundUntouched(next, env, t[1..], t[0].key);
    } else {
      assert t[1..][i - 1] == t[i];
      BoundAt(next, env, t[1..], i - 1);
    }
  }

  // ---------------------------------------------------------------------
  // The served file

  /** GET /api/flutter-env read back by the script: the dictionary holds
      exactly the eighteen variables, each with the value the handler
      rendered for it. */
  lemma ServedFileRoundTrip(env: AppConfig.Env)
    requires forall k :: k in Keys && k in env ==> Transportable(env[k])
    ensures var r := ParseFrom(map[], FileLines(Render(env)));
            && r.Loaded?
            && (forall k :: k in r.env <==> k in Keys)
            && (forall i :: 0 <= i < |Template| && Template[i].Entry? ==>
                  Template[i].key in r.env
                  && r.env[Template[i].key] == AppConfig.EnvOr(env, Template[i].key, Template[i].fallback))
  {
    TemplateNamesEachKeyOnce();
    TemplateWellFormed();
    RoundTrip(env, Template);
    BoundKeys(map[], env, Template);
    forall i | 0 <= i < |Template| && Template[i].Entry?
      ensures Template[i].key in Bound(map[], env, Template)
      ensures Bound(map[], env, Template)[Template[i].key]
              == AppConfig.EnvOr(env, Template[i].key, Template[i].fallback)
    {
      BoundAt(map[], env, Template, i);
    }
  }

  /** Why a value must end in a non-space: `strip()` drops a trailing
      blank, so a row the handler rendered as `key=value ` is read back as
      `value`. */
  lemma TrailingSpaceIsLost(acc: Dict, key: string, value: string)
    requires KeyText(key) && PlainText(value) && value != []
    ensures ParseLine(acc, key + "=" + value + " ") == Loaded(acc[key := value])
  {
    var kept := key + "=" + value;
    var raw := kept + " ";
    KeyTextFacts(key);
    PlainTextFacts(value);
    assert raw[0] == key[0];
    assert StripLeft(raw) == raw;
    assert raw[..|raw| - 1] == kept;
    assert StripRight(raw) == StripRight(kept);
    assert kept[|kept| - 1] == value[|value| - 1];
    assert StripRight(kept) == kept;
    assert Strip(raw) == kept;
    SplitsAtFirstEquals(acc, key, value);
  }

  /** The template rows the Firebase document reads. */
  lemma FirebaseRowsOfTemplate()
    ensures Template[18] == Entry("FIREBASE_PROJECT_ID", "designwear-app-8984")
    ensures Template[19] == Entry("FIREBASE_MESSAGING_SENDER_ID", "653328426569")
    ensures Template[20] == Entry("FIREBASE_STORAGE_BUCKET", StorageBucketDefault)
    ensures Template[28] == Entry("FIREBASE_ANDROID_API_KEY", "")
    ensures Template[29] == Entry("FIREBASE_ANDROID_APP_ID", "")
  {
    var front := GoKwikSection + SanitySection + AppSection + GeminiSection;
    assert |front| == 17;
    var back := WebSection + AndroidSection;
    assert Template == front + FirebaseSection + back + IosSection;
    assert Template[18] == FirebaseSection[1];
    assert Template[19] == FirebaseSection[2];
    assert Template[20] == FirebaseSection[3];
    assert Template[28] == AndroidSection[1];
    assert Template[29] == AndroidSection[2];
  }

  /** One variable of the served file, as the script reads it back. */
  lemma ServedBinding(env: AppConfig.Env, i: nat)
    requires forall k :: k in Keys && k in env ==> Transportable(env[k])
    requires i < |Template| && Template[i].Entry?
    ensures var r := ParseFrom(map[], FileLines(Render(env)));
            r.Loaded? && Template[i].key in r.env
            && r.env[Template[i].key] == AppConfig.EnvOr(env, Template[i].key, Template[i].fallback)
  {
    ServedFileRoundTrip(env);
  }

  /** The document built from a dictionary that binds the five variables
      to their values on the server, or to the template's defaults. */
  lemma FieldsFromBindings(d: Dict, env: AppConfig.Env)
    requires "FIREBASE_PROJECT_ID" in d && d["FIREBASE_PROJECT_ID"] == AppConfig.EnvOr(env, "FIREBASE_PROJECT_ID", "designwear-app-8984")
    requires "FIREBASE_MESSAGING_SENDER_ID" in d
             && d["FIREBASE_MESSAGING_SENDER_ID"] == AppConfig.EnvOr(env, "FIREBASE_MESSAGING_SENDER_ID", "653328426569")
    requires "FIREBASE_STORAGE_BUCKET" in d
             && d["FIREBASE_STORAGE_BUCKET"] == AppConfig.EnvOr(env, "FIREBASE_STORAGE_BUCKET", StorageBucketDefault)
    requires "FIREBASE_ANDROID_API_KEY" in d && d["FIREBASE_ANDROID_API_KEY"] == AppConfig.EnvOr(env, "FIREBASE_ANDROID_API_KEY", "")
    requires "FIREBASE_ANDROID_APP_ID" in d && d["FIREBASE_ANDROID_APP_ID"] == AppConfig.EnvOr(env, "FIREBASE_ANDROID_APP_ID", "")
    ensures FirebaseFields(GoogleServices(d), env)
  {
    GoogleServicesFields(d);
  }

  const StorageBucketDefault := "designwear-app-8984" + ".firebasestorage.app"

  /** The five Firebase fields of a google-services.json document hold what
      the server's environment has for them, or the template's defaults. */
  predicate FirebaseFields(j: Json, env: AppConfig.Env)
  {
    && At(j, ProjectIdPath) == Some(JString(AppConfig.EnvOr(env, "FIREBASE_PROJECT_ID", "designwear-app-8984")))
    && At(j, ProjectNumberPath) == Some(JString(AppConfig.EnvOr(env, "FIREBASE_MESSAGING_SENDER_ID", "653328426569")))
    && At(j, StorageBucketPath) == Some(JString(AppConfig.EnvOr(env, "FIREBASE_STORAGE_BUCKET", StorageBucketDefault)))
    && At(j, ApiKeyPath) == Some(JString(AppConfig.EnvOr(env, "FIREBASE_ANDROID_API_KEY", "")))
    && At(j, AppIdPath) == Some(JString(AppConfig.EnvOr(env, "FIREBASE_ANDROID_APP_ID", "")))
  }

  /** The served file, fed to the script, gives a google-services.json
      whose five Firebase fields are what the server's environment holds
      for them, or the template's defaults. */
  lemma ServedFileConfiguresFirebase(env: AppConfig.Env)
    requires forall k :: k in Keys && k in env ==> Transportable(env[k])
    ensures var r := ParseFrom(map[], FileLines(Render(env)));
            r.Loaded? && FirebaseFields(GoogleServices(r.env), env)
  {
    FirebaseRowsOfTemplate();
    ServedBinding(env, 18);
    ServedBinding(env, 19);
    ServedBinding(env, 20);
    ServedBinding(env, 28);
    ServedBinding(env, 29);
    var r := ParseFrom(map[], FileLines(Render(env)));
    FieldsFromBindings(r.env, env);
  }

  /** With nothing set on the server, the script writes the project's
      built-in Firebase identity and leaves the Android keys empty. */
  lemma UnconfiguredServerGivesDefaults()
    ensures var r := ParseFrom(map[], FileLines(Render(map[])));
            && r.Loaded?
            && var j := GoogleServices(r.env);
            && At(j, ProjectIdPath) == Some(JString("designwear-app-8984"))
            && At(j, ProjectNumberPath) == Some(JString("653328426569"))
            && At(j, StorageBucketPath) == Some(JString(StorageBucketDefault))
            && At(j, ApiKeyPath) == Some(JString(""))
            && At(j, AppIdPath) == Some(JString(""))
  {
    ServedFileConfiguresFirebase(map[]);
  }

  /** The whole script run on the served file. */
  method GenerateFromServedFile(env: AppConfig.Env) returns (g: Generated)
    requires forall k :: k in Keys && k in env ==> Transportable(env[k])
    ensures g.Written?
    ensures FirebaseFields(g.config, env)
  {
    ServedFileConfiguresFirebase(env);
    g := GenerateGoogleServicesJson(true, Render(env));
  }
}
