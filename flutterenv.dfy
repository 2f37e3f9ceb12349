/** GET /api/flutter-env (web-next/src/app/api/flutter-env/route.ts): a
    plain-text `.env` file rendered from the server environment, each
    variable falling back to a literal default. */
module FlutterEnv {
  import opened Core
  import opened PyText
  import AppConfig

  /** One row of the template: a comment, a blank row, or
      `KEY=${process.env.KEY || 'fallback'}`. */
  datatype TemplateLine = Comment(text: string) | Blank | Entry(key: string, fallback: string)

  /** The template, section by section as the file lays it out. */
  const GoKwikSection: seq<TemplateLine> := [
    Comment("# GoKwik Configuration"),
    Entry("GOKWIK_MERCHANT_ID", "19w2ztg5723j"),
    Entry("GOKWIK_API_KEY", ""),
    Entry("GOKWIK_ENVIRONMENT", "sandbox"),
    Blank]
  const SanitySection: seq<TemplateLine> := [
    Comment("# Sanity Configuration"),
    Entry("SANITY_PROJECT_ID", "jh7llku7"),
    Entry("SANITY_DATASET", "production"),
    Blank]
  const AppSection: seq<TemplateLine> := [
    Comment("# App Configuration"),
    Entry("APP_NAME", "Design Wear"),
    Entry("DEBUG_MODE", "true"),
    Blank]
  const GeminiSection: seq<TemplateLine> := [
    Comment("# Google AI Studio - " + "Gemini API (Virtual Try-On)"),
    Comment("# Get your API key from: " + "https://aistudio.google.com/apikey"),
    Entry("GEMINI_API_KEY", ""),
    Blank]
  const FirebaseSection: seq<TemplateLine> := [
    Comment("# Firebase Configuration"),
    Entry("FIREBASE_PROJECT_ID", "designwear-app-8984"),
    Entry("FIREBASE_MESSAGING_SENDER_ID", "653328426569"),
    Entry("FIREBASE_STORAGE_BUCKET", "designwear-app-8984" + ".firebasestorage.app"),
    Blank]
  const WebSection: seq<TemplateLine> := [
    Comment("# Web/Windows"),
    Entry("FIREBASE_WEB_API_KEY", ""),
    Entry("FIREBASE_WEB_APP_ID", ""),
    Entry("FIREBASE_WINDOWS_APP_ID", ""),
    Blank]
  const AndroidSection: seq<TemplateLine> := [
    Comment("# Android"),
    Entry("FIREBASE_ANDROID_API_KEY", ""),
    Entry("FIREBASE_ANDROID_APP_ID", ""),
    Blank]
  const IosSection: seq<TemplateLine> := [
    Comment("# iOS/macOS"),
    Entry("FIREBASE_IOS_API_KEY", ""),
    Entry("FIREBASE_IOS_APP_ID", "")]

  const Template: seq<TemplateLine> :=
    GoKwikSection + SanitySection + AppSection + GeminiSection
    + FirebaseSection + WebSection + AndroidSection + IosSection

  /** The eighteen variables the file names, in the order it names them. */
  const Keys: seq<string> := [
    "GOKWIK_MERCHANT_ID", "GOKWIK_API_KEY", "GOKWIK_ENVIRONMENT",
    "SANITY_PROJECT_ID", "SANITY_DATASET",
    "APP_NAME", "DEBUG_MODE",
    "GEMINI_API_KEY",
    "FIREBASE_PROJECT_ID", "FIREBASE_MESSAGING_SENDER_ID", "FIREBASE_STORAGE_BUCKET",
    "FIREBASE_WEB_API_KEY", "FIREBASE_WEB_APP_ID", "FIREBASE_WINDOWS_APP_ID",
    "FIREBASE_ANDROID_API_KEY", "FIREBASE_ANDROID_APP_ID",
    "FIREBASE_IOS_API_KEY", "FIREBASE_IOS_APP_ID"
  ]

  /** One row of the file: a comment as written, a blank row empty, and an
      entry `KEY=` followed by the variable's value when it is set and
      non-empty, else by the literal default. */
  function RenderLine(env: AppConfig.Env, l: TemplateLine): (row: string)
    ensures l.Comment? ==> row == l.text
    ensures l.Blank? ==> row == ""
    ensures l.Entry? ==> row == l.key + "=" + (if l.key in env && env[l.key] != "" then env[l.key] else l.fallback)
  {
    match l
    case Comment(text) => text
    case Blank => ""
    case Entry(key, fallback) => key + "=" + AppConfig.EnvOr(env, key, fallback)
  }

  /** The rows of the rendered file. */
  function RenderTemplate(env: AppConfig.Env, t: seq<TemplateLine>): (lines: seq<string>)
    ensures |lines| == |t|
    ensures forall k :: 0 <= k < |t| ==> lines[k] == RenderLine(env, t[k])
  {
    seq(|t|, k requires 0 <= k < |t| => RenderLine(env, t[k]))
  }

  /** Row by row, the file holds each comment as written, an empty row for
      each blank, and `KEY=` followed by the variable's value when set and
      non-empty, else by the literal default, for each entry. */
  lemma RowsRendered(env: AppConfig.Env, t: seq<TemplateLine>)
    ensures |RenderTemplate(env, t)| == |t|
    ensures forall k :: 0 <= k < |t| && t[k].Comment? ==> RenderTemplate(env, t)[k] == t[k].text
    ensures forall k :: 0 <= k < |t| && t[k].Blank? ==> RenderTemplate(env, t)[k] == ""
    ensures forall k :: 0 <= k < |t| && t[k].Entry? ==>
              RenderTemplate(env, t)[k]
              == t[k].key + "=" + (if t[k].key in env && env[t[k].key] != "" then env[t[k].key] else t[k].fallback)
  {
  }

  /** The text of the file: every row ends in a newline. */
  function Render(env: AppConfig.Env): string
  {
    JoinLines(RenderTemplate(env, Template))
  }

  /** The keys of the template's entries, in order. */
  function EntryKeys(t: seq<TemplateLine>): seq<string>
  {
    if t == [] then []
    else if t[0].Entry? then [t[0].key] + EntryKeys(t[1..])
    else EntryKeys(t[1..])
  }

  /** Every entry of a template is among its entry keys. */
  lemma {:induction false} EntryKeyListed(t: seq<TemplateLine>, i: nat)
    requires i < |t| && t[i].Entry?
    ensures t[i].key in EntryKeys(t)
  {
    if i > 0 {
      assert t[i] == t[1..][i - 1];
      EntryKeyListed(t[1..], i - 1);
    }
  }

  lemma {:induction false} EntryKeysAppend(a: seq<TemplateLine>, b: seq<TemplateLine>)
    ensures EntryKeys(a + b) == EntryKeys(a) + EntryKeys(b)
  {
    if a == [] {
      assert a + b == b;
    } else {
      assert (a + b)[1..] == a[1..] + b;
      EntryKeysAppend(a[1..], b);
    }
  }

  predicate Distinct(keys: seq<string>)
  {
    forall i, j :: 0 <= i < j < |keys| ==> keys[i] != keys[j]
  }

  /** The file names each of the eighteen variables exactly once, in a
      fixed order. */
  lemma TemplateNamesEachKeyOnce()
    ensures EntryKeys(Template) == Keys
    ensures |Keys| == 18 && Distinct(Keys)
  {
    TemplateKeysBySection();
    GoKwikSectionKeys();
    SanitySectionKeys();
    AppSectionKeys();
    GeminiSectionKeys();
    FirebaseSectionKeys();
    WebSectionKeys();
    AndroidSectionKeys();
    IosSectionKeys();
    JoinSlices(Keys, 0, 3, 5);
    JoinSlices(Keys, 0, 5, 7);
    JoinSlices(Keys, 0, 7, 8);
    JoinSlices(Keys, 0, 8, 11);
    JoinSlices(Keys, 0, 11, 14);
    JoinSlices(Keys, 0, 14, 16);
    JoinSlices(Keys, 0, 16, 18);
    assert Keys[0..18] == Keys;
    KeysDistinct();
  }

  lemma JoinSlices<T>(s: seq<T>, a: nat, b: nat, c: nat)
    requires a <= b <= c <= |s|
    ensures s[a..b] + s[b..c] == s[a..c]
  {
  }

  /** Length and two characters, enough to tell the eighteen keys apart. */
  function Signature(s: string): (int, char, char)
  {
    (|s|, if |s| > 1 then s[1] else '.', if |s| > 9 then s[9] else '.')
  }

  const KeySignatures: seq<(int, char, char)> := [
      (18, 'O', 'R'),
      (14, 'O', 'I'),
      (18, 'O', 'V'),
      (17, 'A', 'O'),
      (14, 'A', 'T'),
      (8, 'P', '.'),
      (10, 'E', 'E'),
      (14, 'E', 'I'),
      (19, 'I', 'P'),
      (28, 'I', 'M'),
      (23, 'I', 'S'),
      (20, 'I', 'W'),
      (19, 'I', 'W'),
      (23, 'I', 'W'),
      (24, 'I', 'A'),
      (23, 'I', 'A'),
      (20, 'I', 'I'),
      (19, 'I', 'I')]

  lemma KeysDistinct()
    ensures |Keys| == 18 && Distinct(Keys)
  {
    KeySignaturesMatch();
    KeySignaturesDistinct();
    forall i, j | 0 <= i < j < |Keys| ensures Keys[i] != Keys[j] {
      assert Signature(Keys[i]) != Signature(Keys[j]);
    }
  }

  lemma KeySignaturesMatch()
    ensures |Keys| == |KeySignatures|
    ensures forall i :: 0 <= i < |Keys| ==> Signature(Keys[i]) == KeySignatures[i]
  {
  }

  lemma KeySignaturesDistinct()
    ensures forall i, j :: 0 <= i < j < |KeySignatures| ==> KeySignatures[i] != KeySignatures[j]
  {
  }

  lemma TemplateKeysBySection()
    ensures EntryKeys(Template)
            == EntryKeys(GoKwikSection) + EntryKeys(SanitySection) + EntryKeys(AppSection)
               + EntryKeys(GeminiSection) + EntryKeys(FirebaseSection) + EntryKeys(WebSection)
               + EntryKeys(AndroidSection) + EntryKeys(IosSection)
  {
    EntryKeysAppend(GoKwikSection, SanitySection);
    EntryKeysAppend(GoKwikSection + SanitySection, AppSection);
    EntryKeysAppend(GoKwikSection + SanitySection + AppSection, GeminiSection);
    EntryKeysAppend(GoKwikSection + SanitySection + AppSection + GeminiSection, FirebaseSection);
    EntryKeysAppend(GoKwikSection + SanitySection + AppSection + GeminiSection + FirebaseSection, WebSection);
    EntryKeysAppend(GoKwikSection + SanitySection + AppSection + GeminiSection + FirebaseSection
                    + WebSection, AndroidSection);
    EntryKeysAppend(GoKwikSection + SanitySection + AppSection + GeminiSection + FirebaseSection
                    + WebSection + AndroidSection, IosSection);
  }

  lemma GoKwikSectionKeys()
    ensures EntryKeys(GoKwikSection) == Keys[0..3]
  {
  }

  lemma SanitySectionKeys()
    ensures EntryKeys(SanitySection) == Keys[3..5]
  {
  }

  lemma AppSectionKeys()
    ensures EntryKeys(AppSection) == Keys[5..7]
  {
  }

  lemma GeminiSectionKeys()
    ensures EntryKeys(GeminiSection) == Keys[7..8]
  {
    var rest := [Entry("GEMINI_API_KEY", ""), Blank];
    assert EntryKeys(rest) == ["GEMINI_API_KEY"];
    assert GeminiSection[1..][1..] == rest;
    assert EntryKeys(GeminiSection) == EntryKeys(GeminiSection[1..]);
  }

  lemma FirebaseSectionKeys()
    ensures EntryKeys(FirebaseSection) == Keys[8..11]
  {
    var head := [Comment("# Firebase Configuration"),
                 Entry("FIREBASE_PROJECT_ID", "designwear-app-8984"),
                 Entry("FIREBASE_MESSAGING_SENDER_ID", "653328426569")];
    var tail := [Entry("FIREBASE_STORAGE_BUCKET", "designwear-app-8984" + ".firebasestorage.app"), Blank];
    assert EntryKeys(head) == ["FIREBASE_PROJECT_ID", "FIREBASE_MESSAGING_SENDER_ID"];
    assert tail[1..] == [Blank];
    assert EntryKeys(tail) == [tail[0].key] + EntryKeys(tail[1..]);
    assert EntryKeys([Blank]) == [];
    assert EntryKeys(tail) == ["FIREBASE_STORAGE_BUCKET"];
    assert FirebaseSection == head + tail;
    EntryKeysAppend(head, tail);
  }

  lemma WebSectionKeys()
    ensures EntryKeys(WebSection) == Keys[11..14]
  {
  }

  lemma AndroidSectionKeys()
    ensures EntryKeys(AndroidSection) == Keys[14..16]
  {
  }

  lemma IosSectionKeys()
    ensures EntryKeys(IosSection) == Keys[16..18]
  {
  }

  /** The characters of a variable name. */
  predicate KeyChar(c: char)
  {
    'A' <= c <= 'Z' || c == '_'
  }

  predicate KeyText(s: string)
  {
    s != [] && forall k :: 0 <= k < |s| ==> KeyChar(s[k])
  }

  /** Printable ASCII, so no line break. */
  predicate Printable(s: string)
  {
    forall k :: 0 <= k < |s| ==> ' ' <= s[k] <= '~'
  }

  /** Printable, and ending in a non-blank. */
  predicate PlainText(s: string)
  {
    Printable(s) && (s == [] || s[|s| - 1] != ' ')
  }

  lemma PlainTextAppend(a: string, b: string)
    requires Printable(a) && PlainText(b) && b != []
    ensures PlainText(a + b)
  {
    assert forall k :: 0 <= k < |b| ==> (a + b)[|a| + k] == b[k];
  }

  /** What the parser needs of a row: a comment starts with `#`, a key is
      a variable name, and every text is plain. */
  predicate RowWellFormed(l: TemplateLine)
  {
    match l
    case Comment(text) => text != [] && text[0] == '#' && PlainText(text)
    case Blank => true
    case Entry(key, fallback) => KeyText(key) && PlainText(fallback)
  }

  predicate WellFormed(t: seq<TemplateLine>)
  {
    forall i :: 0 <= i < |t| ==> RowWellFormed(t[i])
  }

  lemma WellFormedAppend(a: seq<TemplateLine>, b: seq<TemplateLine>)
    requires WellFormed(a) && WellFormed(b)
    ensures WellFormed(a + b)
  {
    forall i | 0 <= i < |a + b| ensures RowWellFormed((a + b)[i]) {
      if i >= |a| { assert (a + b)[i] == b[i - |a|]; }
    }
  }

  lemma TemplateWellFormed()
    ensures WellFormed(Template)
  {
    GoKwikSectionWellFormed();
    SanitySectionWellFormed();
    AppSectionWellFormed();
    GeminiSectionWellFormed();
    FirebaseSectionWellFormed();
    WebSectionWellFormed();
    AndroidSectionWellFormed();
    IosSectionWellFormed();
    WellFormedAppend(GoKwikSection, SanitySection);
    WellFormedAppend(GoKwikSection + SanitySection, AppSection);
    WellFormedAppend(GoKwikSection + SanitySection + AppSection, GeminiSection);
    WellFormedAppend(GoKwikSection + SanitySection + AppSection + GeminiSection, FirebaseSection);
    WellFormedAppend(GoKwikSection + SanitySection + AppSection + GeminiSection + FirebaseSection, WebSection);
    WellFormedAppend(GoKwikSection + SanitySection + AppSection + GeminiSection + FirebaseSection
                     + WebSection, AndroidSection);
    WellFormedAppend(GoKwikSection + SanitySection + AppSection + GeminiSection + FirebaseSection
                     + WebSection + AndroidSection, IosSection);
  }

  // Each section is well formed, row by row.

  lemma GoKwikSectionWellFormed()
    ensures WellFormed(GoKwikSection)
  {
    GoKwikHeadingRow(); GoKwikMerchantIdRow(); GoKwikApiKeyRow(); GoKwikEnvironmentRow();
  }

  lemma GoKwikHeadingRow()
    ensures RowWellFormed(Comment("# GoKwik Configuration"))
  {
  }

  lemma GoKwikMerchantIdRow()
    ensures RowWellFormed(Entry("GOKWIK_MERCHANT_ID", "19w2ztg5723j"))
  {
  }

  lemma GoKwikApiKeyRow()
    ensures RowWellFormed(Entry("GOKWIK_API_KEY", ""))
  {
  }

  lemma GoKwikEnvironmentRow()
    ensures RowWellFormed(Entry("GOKWIK_ENVIRONMENT", "sandbox"))
  {
  }

  lemma SanitySectionWellFormed()
    ensures WellFormed(SanitySection)
  {
    SanityHeadingRow(); SanityProjectIdRow(); SanityDatasetRow();
  }

  lemma SanityHeadingRow()
    ensures RowWellFormed(Comment("# Sanity Configuration"))
  {
  }

  lemma SanityProjectIdRow()
    ensures RowWellFormed(Entry("SANITY_PROJECT_ID", "jh7llku7"))
  {
  }

  lemma SanityDatasetRow()
    ensures RowWellFormed(Entry("SANITY_DATASET", "production"))
  {
  }

  lemma AppSectionWellFormed()
    ensures WellFormed(AppSection)
  {
    AppHeadingRow(); AppNameRow(); AppDebugModeRow();
  }

  lemma AppHeadingRow()
    ensures RowWellFormed(Comment("# App Configuration"))
  {
  }

  lemma AppNameRow()
    ensures RowWellFormed(Entry("APP_NAME", "Design Wear"))
  {
  }

  lemma AppDebugModeRow()
    ensures RowWellFormed(Entry("DEBUG_MODE", "true"))
  {
  }

  lemma GeminiSectionWellFormed()
    ensures WellFormed(GeminiSection)
  {
    GeminiHeadingRow(); GeminiKeyHintRow(); GeminiApiKeyRow();
  }

  lemma GeminiApiKeyRow()
    ensures RowWellFormed(Entry("GEMINI_API_KEY", ""))
  {
  }

  lemma FirebaseSectionWellFormed()
    ensures WellFormed(FirebaseSection)
  {
    FirebaseHeadingRow(); FirebaseProjectIdRow(); FirebaseSenderIdRow(); FirebaseStorageBucketRow();
  }

  lemma FirebaseHeadingRow()
    ensures RowWellFormed(Comment("# Firebase Configuration"))
  {
  }

  lemma FirebaseProjectIdRow()
    ensures RowWellFormed(Entry("FIREBASE_PROJECT_ID", "designwear-app-8984"))
  {
  }

  lemma FirebaseSenderIdRow()
    ensures RowWellFormed(Entry("FIREBASE_MESSAGING_SENDER_ID", "653328426569"))
  {
  }

  lemma WebSectionWellFormed()
    ensures WellFormed(WebSection)
  {
    WebHeadingRow(); WebApiKeyRow(); WebAppIdRow(); WebWindowsAppIdRow();
  }

  lemma WebHeadingRow()
    ensures RowWellFormed(Comment("# Web/Windows"))
  {
  }

  lemma WebApiKeyRow()
    ensures RowWellFormed(Entry("FIREBASE_WEB_API_KEY", ""))
  {
  }

  lemma WebAppIdRow()
    ensures RowWellFormed(Entry("FIREBASE_WEB_APP_ID", ""))
  {
  }

  lemma WebWindowsAppIdRow()
    ensures RowWellFormed(Entry("FIREBASE_WINDOWS_APP_ID", ""))
  {
  }

  lemma AndroidSectionWellFormed()
    ensures WellFormed(AndroidSection)
  {
    AndroidHeadingRow(); AndroidApiKeyRow(); AndroidAppIdRow();
  }

  lemma AndroidHeadingRow()
    ensures RowWellFormed(Comment("# Android"))
  {
  }

  lemma AndroidApiKeyRow()
    ensures RowWellFormed(Entry("FIREBASE_ANDROID_API_KEY", ""))
  {
  }

  lemma AndroidAppIdRow()
    ensures RowWellFormed(Entry("FIREBASE_ANDROID_APP_ID", ""))
  {
  }

  lemma IosSectionWellFormed()
    ensures WellFormed(IosSection)
  {
    IosHeadingRow(); IosApiKeyRow(); IosAppIdRow();
  }

  lemma IosHeadingRow()
    ensures RowWellFormed(Comment("# iOS/macOS"))
  {
  }

  lemma IosApiKeyRow()
    ensures RowWellFormed(Entry("FIREBASE_IOS_API_KEY", ""))
  {
  }

  lemma IosAppIdRow()
    ensures RowWellFormed(Entry("FIREBASE_IOS_APP_ID", ""))
  {
  }

  lemma GeminiHeadingRow()
    ensures RowWellFormed(Comment("# Google AI Studio - " + "Gemini API (Virtual Try-On)"))
  {
    GeminiHeadingStart();
    GeminiHeadingEnd();
    PlainTextAppend("# Google AI Studio - ", "Gemini API (Virtual Try-On)");
  }

  lemma GeminiHeadingStart() ensures Printable("# Google AI Studio - ") {}
  lemma GeminiHeadingEnd() ensures PlainText("Gemini API (Virtual Try-On)") {}

  lemma GeminiKeyHintRow()
    ensures RowWellFormed(Comment("# Get your API key from: " + "https://aistudio.google.com/apikey"))
  {
    GeminiKeyHintStart();
    GeminiKeyHintEnd();
    PlainTextAppend("# Get your API key from: ", "https://aistudio.google.com/apikey");
  }

  lemma GeminiKeyHintStart() ensures Printable("# Get your API key from: ") {}
  lemma GeminiKeyHintEnd() ensures PlainText("https://aistudio.google.com/apikey") {}

  lemma FirebaseStorageBucketRow()
    ensures RowWellFormed(Entry("FIREBASE_STORAGE_BUCKET", "designwear-app-8984" + ".firebasestorage.app"))
  {
    StorageBucketStart();
    StorageBucketEnd();
    PlainTextAppend("designwear-app-8984", ".firebasestorage.app");
  }

  lemma StorageBucketStart() ensures Printable("designwear-app-8984") {}
  lemma StorageBucketEnd() ensures PlainText(".firebasestorage.app") {}

  /** A variable renders as its value when set and non-empty, else as the
      literal default; a key whose default is empty renders as `KEY=`. */
  lemma RenderedEntry(env: AppConfig.Env, key: string, fallback: string)
    ensures RenderLine(env, Entry(key, fallback))
            == key + "=" + (if AppConfig.IsSet(env, key) then env[key] else fallback)
    ensures fallback == "" && !AppConfig.IsSet(env, key) ==> RenderLine(env, Entry(key, fallback)) == key + "="
  {
  }

  /** Every row of a well-formed template renders blank, as a comment,
      or as `KEY=VALUE` with one of the template's keys. */
  lemma RowsOf(env: AppConfig.Env, t: seq<TemplateLine>)
    requires WellFormed(t)
    ensures forall i :: 0 <= i < |t| ==>
              var line := RenderTemplate(env, t)[i];
              line == "" || line[0] == '#'
              || (t[i].Entry? && t[i].key in EntryKeys(t)
                  && exists v :: line == t[i].key + "=" + v)
  {
    forall i | 0 <= i < |t|
      ensures var line := RenderTemplate(env, t)[i];
              line == "" || line[0] == '#'
              || (t[i].Entry? && t[i].key in EntryKeys(t)
                  && exists v :: line == t[i].key + "=" + v)
    {
      assert RowWellFormed(t[i]);
      if t[i].Entry? {
        EntryKeyListed(t, i);
        var v := AppConfig.EnvOr(env, t[i].key, t[i].fallback);
        assert RenderTemplate(env, t)[i] == t[i].key + "=" + v;
      }
    }
  }

  /** Every row of the file is blank, a comment, or `KEY=VALUE` with one
      of the eighteen keys. */
  lemma RowsAreCommentsOrAssignments(env: AppConfig.Env)
    ensures forall i :: 0 <= i < |Template| ==>
              var line := RenderTemplate(env, Template)[i];
              line == "" || line[0] == '#'
              || (Template[i].Entry? && Template[i].key in Keys
                  && exists v :: line == Template[i].key + "=" + v)
  {
    TemplateNamesEachKeyOnce();
    TemplateWellFormed();
    RowsOf(env, Template);
  }

  /** A plain-text reply. */
  datatype TextReply = TextReply(status: nat, body: string, headers: seq<(string, string)>)

  const Headers: seq<(string, string)> := [("Content-Type", "text/plain"), ("Cache-Control", "no-store, max-age=0")]

  /** The handler: status 200, the rendered file, and headers that forbid caching. */
  function FlutterEnvGet(env: AppConfig.Env): (r: TextReply)
    ensures r.status == 200 && r.body == Render(env)
    ensures ("Content-Type", "text/plain") in r.headers && ("Cache-Control", "no-store, max-age=0") in r.headers
  {
    TextReply(200, Render(env), Headers)
  }

  /** The headers do not depend on the environment. */
  lemma HeadersConstant(e1: AppConfig.Env, e2: AppConfig.Env)
    ensures FlutterEnvGet(e1).headers == FlutterEnvGet(e2).headers
  {
  }
}
