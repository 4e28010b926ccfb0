/** The zod schemas of `src/logic/storage.ts` restated as explicit validators over JSON,
    the defaults, and the encoders that stand for what `JSON.stringify` is given. A
    validator is lenient where the schema has `.default(...)` (a missing key takes the
    default) and strict on types and enumerations. Unknown keys are dropped, as zod's
    objects strip them. */
module Schema {
  import opened Wrappers
  import opened JsonModel
  import opened Types

  /** The key at which validation failed. */
  datatype SchemaError = SchemaError(path: string)

  type Fields = map<string, Json>

  function Get(m: Fields, k: string): Option<Json> {
    if k in m then Some(m[k]) else None
  }

  const DefaultSettings: Settings := Settings("en", false, true, true, Normal, Medium, System)

  const DefaultStreak: StreakState := StreakState(0, 0, None)

  const DefaultState: AppState := AppState([], DefaultStreak, DefaultSettings, [])

  // ---------------------------------------------------------------- settings

  function DifficultyText(d: DifficultyLevel): string {
    match d
    case Easy => "easy"
    case Normal => "normal"
    case Hard => "hard"
  }

  function FontScaleText(f: FontScale): string {
    match f
    case Small => "small"
    case Medium => "medium"
    case Large => "large"
  }

  function ThemeText(t: Theme): string {
    match t
    case System => "system"
    case Light => "light"
    case Dark => "dark"
  }

  const SettingsKeys: set<string> := {"lang", "dark", "sound", "vibration", "difficulty", "fontScale", "theme"}

  /** The settings object as it is written to JSON, one entry per key. */
  function SettingsFields(s: Settings): (m: Fields)
    ensures m.Keys == SettingsKeys
  {
    map[
      "lang" := JStr(s.lang),
      "dark" := JBool(s.dark),
      "sound" := JBool(s.sound),
      "vibration" := JBool(s.vibration),
      "difficulty" := JStr(DifficultyText(s.difficulty)),
      "fontScale" := JStr(FontScaleText(s.fontScale)),
      "theme" := JStr(ThemeText(s.theme))]
  }

  function SettingsToJson(s: Settings): Json {
    JObj(SettingsFields(s))
  }

  /** What the settings schema accepts under each key. */
  predicate SettingFieldOk(k: string, v: Json) {
    if k == "lang" then v == JStr("en") || v == JStr("nl")
    else if k == "dark" || k == "sound" || k == "vibration" then v.JBool?
    else if k == "difficulty" then v == JStr("easy") || v == JStr("normal") || v == JStr("hard")
    else if k == "fontScale" then v == JStr("small") || v == JStr("medium") || v == JStr("large")
    else if k == "theme" then v == JStr("system") || v == JStr("light") || v == JStr("dark")
    else true
  }

  function LangField(v: Option<Json>): Result<string, SchemaError> {
    match v
    case None => Ok("en")
    case Some(JStr(t)) => if t == "en" || t == "nl" then Ok(t) else Err(SchemaError("settings.lang"))
    case Some(_) => Err(SchemaError("settings.lang"))
  }

  function BoolField(v: Option<Json>, default: bool, path: string): Result<bool, SchemaError> {
    match v
    case None => Ok(default)
    case Some(JBool(b)) => Ok(b)
    case Some(_) => Err(SchemaError(path))
  }

  function DifficultyField(v: Option<Json>): Result<DifficultyLevel, SchemaError> {
    match v
    case None => Ok(Normal)
    case Some(j) =>
      if j == JStr("easy") then Ok(Easy)
      else if j == JStr("normal") then Ok(Normal)
      else if j == JStr("hard") then Ok(Hard)
      else Err(SchemaError("settings.difficulty"))
  }

  function FontScaleField(v: Option<Json>): Result<FontScale, SchemaError> {
    match v
    case None => Ok(Medium)
    case Some(j) =>
      if j == JStr("small") then Ok(Small)
      else if j == JStr("medium") then Ok(Medium)
      else if j == JStr("large") then Ok(Large)
      else Err(SchemaError("settings.fontScale"))
  }

  function ThemeField(v: Option<Json>): Result<Theme, SchemaError> {
    match v
    case None => Ok(System)
    case Some(j) =>
      if j == JStr("system") then Ok(System)
      else if j == JStr("light") then Ok(Light)
      else if j == JStr("dark") then Ok(Dark)
      else Err(SchemaError("settings.theme"))
  }

  /** `settingsSchema`. */
  function ValidateSettings(j: Json): Result<Settings, SchemaError> {
    match j
    case JObj(m) =>
      var lang :- LangField(Get(m, "lang"));
      var dark :- BoolField(Get(m, "dark"), false, "settings.dark");
      var sound :- BoolField(Get(m, "sound"), true, "settings.sound");
      var vibration :- BoolField(Get(m, "vibration"), true, "settings.vibration");
      var difficulty :- DifficultyField(Get(m, "difficulty"));
      var fontScale :- FontScaleField(Get(m, "fontScale"));
      var theme :- ThemeField(Get(m, "theme"));
      Ok(Settings(lang, dark, sound, vibration, difficulty, fontScale, theme))
    case _ => Err(SchemaError("settings"))
  }

  /** Settings validation accepts an object exactly when every settings key it holds has
      the right type and value. */
  lemma ValidateSettingsAccepts(j: Json)
    ensures ValidateSettings(j).Ok? <==>
              j.JObj? && forall k :: k in SettingsKeys && k in j.fields ==> SettingFieldOk(k, j.fields[k])
  {
    if j.JObj? {
      var m := j.fields;
      if forall k :: k in SettingsKeys && k in m ==> SettingFieldOk(k, m[k]) {
        assert LangField(Get(m, "lang")).Ok?;
        assert BoolField(Get(m, "dark"), false, "settings.dark").Ok?;
        assert BoolField(Get(m, "sound"), true, "settings.sound").Ok?;
        assert BoolField(Get(m, "vibration"), true, "settings.vibration").Ok?;
        assert DifficultyField(Get(m, "difficulty")).Ok?;
        assert FontScaleField(Get(m, "fontScale")).Ok?;
        assert ThemeField(Get(m, "theme")).Ok?;
      }
      if ValidateSettings(j).Ok? {
        forall k | k in SettingsKeys && k in m
          ensures SettingFieldOk(k, m[k])
        {
          assert Get(m, k) == Some(m[k]);
        }
      }
    }
  }

  /** An accepted settings object yields the defaults overridden by the keys it holds. */
  lemma ValidateSettingsOverrides(j: Json)
    requires ValidateSettings(j).Ok?
    ensures IsLang(ValidateSettings(j).value.lang)
    ensures forall k :: k in SettingsKeys ==>
              SettingsFields(ValidateSettings(j).value)[k]
                == if k in j.fields then j.fields[k] else SettingsFields(DefaultSettings)[k]
  {
    var m := j.fields;
    var s := ValidateSettings(j).value;
    var f := SettingsFields(s);
    var d := SettingsFields(DefaultSettings);
    SettingsFieldsGet(s);
    SettingsFieldsGet(DefaultSettings);
    forall k | k in SettingsKeys
      ensures f[k] == if k in m then m[k] else d[k]
    {
      if k == "lang" {
        assert LangField(Get(m, "lang")) == Ok(s.lang);
      } else if k == "dark" {
        assert BoolField(Get(m, "dark"), false, "settings.dark") == Ok(s.dark);
      } else if k == "sound" {
        assert BoolField(Get(m, "sound"), true, "settings.sound") == Ok(s.sound);
      } else if k == "vibration" {
        assert BoolField(Get(m, "vibration"), true, "settings.vibration") == Ok(s.vibration);
      } else if k == "difficulty" {
        assert DifficultyField(Get(m, "difficulty")) == Ok(s.difficulty);
      } else if k == "fontScale" {
        assert FontScaleField(Get(m, "fontScale")) == Ok(s.fontScale);
      } else {
        assert ThemeField(Get(m, "theme")) == Ok(s.theme);
      }
    }
  }

  /** The settings object holds each setting under its own key. */
  lemma SettingsFieldsGet(s: Settings)
    ensures var m := SettingsFields(s);
            && Get(m, "lang") == Some(JStr(s.lang))
            && Get(m, "dark") == Some(JBool(s.dark))
            && Get(m, "sound") == Some(JBool(s.sound))
            && Get(m, "vibration") == Some(JBool(s.vibration))
            && Get(m, "difficulty") == Some(JStr(DifficultyText(s.difficulty)))
            && Get(m, "fontScale") == Some(JStr(FontScaleText(s.fontScale)))
            && Get(m, "theme") == Some(JStr(ThemeText(s.theme)))
  {
  }

  lemma SettingsRoundTrip(s: Settings)
    requires IsLang(s.lang)
    ensures ValidateSettings(SettingsToJson(s)) == Ok(s)
  {
    var m := SettingsFields(s);
    SettingsFieldsGet(s);
    assert LangField(Get(m, "lang")) == Ok(s.lang);
    assert DifficultyField(Get(m, "difficulty")) == Ok(s.difficulty);
    assert FontScaleField(Get(m, "fontScale")) == Ok(s.fontScale);
    assert ThemeField(Get(m, "theme")) == Ok(s.theme);
  }

  // ---------------------------------------------------------------- streak

  function NumField(v: Option<Json>, path: string): Result<int, SchemaError> {
    match v
    case Some(JNum(n)) => Ok(n)
    case _ => Err(SchemaError(path))
  }

  function StrField(v: Option<Json>, path: string): Result<string, SchemaError> {
    match v
    case Some(JStr(s)) => Ok(s)
    case _ => Err(SchemaError(path))
  }

  /** A required key holding a text or null. */
  function NullableStrField(v: Option<Json>, path: string): Result<Option<string>, SchemaError> {
    match v
    case Some(JStr(s)) => Ok(Some(s))
    case Some(JNull) => Ok(None)
    case _ => Err(SchemaError(path))
  }

  /** `streakSchema`: all three keys are required; the last day may be null. */
  function ValidateStreak(j: Json): Result<StreakState, SchemaError> {
    match j
    case JObj(m) =>
      var current :- NumField(Get(m, "current"), "streak.current");
      var best :- NumField(Get(m, "best"), "streak.best");
      var last :- NullableStrField(Get(m, "lastDayISO"), "streak.lastDayISO");
      Ok(StreakState(current, best, last))
    case _ => Err(SchemaError("streak"))
  }

  function StreakToJson(s: StreakState): Json {
    JObj(map[
      "current" := JNum(s.current),
      "best" := JNum(s.best),
      "lastDayISO" := match s.lastDayISO case None => JNull case Some(d) => JStr(d)])
  }

  lemma StreakRoundTrip(s: StreakState)
    ensures ValidateStreak(StreakToJson(s)) == Ok(s)
  {
  }

  // ---------------------------------------------------------------- arrays

  /** Validate every element; the first failure fails the array. */
  function ValidateArray<T>(items: seq<Json>, f: Json -> Result<T, SchemaError>): (r: Result<seq<T>, SchemaError>)
    ensures r.Ok? <==> forall i :: 0 <= i < |items| ==> f(items[i]).Ok?
    ensures r.Ok? ==> |r.value| == |items| && forall i :: 0 <= i < |items| ==> r.value[i] == f(items[i]).value
  {
    if items == [] then Ok([])
    else
      assert forall i :: 1 <= i < |items| ==> items[1..][i - 1] == items[i];
      var x :- f(items[0]);
      var rest :- ValidateArray(items[1..], f);
      Ok([x] + rest)
  }

  function EncodeArray<T>(xs: seq<T>, enc: T -> Json): (r: seq<Json>)
    ensures |r| == |xs|
  {
    if xs == [] then [] else [enc(xs[0])] + EncodeArray(xs[1..], enc)
  }

  lemma {:induction false} ArrayRoundTrip<T>(xs: seq<T>, enc: T -> Json, f: Json -> Result<T, SchemaError>)
    requires forall i :: 0 <= i < |xs| ==> f(enc(xs[i])) == Ok(xs[i])
    ensures ValidateArray(EncodeArray(xs, enc), f) == Ok(xs)
  {
    if xs != [] {
      var e := EncodeArray(xs, enc);
      assert e[0] == enc(xs[0]) && e[1..] == EncodeArray(xs[1..], enc);
      ArrayRoundTrip(xs[1..], enc, f);
      assert [xs[0]] + xs[1..] == xs;
    }
  }

  /** An array key that defaults to the empty array when it is missing. */
  function ArrayField<T>(v: Option<Json>, f: Json -> Result<T, SchemaError>, path: string): Result<seq<T>, SchemaError> {
    match v
    case None => Ok([])
    case Some(JArr(items)) => ValidateArray(items, f)
    case Some(_) => Err(SchemaError(path))
  }

  // ---------------------------------------------------------------- tests and sessions

  function KindText(k: TestKind): string {
    match k
    case Arithmetic => "arithmetic"
    case Memory => "memory"
    case Reaction => "reaction"
    case OddOneOut => "oddOneOut"
  }

  function KindField(v: Option<Json>): Result<TestKind, SchemaError> {
    match v
    case Some(j) =>
      if j == JStr("arithmetic") then Ok(Arithmetic)
      else if j == JStr("memory") then Ok(Memory)
      else if j == JStr("reaction") then Ok(Reaction)
      else if j == JStr("oddOneOut") then Ok(OddOneOut)
      else Err(SchemaError("tests.kind"))
    case None => Err(SchemaError("tests.kind"))
  }

  /** `meta`: optional, and when present any object. */
  function MetaField(v: Option<Json>): Result<Option<Meta>, SchemaError> {
    match v
    case None => Ok(None)
    case Some(JObj(m)) => Ok(Some(m))
    case Some(_) => Err(SchemaError("tests.meta"))
  }

  function ValidateTest(j: Json): Result<TestScore, SchemaError> {
    match j
    case JObj(m) =>
      var kind :- KindField(Get(m, "kind"));
      var score :- NumField(Get(m, "score"), "tests.score");
      var meta :- MetaField(Get(m, "meta"));
      Ok(TestScore(kind, score, meta))
    case _ => Err(SchemaError("tests"))
  }

  /** The meta key is left out when there is no meta, as `JSON.stringify` drops undefined. */
  function MetaEntry(meta: Option<Meta>): Fields {
    match meta
    case None => map[]
    case Some(m) => map["meta" := JObj(m)]
  }

  function TestToJson(t: TestScore): Json {
    JObj(map["kind" := JStr(KindText(t.kind)), "score" := JNum(t.score)] + MetaEntry(t.meta))
  }

  lemma TestRoundTrip(t: TestScore)
    ensures ValidateTest(TestToJson(t)) == Ok(t)
  {
    var m := TestToJson(t).fields;
    assert Get(m, "kind") == Some(JStr(KindText(t.kind)));
    assert Get(m, "score") == Some(JNum(t.score));
    assert Get(m, "meta") == match t.meta case None => None case Some(x) => Some(JObj(x));
  }

  /** `sessionSchema`; a missing test list is empty. */
  function ValidateSession(j: Json): Result<Session, SchemaError> {
    match j
    case JObj(m) =>
      var id :- StrField(Get(m, "id"), "sessions.id");
      var dateISO :- StrField(Get(m, "dateISO"), "sessions.dateISO");
      var tests :- ArrayField(Get(m, "tests"), ValidateTest, "sessions.tests");
      var totalScore :- NumField(Get(m, "totalScore"), "sessions.totalScore");
      var brainAge :- NumField(Get(m, "brainAge"), "sessions.brainAge");
      Ok(Session(id, dateISO, tests, totalScore, brainAge))
    case _ => Err(SchemaError("sessions"))
  }

  function SessionToJson(s: Session): Json {
    JObj(map[
      "id" := JStr(s.id),
      "dateISO" := JStr(s.dateISO),
      "tests" := JArr(EncodeArray(s.tests, TestToJson)),
      "totalScore" := JNum(s.totalScore),
      "brainAge" := JNum(s.brainAge)])
  }

  lemma SessionFieldsGet(s: Session)
    ensures var m := SessionToJson(s).fields;
            && Get(m, "id") == Some(JStr(s.id))
            && Get(m, "dateISO") == Some(JStr(s.dateISO))
            && Get(m, "tests") == Some(JArr(EncodeArray(s.tests, TestToJson)))
            && Get(m, "totalScore") == Some(JNum(s.totalScore))
            && Get(m, "brainAge") == Some(JNum(s.brainAge))
  {
  }

  lemma SessionRoundTrip(s: Session)
    ensures ValidateSession(SessionToJson(s)) == Ok(s)
  {
    forall i | 0 <= i < |s.tests|
      ensures ValidateTest(TestToJson(s.tests[i])) == Ok(s.tests[i])
    {
      TestRoundTrip(s.tests[i]);
    }
    ArrayRoundTrip(s.tests, TestToJson, ValidateTest);
    SessionFieldsGet(s);
    var m := SessionToJson(s).fields;
    assert ArrayField(Get(m, "tests"), ValidateTest, "sessions.tests") == Ok(s.tests);
    ValidateSessionOf(m, s);
  }

  /** The session validator succeeds when each of its fields does. */
  lemma ValidateSessionOf(m: Fields, s: Session)
    requires Get(m, "id") == Some(JStr(s.id)) && Get(m, "dateISO") == Some(JStr(s.dateISO))
    requires ArrayField(Get(m, "tests"), ValidateTest, "sessions.tests") == Ok(s.tests)
    requires Get(m, "totalScore") == Some(JNum(s.totalScore)) && Get(m, "brainAge") == Some(JNum(s.brainAge))
    ensures ValidateSession(JObj(m)) == Ok(s)
  {
  }

  // ---------------------------------------------------------------- state

  function BadgeItem(j: Json): Result<string, SchemaError> {
    match j
    case JStr(s) => Ok(s)
    case _ => Err(SchemaError("badges"))
  }

  function BadgeToJson(b: string): Json {
    JStr(b)
  }

  /** `stateSchema`: streak and settings are required, sessions and badges default to
      empty, and the version must be 1. */
  function ValidateState(j: Json): Result<AppState, SchemaError> {
    match j
    case JObj(m) =>
      var sessions :- ArrayField(Get(m, "sessions"), ValidateSession, "sessions");
      var streak :- if "streak" in m then ValidateStreak(m["streak"]) else Err(SchemaError("streak"));
      var settings :- if "settings" in m then ValidateSettings(m["settings"]) else Err(SchemaError("settings"));
      var badges :- ArrayField(Get(m, "badges"), BadgeItem, "badges");
      if Get(m, "version") != Some(JNum(1)) then Err(SchemaError("version"))
      else Ok(AppState(sessions, streak, settings, badges))
    case _ => Err(SchemaError("state"))
  }

  /** A state that passes the schema had version 1 and both required keys, got empty
      lists for the lists it lacked, and is well formed. */
  lemma ValidateStateAccepts(j: Json)
    requires ValidateState(j).Ok?
    ensures j.JObj? && Get(j.fields, "version") == Some(JNum(1))
    ensures "streak" in j.fields && "settings" in j.fields
    ensures "sessions" !in j.fields ==> ValidateState(j).value.sessions == []
    ensures "badges" !in j.fields ==> ValidateState(j).value.badges == []
    ensures WellFormed(ValidateState(j).value)
    ensures var v := ValidateState(j).value;
            && ArrayField(Get(j.fields, "sessions"), ValidateSession, "sessions") == Ok(v.sessions)
            && v.streak == ValidateStreak(j.fields["streak"]).value
            && v.settings == ValidateSettings(j.fields["settings"]).value
            && ArrayField(Get(j.fields, "badges"), BadgeItem, "badges") == Ok(v.badges)
  {
    ValidateSettingsOverrides(j.fields["settings"]);
  }

  /** The schema refuses a state whose language is neither "en" nor "nl", so such a
      state does not survive its own export. */
  lemma ForeignLanguageRejected(s: AppState)
    requires !IsLang(s.settings.lang)
    ensures ValidateSettings(SettingsToJson(s.settings)).Err?
    ensures ValidateState(StateToJson(s)).Err?
  {
    SettingsFieldsGet(s.settings);
    assert LangField(Get(SettingsFields(s.settings), "lang")).Err?;
  }

  function StateToJson(s: AppState): Json {
    JObj(map[
      "sessions" := JArr(EncodeArray(s.sessions, SessionToJson)),
      "streak" := StreakToJson(s.streak),
      "settings" := SettingsToJson(s.settings),
      "badges" := JArr(EncodeArray(s.badges, BadgeToJson)),
      "version" := JNum(1)])
  }

  /** What every state this model hands to `saveState` satisfies. */
  predicate WellFormed(s: AppState) {
    IsLang(s.settings.lang)
  }

  lemma SessionsRoundTrip(sessions: seq<Session>)
    ensures ValidateArray(EncodeArray(sessions, SessionToJson), ValidateSession) == Ok(sessions)
  {
    forall i | 0 <= i < |sessions|
      ensures ValidateSession(SessionToJson(sessions[i])) == Ok(sessions[i])
    {
      SessionRoundTrip(sessions[i]);
    }
    ArrayRoundTrip(sessions, SessionToJson, ValidateSession);
  }

  /** Export followed by import gives back the same state. */
  lemma StateRoundTrip(s: AppState)
    requires WellFormed(s)
    ensures ValidateState(StateToJson(s)) == Ok(s)
  {
    var m := StateToJson(s).fields;
    SessionsRoundTrip(s.sessions);
    assert ArrayField(Get(m, "sessions"), ValidateSession, "sessions") == Ok(s.sessions);
    BadgesRoundTrip(s);
    StreakRoundTrip(s.streak);
    SettingsRoundTrip(s.settings);
    ValidateStateOf(m, s);
  }

  lemma BadgesRoundTrip(s: AppState)
    ensures ArrayField(Get(StateToJson(s).fields, "badges"), BadgeItem, "badges") == Ok(s.badges)
  {
    ArrayRoundTrip(s.badges, BadgeToJson, BadgeItem);
  }

  /** The state validator succeeds when each of its parts does. */
  lemma ValidateStateOf(m: Fields, s: AppState)
    requires ArrayField(Get(m, "sessions"), ValidateSession, "sessions") == Ok(s.sessions)
    requires ArrayField(Get(m, "badges"), BadgeItem, "badges") == Ok(s.badges)
    requires "streak" in m && ValidateStreak(m["streak"]) == Ok(s.streak)
    requires "settings" in m && ValidateSettings(m["settings"]) == Ok(s.settings)
    requires Get(m, "version") == Some(JNum(1))
    ensures ValidateState(JObj(m)) == Ok(s)
  {
  }

  /** The default state passes its own schema. */
  lemma DefaultStateValid()
    ensures ValidateState(StateToJson(DefaultState)) == Ok(DefaultState)
  {
    StateRoundTrip(DefaultState);
  }

  // ---------------------------------------------------------------- active session

  function StatusText(s: Status): string {
    match s
    case Pending => "pending"
    case Complete => "complete"
  }

  function ActiveTestToJson(t: ActiveSessionTest): Json {
    JObj(map["kind" := JStr(KindText(t.kind)), "score" := JNum(t.score), "status" := JStr(StatusText(t.status))]
         + MetaEntry(t.meta))
  }

  function ActiveSessionToJson(a: ActiveSession): (j: Json)
    ensures Truthy(j)
  {
    JObj(map[
      "id" := JStr(a.id),
      "dateISO" := JStr(a.dateISO),
      "tests" := JArr(EncodeArray(a.tests, ActiveTestToJson)),
      "currentIndex" := JNum(a.currentIndex)])
  }
}
