/** The records of `src/types.ts`: test kinds, per-test outcomes, finished sessions,
    the in-progress session, settings, the streak and the persisted application state. */
module Types {
  import opened Wrappers
  import opened JsonModel

  datatype TestKind = Arithmetic | Memory | Reaction | OddOneOut

  /** The four kinds in the order of `testKinds` in storage.ts. */
  const AllKinds: seq<TestKind> := [Arithmetic, Memory, Reaction, OddOneOut]

  datatype DifficultyLevel = Easy | Normal | Hard
  datatype FontScale = Small | Medium | Large
  datatype Theme = System | Light | Dark

  /** Free-form per-test metadata (`Record<string, unknown>`). */
  type Meta = map<string, Json>

  /** One test's outcome; `meta` is None when the key is absent. */
  datatype TestScore = TestScore(kind: TestKind, score: int, meta: Option<Meta>)

  /** A finished session as stored in the history. */
  datatype Session = Session(id: string, dateISO: string, tests: seq<TestScore>, totalScore: int, brainAge: int)

  /** `lang` is kept as text: the language key in storage can put any text there. */
  datatype Settings = Settings(
    lang: string,
    dark: bool,
    sound: bool,
    vibration: bool,
    difficulty: DifficultyLevel,
    fontScale: FontScale,
    theme: Theme)

  datatype StreakState = StreakState(current: int, best: int, lastDayISO: Option<string>)

  /** The persisted state; its `version` is always the literal 1 and is not stored here. */
  datatype AppState = AppState(sessions: seq<Session>, streak: StreakState, settings: Settings, badges: seq<string>)

  datatype Status = Pending | Complete

  datatype ActiveSessionTest = ActiveSessionTest(kind: TestKind, score: int, meta: Option<Meta>, status: Status)

  datatype ActiveSession = ActiveSession(id: string, dateISO: string, tests: seq<ActiveSessionTest>, currentIndex: int)

  /** The two values the `lang` setting may take. */
  predicate IsLang(lang: string) {
    lang == "en" || lang == "nl"
  }
}
