/** The browser key-value store behind `src/logic/storage.ts` and the operations that read
    and write it: the fail-safe `loadState`, `saveState`, the in-progress session keys,
    `clearStorage`, the strict validate step of `importData`, and the pure helpers
    `safeJSONParse`, `detectInitialLang` and `sortSessionsDescending`. */
module Storage {
  import opened Wrappers
  import opened JsonModel
  import opened Types
  import opened Schema
  import IsoTime
  import Sorting

  const StorageKey: string := "brainSparks:v1"
  const ActiveSessionKey: string := "brainSparks:activeSession"
  const LanguageKey: string := "brainSparks:lang"

  // ---------------------------------------------------------------- pure helpers

  /** `safeJSONParse`: a missing or empty text, or one that does not parse, gives the
      fallback. */
  function SafeJsonParse(codec: JsonCodec, value: Option<string>, fallback: Json): (r: Json)
    ensures value.None? || value == Some("") ==> r == fallback
    ensures value.Some? && value != Some("") && codec.parse(value.value).Some? ==> r == codec.parse(value.value).value
    ensures value.Some? && codec.parse(value.value).None? ==> r == fallback
  {
    if value.None? || value.value == "" then fallback
    else match codec.parse(value.value)
      case Some(j) => j
      case None => fallback
  }

  function LowerAscii(c: char): char {
    if 'A' <= c <= 'Z' then (c as int + 32) as char else c
  }

  /** `detectInitialLang`: Dutch when the browser language starts with "nl" in any case. */
  function DetectInitialLang(navigatorLanguage: string): (lang: string)
    ensures IsLang(lang)
    ensures lang == "nl" <==>
              |navigatorLanguage| >= 2 && LowerAscii(navigatorLanguage[0]) == 'n' && LowerAscii(navigatorLanguage[1]) == 'l'
  {
    var prefix := if |navigatorLanguage| >= 2 then navigatorLanguage[..2] else navigatorLanguage;
    var lowered := seq(|prefix|, i requires 0 <= i < |prefix| => LowerAscii(prefix[i]));
    assert |navigatorLanguage| >= 2 ==> lowered == [LowerAscii(navigatorLanguage[0]), LowerAscii(navigatorLanguage[1])];
    assert |navigatorLanguage| < 2 ==> |lowered| < 2;
    if lowered == "nl" then "nl" else "en"
  }

  /** The default state with the given language. */
  function DefaultWithLang(lang: string): (s: AppState)
    ensures s.settings.lang == lang
    ensures s.(settings := s.settings.(lang := "en")) == DefaultState
  {
    DefaultState.(settings := DefaultSettings.(lang := lang))
  }

  /** What `loadState` returns for a store in the given condition. `available` is false
      when there is no window and hence no storage. */
  function LoadedState(available: bool, items: map<string, string>, codec: JsonCodec, navigatorLanguage: string): AppState {
    if !available then DefaultState
    else if StorageKey !in items || items[StorageKey] == "" then DefaultWithLang(DetectInitialLang(navigatorLanguage))
    else
      var parsed := SafeJsonParse(codec, Some(items[StorageKey]), StateToJson(DefaultState));
      match ValidateState(parsed)
      case Err(_) => DefaultWithLang(DetectInitialLang(navigatorLanguage))
      case Ok(data) =>
        var lang := if LanguageKey in items then items[LanguageKey] else data.settings.lang;
        data.(settings := data.settings.(lang := lang))
  }

  /** What `loadActiveSession` returns: the parsed value when it is truthy, without any
      schema check. */
  function LoadedActiveSession(available: bool, items: map<string, string>, codec: JsonCodec): Option<Json> {
    if !available || ActiveSessionKey !in items || items[ActiveSessionKey] == "" then None
    else
      var parsed := SafeJsonParse(codec, Some(items[ActiveSessionKey]), JNull);
      if Truthy(parsed) then Some(parsed) else None
  }

  datatype ImportError = Unparseable | Invalid(error: SchemaError)

  /** The validate step of `importData`: unlike `loadState` it rejects instead of falling
      back to defaults. */
  function ImportState(codec: JsonCodec, text: string): (r: Result<AppState, ImportError>)
    ensures r.Ok? <==> codec.parse(text).Some? && ValidateState(codec.parse(text).value).Ok?
    ensures r.Ok? ==> r.value == ValidateState(codec.parse(text).value).value
  {
    match codec.parse(text)
    case None => Err(Unparseable)
    case Some(j) =>
      match ValidateState(j)
      case Err(e) => Err(Invalid(e))
      case Ok(s) => Ok(s)
  }

  /** Milliseconds since the epoch of a session's date, for dates that parse. */
  function SessionTime(s: Session): int {
    match IsoTime.Parse(s.dateISO)
    case Some(t) => t
    case None => 0
  }

  predicate AllDatesParse(sessions: seq<Session>) {
    forall i :: 0 <= i < |sessions| ==> IsoTime.Parse(sessions[i].dateISO).Some?
  }

  /** The sort key that puts later sessions first. */
  function NewestFirst(s: Session): int {
    -SessionTime(s)
  }

  /** `sortSessionsDescending`: a newest-first permutation of a copy of the history. */
  function SortSessionsDescending(sessions: seq<Session>): (r: seq<Session>)
    requires AllDatesParse(sessions)
    ensures multiset(r) == multiset(sessions)
    ensures AllDatesParse(r)
    ensures forall i, j :: 0 <= i < j < |r| ==>
              IsoTime.Parse(r[i].dateISO).value >= IsoTime.Parse(r[j].dateISO).value
  {
    var r := Sorting.SortBy(sessions, NewestFirst);
    PermutationParses(sessions, r);
    NewestFirstDescending(r);
    r
  }

  lemma PermutationParses(sessions: seq<Session>, r: seq<Session>)
    requires AllDatesParse(sessions) && multiset(r) == multiset(sessions)
    ensures AllDatesParse(r)
  {
    forall i | 0 <= i < |r|
      ensures IsoTime.Parse(r[i].dateISO).Some?
    {
      assert r[i] in multiset(sessions);
    }
  }

  lemma NewestFirstDescending(r: seq<Session>)
    requires AllDatesParse(r) && Sorting.SortedBy(r, NewestFirst)
    ensures forall i, j :: 0 <= i < j < |r| ==>
              IsoTime.Parse(r[i].dateISO).value >= IsoTime.Parse(r[j].dateISO).value
  {
    forall i, j | 0 <= i < j < |r|
      ensures IsoTime.Parse(r[i].dateISO).value >= IsoTime.Parse(r[j].dateISO).value
    {
      assert NewestFirst(r[i]) <= NewestFirst(r[j]);
    }
  }

  // ---------------------------------------------------------------- the store

  /** `window.localStorage` together with the environment `storage.ts` reads from: whether
      a window exists, the JSON library, and the browser language. */
  class Store {
    var available: bool
    var items: map<string, string>
    const codec: JsonCodec
    const navigatorLanguage: string

    constructor (available: bool, items: map<string, string>, codec: JsonCodec, navigatorLanguage: string)
      ensures this.available == available && this.items == items
      ensures this.codec == codec && this.navigatorLanguage == navigatorLanguage
    {
      this.available := available;
      this.items := items;
      this.codec := codec;
      this.navigatorLanguage := navigatorLanguage;
    }

    /** `loadState`: never fails. */
    method LoadState() returns (s: AppState)
      ensures s == LoadedState(available, items, codec, navigatorLanguage)
      ensures !available ==> s == DefaultState
      ensures available && (StorageKey !in items || items[StorageKey] == "") ==>
                s == DefaultWithLang(DetectInitialLang(navigatorLanguage))
    {
      if !available {
        return DefaultState;
      }
      if StorageKey !in items || items[StorageKey] == "" {
        return DefaultWithLang(DetectInitialLang(navigatorLanguage));
      }
      var parsed := SafeJsonParse(codec, Some(items[StorageKey]), StateToJson(DefaultState));
      var result := ValidateState(parsed);
      if result.Err? {
        return DefaultWithLang(DetectInitialLang(navigatorLanguage));
      }
      var data := result.value;
      var lang := data.settings.lang;
      if LanguageKey in items {
        lang := items[LanguageKey];
      }
      s := data.(settings := data.settings.(lang := lang));
    }

    /** `saveState`: writes the state and the language key. */
    method SaveState(s: AppState)
      modifies this
      ensures available == old(available)
      ensures available ==>
                items == old(items)[StorageKey := codec.stringify(StateToJson(s))][LanguageKey := s.settings.lang]
      ensures !available ==> items == old(items)
    {
      if !available {
        return;
      }
      items := items[StorageKey := codec.stringify(StateToJson(s))];
      items := items[LanguageKey := s.settings.lang];
    }

    /** `loadActiveSession`. */
    method LoadActiveSession() returns (a: Option<Json>)
      ensures a == LoadedActiveSession(available, items, codec)
      ensures a.Some? ==> Truthy(a.value)
    {
      if !available || ActiveSessionKey !in items || items[ActiveSessionKey] == "" {
        return None;
      }
      var parsed := SafeJsonParse(codec, Some(items[ActiveSessionKey]), JNull);
      if !Truthy(parsed) {
        return None;
      }
      a := Some(parsed);
    }

    /** `saveActiveSession`: None removes the key. */
    method SaveActiveSession(session: Option<ActiveSession>)
      modifies this
      ensures available == old(available)
      ensures available && session.None? ==> items == old(items) - {ActiveSessionKey}
      ensures available && session.Some? ==>
                items == old(items)[ActiveSessionKey := codec.stringify(ActiveSessionToJson(session.value))]
      ensures !available ==> items == old(items)
    {
      if !available {
        return;
      }
      match session
      case None =>
        items := items - {ActiveSessionKey};
      case Some(a) =>
        items := items[ActiveSessionKey := codec.stringify(ActiveSessionToJson(a))];
    }

    /** `clearStorage`: drops the state and the active session, keeps the language. */
    method ClearStorage()
      modifies this
      ensures available == old(available)
      ensures available ==> items == old(items) - {StorageKey, ActiveSessionKey}
      ensures !available ==> items == old(items)
    {
      if !available {
        return;
      }
      items := items - {StorageKey, ActiveSessionKey};
    }
  }

  // ---------------------------------------------------------------- properties

  /** Saving a well-formed state and loading it back gives the same state. */
  lemma SaveThenLoad(items: map<string, string>, codec: JsonCodec, navigatorLanguage: string, s: AppState)
    requires Lawful(codec) && WellFormed(s)
    ensures LoadedState(true, items[StorageKey := codec.stringify(StateToJson(s))][LanguageKey := s.settings.lang],
                        codec, navigatorLanguage) == s
  {
    var saved := items[StorageKey := codec.stringify(StateToJson(s))][LanguageKey := s.settings.lang];
    StringifyNonEmpty(codec, StateToJson(s));
    assert saved[StorageKey] == codec.stringify(StateToJson(s));
    assert codec.parse(saved[StorageKey]) == Some(StateToJson(s));
    StateRoundTrip(s);
  }

  /** Saving a state whose language is neither "en" nor "nl" and loading it back loses the
      whole state: the stored JSON fails the schema, so the default state with the
      detected language comes back, history and streak included. */
  lemma ForeignLanguageLosesHistory(items: map<string, string>, codec: JsonCodec, navigatorLanguage: string, s: AppState)
    requires Lawful(codec) && !IsLang(s.settings.lang)
    ensures LoadedState(true, items[StorageKey := codec.stringify(StateToJson(s))][LanguageKey := s.settings.lang],
                        codec, navigatorLanguage) == DefaultWithLang(DetectInitialLang(navigatorLanguage))
  {
    var saved := items[StorageKey := codec.stringify(StateToJson(s))][LanguageKey := s.settings.lang];
    StringifyNonEmpty(codec, StateToJson(s));
    assert saved[StorageKey] == codec.stringify(StateToJson(s));
    assert codec.parse(saved[StorageKey]) == Some(StateToJson(s));
    ForeignLanguageRejected(s);
  }

  /** Unparseable stored text falls back to the default state, which passes validation;
      the language key still applies. */
  lemma GarbageLoadsDefault(items: map<string, string>, codec: JsonCodec, navigatorLanguage: string)
    requires Lawful(codec)
    requires StorageKey in items && items[StorageKey] != "" && codec.parse(items[StorageKey]).None?
    ensures LoadedState(true, items, codec, navigatorLanguage)
              == DefaultWithLang(if LanguageKey in items then items[LanguageKey] else "en")
  {
    DefaultStateValid();
  }

  /** Stored text that parses but fails the schema gives the default state with the
      detected language, ignoring the language key. */
  lemma InvalidLoadsDefault(items: map<string, string>, codec: JsonCodec, navigatorLanguage: string)
    requires Lawful(codec)
    requires StorageKey in items && codec.parse(items[StorageKey]).Some?
    requires ValidateState(codec.parse(items[StorageKey]).value).Err?
    ensures LoadedState(true, items, codec, navigatorLanguage) == DefaultWithLang(DetectInitialLang(navigatorLanguage))
  {
    assert items[StorageKey] != "";
  }

  /** A successful load keeps every validated field and takes the language from the
      language key when one is stored. */
  lemma AcceptedLoad(items: map<string, string>, codec: JsonCodec, navigatorLanguage: string)
    requires StorageKey in items && items[StorageKey] != ""
    requires codec.parse(items[StorageKey]).Some?
    requires ValidateState(codec.parse(items[StorageKey]).value).Ok?
    ensures var data := ValidateState(codec.parse(items[StorageKey]).value).value;
            var r := LoadedState(true, items, codec, navigatorLanguage);
            && r.sessions == data.sessions && r.streak == data.streak && r.badges == data.badges
            && r.settings.(lang := data.settings.lang) == data.settings
            && r.settings.lang == (if LanguageKey in items then items[LanguageKey] else data.settings.lang)
  {
  }

  /** Whatever the store holds, loading succeeds: apart from its language the result is
      the default state or the state the stored text validates to, and its language is a
      supported one unless it was copied from the language key. */
  lemma LoadNeverFails(available: bool, items: map<string, string>, codec: JsonCodec, navigatorLanguage: string)
    ensures var r := LoadedState(available, items, codec, navigatorLanguage);
            || r.(settings := r.settings.(lang := "en")) == DefaultState
            || (StorageKey in items && codec.parse(items[StorageKey]).Some?
                && var d := ValidateState(codec.parse(items[StorageKey]).value);
                   d.Ok? && r.(settings := r.settings.(lang := d.value.settings.lang)) == d.value)
    ensures var r := LoadedState(available, items, codec, navigatorLanguage);
            IsLang(r.settings.lang) || (LanguageKey in items && r.settings.lang == items[LanguageKey])
  {
    if available && StorageKey in items && items[StorageKey] != "" {
      var parsed := SafeJsonParse(codec, Some(items[StorageKey]), StateToJson(DefaultState));
      DefaultStateValid();
      if ValidateState(parsed).Ok? {
        ValidateStateAccepts(parsed);
      }
    }
  }

  /** After saving an in-progress session it loads back as its JSON; after saving none
      there is nothing to load. */
  lemma SaveActiveThenLoad(items: map<string, string>, codec: JsonCodec, a: ActiveSession)
    requires Lawful(codec)
    ensures LoadedActiveSession(true, items[ActiveSessionKey := codec.stringify(ActiveSessionToJson(a))], codec)
              == Some(ActiveSessionToJson(a))
    ensures LoadedActiveSession(true, items - {ActiveSessionKey}, codec) == None
  {
    StringifyNonEmpty(codec, ActiveSessionToJson(a));
    assert codec.parse(codec.stringify(ActiveSessionToJson(a))) == Some(ActiveSessionToJson(a));
  }

  /** After `clearStorage` the language key survives, and loading gives the default state
      with the detected language. */
  lemma ClearThenLoad(items: map<string, string>, codec: JsonCodec, navigatorLanguage: string)
    ensures var cleared := items - {StorageKey, ActiveSessionKey};
            && (LanguageKey in items ==> LanguageKey in cleared && cleared[LanguageKey] == items[LanguageKey])
            && LoadedState(true, cleared, codec, navigatorLanguage) == DefaultWithLang(DetectInitialLang(navigatorLanguage))
            && LoadedActiveSession(true, cleared, codec) == None
  {
    assert LanguageKey != StorageKey && LanguageKey != ActiveSessionKey;
  }

  /** Exported JSON imports back to the same state. */
  lemma ImportExportRoundTrip(codec: JsonCodec, s: AppState)
    requires Lawful(codec) && WellFormed(s)
    ensures ImportState(codec, codec.stringify(StateToJson(s))) == Ok(s)
  {
    assert codec.parse(codec.stringify(StateToJson(s))) == Some(StateToJson(s));
    StateRoundTrip(s);
  }

  /** `loadState` reads only the state key and the language key. */
  lemma LoadReadsTwoKeys(available: bool, items: map<string, string>, items2: map<string, string>, codec: JsonCodec, navigatorLanguage: string)
    requires (StorageKey in items <==> StorageKey in items2) && (StorageKey in items ==> items[StorageKey] == items2[StorageKey])
    requires (LanguageKey in items <==> LanguageKey in items2) && (LanguageKey in items ==> items[LanguageKey] == items2[LanguageKey])
    ensures LoadedState(available, items, codec, navigatorLanguage) == LoadedState(available, items2, codec, navigatorLanguage)
  {
  }
}
