/** The session orchestrator of `src/state/AppStateProvider.tsx`: the two pieces of React
    state (`state` and `activeSession`) become the fields of a class whose methods are the
    provider's callbacks. Randomness (`pickTests`), `uuid` and today's date are parameters. */
module Orchestrator {
  import opened Wrappers
  import opened JsonModel
  import opened Types
  import opened Schema
  import IsoTime
  import Streaks
  import BrainAge
  import Scoring
  import Badges
  import Storage

  // ---------------------------------------------------------------- starting a session

  /** The shuffled copy of the four kinds: any permutation of them. */
  predicate IsShuffle(order: seq<TestKind>) {
    multiset(order) == multiset(AllKinds)
  }

  lemma {:induction false} ShuffleDistinct(order: seq<TestKind>, i: int, j: int)
    requires IsShuffle(order) && 0 <= i < j < |order|
    ensures order[i] != order[j]
  {
    var x := order[i];
    assert multiset(order) == multiset(order[..j]) + multiset(order[j..]) by {
      assert order == order[..j] + order[j..];
    }
    assert multiset(order[j..]) == multiset{order[j]} + multiset(order[j + 1..]) by {
      assert order[j..] == [order[j]] + order[j + 1..];
    }
    assert multiset(order[..j]) == multiset(order[..i]) + multiset{x} + multiset(order[i + 1..j]) by {
      assert order[..j] == order[..i] + [x] + order[i + 1..j];
    }
    assert multiset(AllKinds)[x] == 1 by {
      assert multiset(AllKinds) == multiset{Arithmetic, Memory, Reaction, OddOneOut};
    }
  }

  /** `pickTests()`: the first three kinds of the shuffle, pending with score 0. */
  function PickTests(order: seq<TestKind>): (tests: seq<ActiveSessionTest>)
    requires IsShuffle(order)
    ensures |tests| == 3
    ensures forall i :: 0 <= i < 3 ==> tests[i] == ActiveSessionTest(order[i], 0, None, Pending)
    ensures forall i, j :: 0 <= i < j < 3 ==> tests[i].kind != tests[j].kind
  {
    assert |order| == 4 by { assert |multiset(order)| == |multiset(AllKinds)|; }
    forall i, j | 0 <= i < j < 3
      ensures order[i] != order[j]
    {
      ShuffleDistinct(order, i, j);
    }
    seq(3, i requires 0 <= i < 3 => ActiveSessionTest(order[i], 0, None, Pending))
  }

  predicate StartsWith(s: string, prefix: string) {
    |prefix| <= |s| && s[..|prefix|] == prefix
  }

  // ---------------------------------------------------------------- advancing through tests

  /** `{ ...(old ?? {}), ...meta }` when meta is given, the old meta otherwise. */
  function MergeMeta(previous: Option<Meta>, given: Option<Meta>): (r: Option<Meta>)
    ensures given.None? ==> r == previous
    ensures given.Some? ==>
              (r.Some? && forall k :: k in r.value <==> k in given.value || (previous.Some? && k in previous.value))
    ensures given.Some? ==> forall k :: k in r.value ==>
              r.value[k] == if k in given.value then given.value[k] else previous.value[k]
  {
    match given
    case None => previous
    case Some(m) => Some(previous.GetOr(map[]) + m)
  }

  /** The test list with the test at `index` replaced, when `index` is a position. */
  function UpdateAt(tests: seq<ActiveSessionTest>, index: int, t: ActiveSessionTest): (r: seq<ActiveSessionTest>)
    ensures |r| == |tests|
    ensures forall i :: 0 <= i < |tests| && i != index ==> r[i] == tests[i]
    ensures 0 <= index < |tests| ==> r[index] == t
  {
    if 0 <= index < |tests| then tests[index := t] else tests
  }

  /** The session after `completeCurrentTest(score, meta)`, before the end check. */
  function CompleteAt(a: ActiveSession, score: int, meta: Option<Meta>): (r: ActiveSession)
    ensures r.id == a.id && r.dateISO == a.dateISO && |r.tests| == |a.tests|
    ensures r.currentIndex == a.currentIndex + 1
    ensures forall i :: 0 <= i < |a.tests| && i != a.currentIndex ==> r.tests[i] == a.tests[i]
    ensures 0 <= a.currentIndex < |a.tests| ==>
              var t := a.tests[a.currentIndex];
              r.tests[a.currentIndex] == ActiveSessionTest(t.kind, score, MergeMeta(t.meta, meta), Complete)
  {
    var tests :=
      if 0 <= a.currentIndex < |a.tests| then
        var t := a.tests[a.currentIndex];
        UpdateAt(a.tests, a.currentIndex, t.(status := Complete, score := score, meta := MergeMeta(t.meta, meta)))
      else a.tests;
    a.(tests := tests, currentIndex := a.currentIndex + 1)
  }

  /** The session after `skipCurrentTest()`, before the end check. */
  function SkipAt(a: ActiveSession): (r: ActiveSession)
    ensures r.currentIndex == a.currentIndex + 1
  {
    var tests :=
      if 0 <= a.currentIndex < |a.tests| then
        var t := a.tests[a.currentIndex];
        UpdateAt(a.tests, a.currentIndex, t.(status := Complete, score := 0))
      else a.tests;
    a.(tests := tests, currentIndex := a.currentIndex + 1)
  }

  /** Skipping is completing with score 0 and no new meta. */
  lemma SkipIsCompleteWithZero(a: ActiveSession)
    ensures SkipAt(a) == CompleteAt(a, 0, None)
  {
  }

  predicate Finished(a: ActiveSession) {
    a.currentIndex >= |a.tests|
  }

  // ---------------------------------------------------------------- finishing

  /** `tests.filter(t => t.status === 'complete')`. */
  function Completed(tests: seq<ActiveSessionTest>): (r: seq<ActiveSessionTest>)
    ensures |r| <= |tests|
    ensures forall t :: t in r <==> t in tests && t.status == Complete
  {
    if tests == [] then []
    else
      var rest := Completed(tests[1..]);
      assert forall t :: t in tests <==> t == tests[0] || t in tests[1..];
      if tests[0].status == Complete then [tests[0]] + rest else rest
  }

  /** The filter distributes over concatenation: complete tests keep their order and
      their number. */
  lemma {:induction false} CompletedConcat(a: seq<ActiveSessionTest>, b: seq<ActiveSessionTest>)
    ensures Completed(a + b) == Completed(a) + Completed(b)
  {
    if a == [] {
      assert a + b == b;
    } else {
      assert (a + b)[0] == a[0] && (a + b)[1..] == a[1..] + b;
      CompletedConcat(a[1..], b);
    }
  }

  /** One more test is kept, last, exactly when it is complete. */
  lemma CompletedAppend(tests: seq<ActiveSessionTest>, t: ActiveSessionTest)
    ensures Completed(tests + [t]) == Completed(tests) + (if t.status == Complete then [t] else [])
  {
    CompletedConcat(tests, [t]);
    assert [t][1..] == [];
  }

  /** The stored form of a test: the status is dropped. */
  function Strip(t: ActiveSessionTest): TestScore {
    TestScore(t.kind, t.score, t.meta)
  }

  function StripAll(tests: seq<ActiveSessionTest>): (r: seq<TestScore>)
    ensures |r| == |tests| && forall i :: 0 <= i < |tests| ==> r[i] == Strip(tests[i])
  {
    seq(|tests|, i requires 0 <= i < |tests| => Strip(tests[i]))
  }

  /** The score map built by the reduce: one entry per kind of test. */
  function ScoreMap(tests: seq<ActiveSessionTest>): (m: map<TestKind, int>)
    ensures forall k :: k in m <==> exists i :: 0 <= i < |tests| && tests[i].kind == k
  {
    if tests == [] then map[]
    else
      var init := tests[..|tests| - 1];
      var last := tests[|tests| - 1];
      assert forall i :: 0 <= i < |init| ==> init[i] == tests[i];
      ScoreMap(init)[last.kind := last.score]
  }

  /** In the score map the last test of a kind wins. */
  lemma {:induction false} ScoreMapLastWins(tests: seq<ActiveSessionTest>, i: int)
    requires 0 <= i < |tests|
    requires forall j :: i < j < |tests| ==> tests[j].kind != tests[i].kind
    ensures tests[i].kind in ScoreMap(tests) && ScoreMap(tests)[tests[i].kind] == tests[i].score
  {
    if i < |tests| - 1 {
      var init := tests[..|tests| - 1];
      assert init[i] == tests[i];
      ScoreMapLastWins(init, i);
    }
  }

  function SumScores(tests: seq<ActiveSessionTest>): int {
    if tests == [] then 0 else tests[0].score + SumScores(tests[1..])
  }

  /** `finishSession`'s new history entry; None when no test is complete (nothing happens). */
  function Finalize(a: ActiveSession): (r: Option<Session>)
    ensures r.None? <==> forall i :: 0 <= i < |a.tests| ==> a.tests[i].status != Complete
    ensures r.Some? ==>
              var done := Completed(a.tests);
              && r.value.id == a.id && r.value.dateISO == a.dateISO
              && r.value.tests == StripAll(done)
              && r.value.totalScore == SumScores(done)
              && r.value.brainAge == BrainAge.CalculateBrainAge(ScoreMap(done))
              && 18 <= r.value.brainAge <= 80
  {
    var done := Completed(a.tests);
    if done == [] then
      assert forall i :: 0 <= i < |a.tests| ==> a.tests[i] !in done;
      None
    else
      assert done[0] in done;
      assert |ScoreMap(done)| > 0 by { assert done[0].kind in ScoreMap(done); }
      Some(Session(a.id, a.dateISO, StripAll(done), SumScores(done), BrainAge.CalculateBrainAge(ScoreMap(done))))
  }

  /** Every session except those with `id`, in their order. */
  function WithoutId(sessions: seq<Session>, id: string): (r: seq<Session>)
    ensures forall s :: s in r <==> s in sessions && s.id != id
    ensures |r| <= |sessions|
  {
    if sessions == [] then []
    else
      var rest := WithoutId(sessions[1..], id);
      assert forall s :: s in sessions <==> s == sessions[0] || s in sessions[1..];
      if sessions[0].id == id then rest else [sessions[0]] + rest
  }

  /** The history update: drop the old entry with this id, append the new one. */
  function Upsert(sessions: seq<Session>, s: Session): (r: seq<Session>)
    ensures |r| > 0 && r[|r| - 1] == s
    ensures r[..|r| - 1] == WithoutId(sessions, s.id)
    ensures forall i :: 0 <= i < |r| - 1 ==> r[i].id != s.id
  {
    var rest := WithoutId(sessions, s.id);
    assert forall i :: 0 <= i < |rest| ==> rest[i] in rest;
    assert (rest + [s])[..|rest|] == rest;
    rest + [s]
  }

  lemma {:induction false} WithoutAbsentId(sessions: seq<Session>, id: string)
    requires forall i :: 0 <= i < |sessions| ==> sessions[i].id != id
    ensures WithoutId(sessions, id) == sessions
  {
    if sessions != [] {
      WithoutAbsentId(sessions[1..], id);
      assert sessions == [sessions[0]] + sessions[1..];
    }
  }

  /** Upserting the same session twice is the same as once. */
  lemma UpsertIdempotent(sessions: seq<Session>, s: Session)
    ensures Upsert(Upsert(sessions, s), s) == Upsert(sessions, s)
  {
    var rest := WithoutId(sessions, s.id);
    assert WithoutId(rest + [s], s.id) == rest by {
      WithoutIdAppend(rest, s, s.id);
      WithoutAbsentId(rest, s.id);
    }
  }

  /** A session whose id is not in the history is simply appended. */
  lemma UpsertNewId(sessions: seq<Session>, s: Session)
    requires forall i :: 0 <= i < |sessions| ==> sessions[i].id != s.id
    ensures Upsert(sessions, s) == sessions + [s]
  {
    WithoutAbsentId(sessions, s.id);
  }

  /** Upserting the same session twice is the same as once; a new id is simply appended. */
  lemma UpsertProperties(sessions: seq<Session>, s: Session)
    ensures Upsert(Upsert(sessions, s), s) == Upsert(sessions, s)
    ensures (forall i :: 0 <= i < |sessions| ==> sessions[i].id != s.id) ==> Upsert(sessions, s) == sessions + [s]
  {
    UpsertIdempotent(sessions, s);
    if forall i :: 0 <= i < |sessions| ==> sessions[i].id != s.id {
      UpsertNewId(sessions, s);
    }
  }

  /** The filter distributes over concatenation: what is kept keeps its order. */
  lemma {:induction false} WithoutIdConcat(a: seq<Session>, b: seq<Session>, id: string)
    ensures WithoutId(a + b, id) == WithoutId(a, id) + WithoutId(b, id)
  {
    if a == [] {
      assert a + b == b;
    } else {
      assert (a + b)[0] == a[0] && (a + b)[1..] == a[1..] + b;
      WithoutIdConcat(a[1..], b, id);
    }
  }

  /** One more session is dropped when it has the id and kept, last, otherwise. */
  lemma WithoutIdAppend(xs: seq<Session>, x: Session, id: string)
    ensures WithoutId(xs + [x], id) == WithoutId(xs, id) + (if x.id == id then [] else [x])
  {
    WithoutIdConcat(xs, [x], id);
    assert [x][1..] == [];
  }

  /** Replacing an entry: the sessions before and after it keep their order, and the new
      session comes last. */
  lemma UpsertReplaces(before: seq<Session>, previous: Session, after: seq<Session>, s: Session)
    requires previous.id == s.id
    requires forall i :: 0 <= i < |before| ==> before[i].id != s.id
    requires forall i :: 0 <= i < |after| ==> after[i].id != s.id
    ensures Upsert(before + [previous] + after, s) == before + after + [s]
  {
    var front := before + [previous];
    assert WithoutId(front, s.id) == before by {
      WithoutIdAppend(before, previous, s.id);
      WithoutAbsentId(before, s.id);
    }
    assert WithoutId(after, s.id) == after by {
      WithoutAbsentId(after, s.id);
    }
    WithoutIdConcat(front, after, s.id);
  }

  /** The state update of `finishSession` for a finished history entry. */
  function Commit(prev: AppState, s: Session): (next: AppState)
    requires IsoTime.Parse(s.dateISO).Some?
    ensures next.settings == prev.settings
    ensures next.sessions == Upsert(prev.sessions, s)
    ensures next.streak == Streaks.UpdateStreak(prev.streak, s.dateISO)
    ensures next.badges == Badges.DeriveBadges(prev.badges, s, next.streak)
  {
    var streak := Streaks.UpdateStreak(prev.streak, s.dateISO);
    prev.(sessions := Upsert(prev.sessions, s), streak := streak, badges := Badges.DeriveBadges(prev.badges, s, streak))
  }

  /** What `finishSession(a)` does to the persisted state. */
  function FinishInto(prev: AppState, a: ActiveSession): AppState
    requires IsoTime.Parse(a.dateISO).Some?
  {
    match Finalize(a)
    case None => prev
    case Some(s) => Commit(prev, s)
  }

  // ---------------------------------------------------------------- settings

  /** A `Partial<AppSettings>`: None leaves the setting as it is. */
  datatype SettingsPatch = SettingsPatch(
    lang: Option<string>,
    dark: Option<bool>,
    sound: Option<bool>,
    vibration: Option<bool>,
    difficulty: Option<DifficultyLevel>,
    fontScale: Option<FontScale>,
    theme: Option<Theme>)

  const EmptyPatch: SettingsPatch := SettingsPatch(None, None, None, None, None, None, None)

  /** `{ ...prev.settings, ...patch }`. */
  function ApplyPatch(s: Settings, p: SettingsPatch): Settings {
    Settings(
      p.lang.GetOr(s.lang), p.dark.GetOr(s.dark), p.sound.GetOr(s.sound), p.vibration.GetOr(s.vibration),
      p.difficulty.GetOr(s.difficulty), p.fontScale.GetOr(s.fontScale), p.theme.GetOr(s.theme))
  }

  /** An empty patch changes nothing, and applying a patch twice is applying it once. */
  lemma ApplyPatchProperties(s: Settings, p: SettingsPatch)
    ensures ApplyPatch(s, EmptyPatch) == s
    ensures ApplyPatch(ApplyPatch(s, p), p) == ApplyPatch(s, p)
    ensures p.lang.Some? ==> ApplyPatch(s, p).lang == p.lang.value
    ensures p.lang.None? ==> ApplyPatch(s, p).lang == s.lang
  {
  }

  /** The store's items after the two save effects of the provider: the state and its
      language under their keys, then the in-progress session written or removed. */
  function PersistedItems(items: map<string, string>, codec: JsonCodec, s: AppState, active: Option<ActiveSession>): (r: map<string, string>)
    ensures Storage.StorageKey in r && r[Storage.StorageKey] == codec.stringify(StateToJson(s))
    ensures Storage.LanguageKey in r && r[Storage.LanguageKey] == s.settings.lang
    ensures active.None? ==> Storage.ActiveSessionKey !in r
    ensures active.Some? ==> Storage.ActiveSessionKey in r && r[Storage.ActiveSessionKey] == codec.stringify(ActiveSessionToJson(active.value))
    ensures forall k :: k != Storage.StorageKey && k != Storage.LanguageKey && k != Storage.ActiveSessionKey ==>
              (k in r <==> k in items) && (k in items ==> r[k] == items[k])
  {
    var withState := items[Storage.StorageKey := codec.stringify(StateToJson(s))][Storage.LanguageKey := s.settings.lang];
    match active
    case None => withState - {Storage.ActiveSessionKey}
    case Some(a) => withState[Storage.ActiveSessionKey := codec.stringify(ActiveSessionToJson(a))]
  }

  // ---------------------------------------------------------------- the provider

  class AppStateProvider {
    var state: AppState
    var activeSession: Option<ActiveSession>

    /** An in-progress session carries a valid instant: finishing it would otherwise throw
        inside `updateStreak`. */
    ghost predicate Valid()
      reads this
    {
      activeSession.Some? ==> IsoTime.Parse(activeSession.value.dateISO).Some?
    }

    constructor (state: AppState, activeSession: Option<ActiveSession>)
      requires activeSession.Some? ==> IsoTime.Parse(activeSession.value.dateISO).Some?
      ensures Valid()
      ensures this.state == state && this.activeSession == activeSession
    {
      this.state := state;
      this.activeSession := activeSession;
    }

    /** `startDailySession`: resume today's session, or start a new one dated at the start
        of `today` with three shuffled tests. */
    method StartDailySession(today: string, order: seq<TestKind>, id: string) returns (session: ActiveSession)
      requires Valid() && IsoTime.ValidDay(today) && IsShuffle(order)
      modifies this
      ensures Valid()
      ensures state == old(state)
      ensures old(activeSession).Some? && StartsWith(old(activeSession).value.dateISO, today) ==>
                session == old(activeSession).value && activeSession == old(activeSession)
      ensures !(old(activeSession).Some? && StartsWith(old(activeSession).value.dateISO, today)) ==>
                session == ActiveSession(id, today + IsoTime.Midnight, PickTests(order), 0) &&
                activeSession == Some(session)
    {
      if activeSession.Some? && StartsWith(activeSession.value.dateISO, today) {
        return activeSession.value;
      }
      session := ActiveSession(id, today + IsoTime.Midnight, PickTests(order), 0);
      IsoTime.DayStartParses(today);
      activeSession := Some(session);
    }

    /** `finishSession(a)`: with no complete test nothing happens; otherwise the history,
        streak and badges are updated and the active session is cleared. */
    method FinishSession(a: ActiveSession)
      requires IsoTime.Parse(a.dateISO).Some?
      modifies this
      ensures state == FinishInto(old(state), a)
      ensures Finalize(a).None? ==> activeSession == old(activeSession)
      ensures Finalize(a).Some? ==> activeSession == None
    {
      var finished := Finalize(a);
      if finished.None? {
        return;
      }
      state := Commit(state, finished.value);
      activeSession := None;
    }

    /** After a test: keep the session, or finish it when the index passed the last test. */
    method Advance(next: ActiveSession)
      requires IsoTime.Parse(next.dateISO).Some?
      modifies this
      ensures Valid()
      ensures Finished(next) ==> activeSession == None && state == FinishInto(old(state), next)
      ensures !Finished(next) ==> activeSession == Some(next) && state == old(state)
    {
      if Finished(next) {
        FinishSession(next);
        activeSession := None;
      } else {
        activeSession := Some(next);
      }
    }

    /** `completeCurrentTest(score, meta)`. */
    method CompleteCurrentTest(score: int, meta: Option<Meta>)
      requires Valid()
      modifies this
      ensures Valid()
      ensures old(activeSession).None? ==> activeSession == None && state == old(state)
      ensures old(activeSession).Some? ==>
                var next := CompleteAt(old(activeSession).value, score, meta);
                && (Finished(next) ==> activeSession == None && state == FinishInto(old(state), next))
                && (!Finished(next) ==> activeSession == Some(next) && state == old(state))
    {
      if activeSession.None? {
        return;
      }
      var next := CompleteAt(activeSession.value, score, meta);
      Advance(next);
    }

    /** `skipCurrentTest()`. */
    method SkipCurrentTest()
      requires Valid()
      modifies this
      ensures Valid()
      ensures old(activeSession).None? ==> activeSession == None && state == old(state)
      ensures old(activeSession).Some? ==>
                var next := SkipAt(old(activeSession).value);
                && (Finished(next) ==> activeSession == None && state == FinishInto(old(state), next))
                && (!Finished(next) ==> activeSession == Some(next) && state == old(state))
    {
      if activeSession.None? {
        return;
      }
      var next := SkipAt(activeSession.value);
      Advance(next);
    }

    method CancelSession()
      modifies this
      ensures Valid()
      ensures activeSession == None && state == old(state)
    {
      activeSession := None;
    }

    method UpdateSettings(patch: SettingsPatch)
      requires patch.lang.Some? ==> IsLang(patch.lang.value)
      modifies this
      ensures state == old(state).(settings := ApplyPatch(old(state).settings, patch))
      ensures activeSession == old(activeSession)
      ensures IsLang(old(state).settings.lang) ==> WellFormed(state)
    {
      state := state.(settings := ApplyPatch(state.settings, patch));
    }

    method SetLanguage(lang: string)
      requires IsLang(lang)
      modifies this
      ensures state == old(state).(settings := old(state).settings.(lang := lang))
      ensures activeSession == old(activeSession)
      ensures WellFormed(state)
    {
      state := state.(settings := state.settings.(lang := lang));
    }

    /** `resetAll`: the default state, keeping the language, and no session in progress. */
    method ResetAll()
      modifies this
      ensures Valid()
      ensures state == Storage.DefaultWithLang(old(state).settings.lang)
      ensures activeSession == None
    {
      state := Storage.DefaultWithLang(state.settings.lang);
      activeSession := None;
    }

    /** `importFromFile` on the file's text: the state is replaced only when the import
        validates. */
    method ImportFromFile(codec: JsonCodec, text: string) returns (ok: bool)
      modifies this
      ensures ok <==> Storage.ImportState(codec, text).Ok?
      ensures ok ==> state == Storage.ImportState(codec, text).value
      ensures !ok ==> state == old(state)
      ensures activeSession == old(activeSession)
    {
      var result := Storage.ImportState(codec, text);
      ok := result.Ok?;
      if ok {
        state := result.value;
      }
    }

    /** The two persistence effects: `saveState(state)` then `saveActiveSession(activeSession)`.
        Reloading afterwards gives back what was saved. */
    method Persist(store: Storage.Store)
      modifies store
      ensures store.available == old(store.available)
      ensures store.available ==> store.items == PersistedItems(old(store.items), store.codec, state, activeSession)
      ensures !store.available ==> store.items == old(store.items)
      ensures store.available && Lawful(store.codec) && WellFormed(state) ==>
                Storage.LoadedState(true, store.items, store.codec, store.navigatorLanguage) == state
      ensures store.available && Lawful(store.codec) ==>
                Storage.LoadedActiveSession(true, store.items, store.codec)
                  == match activeSession case None => None case Some(a) => Some(ActiveSessionToJson(a))
    {
      ghost var before := store.items;
      store.SaveState(state);
      ghost var saved := store.items;
      store.SaveActiveSession(activeSession);
      if store.available && Lawful(store.codec) {
        assert Storage.StorageKey != Storage.ActiveSessionKey && Storage.LanguageKey != Storage.ActiveSessionKey;
        Storage.LoadReadsTwoKeys(true, saved, store.items, store.codec, store.navigatorLanguage);
        if WellFormed(state) {
          Storage.SaveThenLoad(before, store.codec, store.navigatorLanguage, state);
        }
        match activeSession
        case None => Storage.SaveActiveThenLoad(saved, store.codec, ActiveSession("", "", [], 0));
        case Some(a) => Storage.SaveActiveThenLoad(saved, store.codec, a);
      }
    }
  }

  /** `getFeedback(kind, score)`. */
  function GetFeedback(kind: TestKind, score: int): (f: Scoring.Feedback)
    ensures f == Scoring.Positive <==> score as real >= Scoring.Baseline(kind) + Scoring.Spread(kind)
    ensures f == Scoring.Negative <==> score as real < Scoring.Baseline(kind) - Scoring.Spread(kind) * 0.4
  {
    Scoring.ScoreFeedback(score as real, kind)
  }

  // ---------------------------------------------------------------- a whole day

  /** Three complete tests in a row are all kept, in order, and sum to their scores. */
  lemma ThreeCompleted(t: seq<ActiveSessionTest>)
    requires |t| == 3 && forall i :: 0 <= i < 3 ==> t[i].status == Complete
    ensures Completed(t) == t
    ensures SumScores(t) == t[0].score + t[1].score + t[2].score
  {
    assert t[1..][1..] == t[2..];
    assert t[2..][1..] == [];
    assert SumScores(t[2..]) == t[2].score;
    assert SumScores(t[1..]) == t[1].score + t[2].score;
  }

  /** A fresh session completed three times in a row is finished, and its history entry
      holds the three tests in the shuffled order with their total. */
  lemma ThreeCompletionsFinish(id: string, today: string, order: seq<TestKind>, s1: int, s2: int, s3: int)
    requires IsShuffle(order)
    ensures var a0 := ActiveSession(id, today + IsoTime.Midnight, PickTests(order), 0);
            var a3 := CompleteAt(CompleteAt(CompleteAt(a0, s1, None), s2, None), s3, None);
            && !Finished(CompleteAt(a0, s1, None)) && !Finished(CompleteAt(CompleteAt(a0, s1, None), s2, None))
            && Finished(a3)
            && Finalize(a3).Some?
            && Finalize(a3).value.tests == [TestScore(order[0], s1, None), TestScore(order[1], s2, None), TestScore(order[2], s3, None)]
            && Finalize(a3).value.totalScore == s1 + s2 + s3
  {
    var a0 := ActiveSession(id, today + IsoTime.Midnight, PickTests(order), 0);
    var a1 := CompleteAt(a0, s1, None);
    var a2 := CompleteAt(a1, s2, None);
    var a3 := CompleteAt(a2, s3, None);
    var t := a3.tests;
    assert t[0] == ActiveSessionTest(order[0], s1, None, Complete);
    assert t[1] == ActiveSessionTest(order[1], s2, None, Complete);
    assert t[2] == ActiveSessionTest(order[2], s3, None, Complete);
    ThreeCompleted(t);
    assert StripAll(t) == [TestScore(order[0], s1, None), TestScore(order[1], s2, None), TestScore(order[2], s3, None)];
  }
}
