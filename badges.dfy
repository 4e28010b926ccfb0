/** The badge registry of `src/state/AppStateProvider.tsx` (`badgeDefinitions`) and
    `deriveBadges`, which merges newly earned badges into the earned list the way
    `Array.from(new Set([...existing, ...unlocked]))` does: first occurrences, in order. */
module Badges {
  import opened Wrappers
  import opened JsonModel
  import opened Types

  /** The registry keys, in declaration order. */
  const BadgeIds: seq<string> := ["streak-3", "streak-5", "streak-10", "reaction-quick", "arithmetic-ace", "memory-marvel"]

  /** `tests.find(t => t.kind === kind)`. */
  function FindKind(tests: seq<TestScore>, kind: TestKind): (r: Option<TestScore>)
    ensures r.None? <==> forall i :: 0 <= i < |tests| ==> tests[i].kind != kind
    ensures r.Some? ==> exists i :: 0 <= i < |tests| && tests[i] == r.value && r.value.kind == kind &&
                                    forall j :: 0 <= j < i ==> tests[j].kind != kind
  {
    if tests == [] then None
    else if tests[0].kind == kind then Some(tests[0])
    else
      var r := FindKind(tests[1..], kind);
      assert r.Some? ==> exists i :: 0 <= i < |tests| && tests[i] == r.value && r.value.kind == kind &&
                                     forall j :: 0 <= j < i ==> tests[j].kind != kind by {
        if r.Some? {
          var i :| 0 <= i < |tests[1..]| && tests[1..][i] == r.value && r.value.kind == kind &&
                   forall j :: 0 <= j < i ==> tests[1..][j].kind != kind;
          assert tests[i + 1] == r.value;
          assert forall j :: 0 <= j < i + 1 ==> tests[j].kind != kind by {
            forall j | 0 <= j < i + 1 ensures tests[j].kind != kind {
              if j > 0 { assert tests[j] == tests[1..][j - 1]; }
            }
          }
        }
      }
      r
  }

  /** The meta entry `key` of a test, when the test has meta holding that key. */
  function MetaValue(t: TestScore, key: string): Option<Json> {
    match t.meta
    case Some(m) => if key in m then Some(m[key]) else None
    case None => None
  }

  /** `reaction-quick`: the first reaction test's `meta.medianMs` is a number below 250. */
  predicate ReactionQuick(session: Session) {
    match FindKind(session.tests, Reaction)
    case None => false
    case Some(t) => match MetaValue(t, "medianMs") case Some(JNum(n)) => n < 250 case _ => false
  }

  /** `arithmetic-ace`: the first arithmetic test scored at least 500. */
  predicate ArithmeticAce(session: Session) {
    match FindKind(session.tests, Arithmetic)
    case None => false
    case Some(t) => t.score >= 500
  }

  /** `memory-marvel`: the first memory test scored at least 400 or reached length 10;
      a missing or null `meta.longest` counts as 0. */
  predicate MemoryMarvel(session: Session) {
    match FindKind(session.tests, Memory)
    case None => false
    case Some(t) =>
      t.score >= 400 || match MetaValue(t, "longest") case Some(JNum(n)) => n >= 10 case _ => false
  }

  /** Whether the badge with this id is earned by the session and the updated streak. */
  predicate Earns(id: string, session: Session, streak: StreakState) {
    if id == "streak-3" then streak.current >= 3
    else if id == "streak-5" then streak.current >= 5
    else if id == "streak-10" then streak.current >= 10
    else if id == "reaction-quick" then ReactionQuick(session)
    else if id == "arithmetic-ace" then ArithmeticAce(session)
    else if id == "memory-marvel" then MemoryMarvel(session)
    else false
  }

  /** The registry keys whose predicate holds, in registry order. */
  function UnlockedFrom(ids: seq<string>, session: Session, streak: StreakState): (r: seq<string>)
    ensures forall b :: b in r <==> b in ids && Earns(b, session, streak)
  {
    if ids == [] then []
    else
      var rest := UnlockedFrom(ids[1..], session, streak);
      assert forall b :: b in ids <==> b == ids[0] || b in ids[1..];
      if Earns(ids[0], session, streak) then [ids[0]] + rest else rest
  }

  function Unlocked(session: Session, streak: StreakState): seq<string> {
    UnlockedFrom(BadgeIds, session, streak)
  }

  predicate NoDuplicates(s: seq<string>) {
    forall i, j :: 0 <= i < j < |s| ==> s[i] != s[j]
  }

  /** The elements of `s` that are not in `seen`, each at its first occurrence. */
  function DedupeFrom(s: seq<string>, seen: set<string>): (r: seq<string>)
    ensures NoDuplicates(r)
    ensures forall b :: b in r <==> b in s && b !in seen
  {
    if s == [] then []
    else
      var rest := DedupeFrom(s[1..], seen + {s[0]});
      assert forall b :: b in s <==> b == s[0] || b in s[1..];
      if s[0] in seen then DedupeFrom(s[1..], seen) else [s[0]] + rest
  }

  /** `Array.from(new Set(s))`. */
  function Dedupe(s: seq<string>): seq<string> {
    DedupeFrom(s, {})
  }

  /** A duplicate-free prefix passes through unchanged; only the rest is filtered, against
      the prefix's elements as well. */
  lemma {:induction false} DedupeKeepsPrefix(e: seq<string>, u: seq<string>, seen: set<string>, seenAfter: set<string>)
    requires NoDuplicates(e)
    requires forall b :: b in e ==> b !in seen
    requires forall b :: b in seenAfter <==> b in seen || b in e
    ensures DedupeFrom(e + u, seen) == e + DedupeFrom(u, seenAfter)
  {
    if e == [] {
      assert e + u == u;
      assert seenAfter == seen;
    } else {
      var t := e + u;
      assert t[0] == e[0] && t[1..] == e[1..] + u;
      NoDuplicatesTail(e);
      DedupeUnseenHead(t, seen);
      ShiftSeen(e, seen, seenAfter);
      DedupeKeepsPrefix(e[1..], u, seen + {e[0]}, seenAfter);
      assert e == [e[0]] + e[1..];
    }
  }

  /** Moving the head of a duplicate-free prefix into the seen set. */
  lemma ShiftSeen(e: seq<string>, seen: set<string>, seenAfter: set<string>)
    requires e != [] && e[0] !in e[1..]
    requires forall b :: b in e ==> b !in seen
    requires forall b :: b in seenAfter <==> b in seen || b in e
    ensures forall b :: b in e[1..] ==> b !in seen + {e[0]}
    ensures forall b :: b in seenAfter <==> b in seen + {e[0]} || b in e[1..]
  {
    assert forall b :: b in e <==> b == e[0] || b in e[1..];
  }

  /** An unseen head is kept, and the rest is filtered against it as well. */
  lemma DedupeUnseenHead(s: seq<string>, seen: set<string>)
    requires s != [] && s[0] !in seen
    ensures DedupeFrom(s, seen) == [s[0]] + DedupeFrom(s[1..], seen + {s[0]})
  {
  }

  lemma NoDuplicatesTail(e: seq<string>)
    requires NoDuplicates(e) && e != []
    ensures e[0] !in e[1..] && NoDuplicates(e[1..])
  {
    forall i, j | 0 <= i < j < |e[1..]| ensures e[1..][i] != e[1..][j] {
      assert e[1..][i] == e[i + 1] && e[1..][j] == e[j + 1];
    }
  }

  /** Nothing is left when every element has been seen already. */
  lemma {:induction false} DedupeAllSeen(u: seq<string>, seen: set<string>)
    requires forall i :: 0 <= i < |u| ==> u[i] in seen
    ensures DedupeFrom(u, seen) == []
  {
    if u != [] {
      DedupeAllSeen(u[1..], seen);
    }
  }

  /** `deriveBadges`: every earned badge is kept, in its order, followed by the newly
      unlocked registry keys that were not yet earned, without duplicates. */
  function DeriveBadges(existing: seq<string>, session: Session, streak: StreakState): (r: seq<string>)
    ensures NoDuplicates(r)
    ensures forall b :: b in r <==> b in existing || (b in BadgeIds && Earns(b, session, streak))
    ensures NoDuplicates(existing) ==> |r| >= |existing| && r[..|existing|] == existing
  {
    var r := Dedupe(existing + Unlocked(session, streak));
    assert NoDuplicates(existing) ==> r[..|existing|] == existing by {
      if NoDuplicates(existing) {
        DedupeKeepsPrefix(existing, Unlocked(session, streak), {}, set b | b in existing);
      }
    }
    r
  }

  /** Earning is monotone: a badge once earned is never lost, and re-deriving on the same
      session and streak adds nothing more. */
  lemma DeriveBadgesIdempotent(existing: seq<string>, session: Session, streak: StreakState)
    ensures DeriveBadges(DeriveBadges(existing, session, streak), session, streak) == DeriveBadges(existing, session, streak)
  {
    var r := DeriveBadges(existing, session, streak);
    var u := Unlocked(session, streak);
    var seenAfter := set b | b in r;
    DedupeKeepsPrefix(r, u, {}, seenAfter);
    forall i | 0 <= i < |u|
      ensures u[i] in seenAfter
    {
      assert u[i] in u;
    }
    DedupeAllSeen(u, seenAfter);
    assert r + [] == r;
  }
}
