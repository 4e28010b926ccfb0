/** The reaction game of `src/tests/Reaction.tsx`: the `median` of the recorded times, the
    trailing window `slice(-trials)` and the `tap` state machine. Times are whole
    milliseconds here. */
module ReactionGame {
  import opened Wrappers
  import opened JsonModel
  import opened Types
  import opened Difficulty
  import Scoring
  import Sorting

  /** The middle of an ascending sequence: its middle value, or the rounded mean of the
      two middle values for an even count. */
  function Middle(sorted: seq<int>): (m: int)
    requires |sorted| > 0 && Sorting.Ascending(sorted)
    ensures sorted[0] <= m <= sorted[|sorted| - 1]
  {
    var mid := |sorted| / 2;
    if |sorted| % 2 == 0 then
      var lo, hi := sorted[mid - 1], sorted[mid];
      Scoring.RoundMonotone(lo as real, (lo + hi) as real / 2.0);
      Scoring.RoundMonotone((lo + hi) as real / 2.0, hi as real);
      Scoring.RoundOfInteger(lo);
      Scoring.RoundOfInteger(hi);
      Scoring.Round((lo + hi) as real / 2.0)
    else
      Scoring.RoundOfInteger(sorted[mid]);
      Scoring.Round(sorted[mid] as real)
  }

  /** `median`: 0 for no values, otherwise the middle of the sorted copy; it lies between
      the least and the greatest value. */
  function Median(values: seq<int>): (m: int)
    ensures |values| == 0 ==> m == 0
    ensures |values| > 0 ==> exists i :: 0 <= i < |values| && values[i] <= m
    ensures |values| > 0 ==> exists j :: 0 <= j < |values| && m <= values[j]
  {
    if |values| == 0 then 0
    else
      var sorted := Sorting.SortInts(values);
      assert sorted[0] in multiset(values) && sorted[|sorted| - 1] in multiset(values);
      Middle(sorted)
  }

  /** The two cases of the median over the ascending sort of the values. */
  lemma MedianOfSorted(values: seq<int>)
    requires |values| > 0
    ensures var s := Sorting.SortInts(values); var mid := |s| / 2;
            && (|s| % 2 == 1 ==> Median(values) == s[mid])
            && (|s| % 2 == 0 ==> Median(values) == Scoring.Round((s[mid - 1] + s[mid]) as real / 2.0))
  {
    var s := Sorting.SortInts(values);
    Scoring.RoundOfInteger(s[|s| / 2]);
  }

  /** The median depends only on which values were recorded, not on their order. */
  lemma MedianPermutationInvariant(a: seq<int>, b: seq<int>)
    requires multiset(a) == multiset(b)
    ensures Median(a) == Median(b)
  {
    Sorting.SameLength(a, b);
    Sorting.SortedUnique(Sorting.SortInts(a), Sorting.SortInts(b));
  }

  /** `xs.slice(-k)`: the last k elements (all of them when there are fewer, or when k is 0,
      since `slice(-0)` is `slice(0)`). */
  function Window(xs: seq<int>, k: nat): (r: seq<int>)
    ensures k > 0 ==> |r| == if |xs| < k then |xs| else k
    ensures k == 0 ==> r == xs
    ensures r == xs[|xs| - |r|..]
  {
    if k == 0 || |xs| <= k then xs else xs[|xs| - k..]
  }

  /** Appending a value and windowing keeps the new value last and at most k values. */
  lemma WindowAppend(xs: seq<int>, x: int, k: nat)
    requires k > 0
    ensures var r := Window(xs + [x], k); |r| <= k && |r| > 0 && r[|r| - 1] == x
  {
  }

  datatype Status = Idle | Waiting | Ready | Finished

  /** What the game reports when it ends. */
  datatype Completion = Completion(score: int, meta: Meta)

  function NumArray(xs: seq<int>): (r: seq<Json>)
    ensures |r| == |xs| && forall i :: 0 <= i < |xs| ==> r[i] == JNum(xs[i])
  {
    seq(|xs|, i requires 0 <= i < |xs| => JNum(xs[i]))
  }

  /** The report of the final trial: the score of the median, and the median itself with
      the windowed times as meta. */
  function Outcome(times: seq<int>): (c: Completion)
    ensures "medianMs" in c.meta && c.meta["medianMs"] == JNum(Median(times))
    ensures c.score == Scoring.ScoreReaction(c.meta["medianMs"].n as real)
    ensures "values" in c.meta && c.meta["values"] == JArr(NumArray(times))
  {
    var med := Median(times);
    Completion(Scoring.ScoreReaction(med as real), map["medianMs" := JNum(med), "values" := JArr(NumArray(times))])
  }

  class ReactionTest {
    const config: ReactionConfig
    var status: Status
    var trial: int
    var times: seq<int>

    ghost predicate Valid()
      reads this
    {
      config.trials > 0 && |times| <= config.trials
    }

    constructor (config: ReactionConfig)
      requires config.trials > 0
      ensures Valid()
      ensures this.config == config && status == Idle && trial == 0 && times == []
    {
      this.config := config;
      status := Idle;
      trial := 0;
      times := [];
    }

    /** The scheduled timeout firing: the signal turns green. */
    method DelayElapsed()
      requires Valid()
      modifies this
      ensures Valid()
      ensures old(status) == Waiting ==> status == Ready
      ensures old(status) != Waiting ==> status == old(status)
      ensures trial == old(trial) && times == old(times)
    {
      if status == Waiting {
        status := Ready;
      }
    }

    /** `tap`, with `elapsed` the milliseconds since the signal turned green. */
    method Tap(elapsed: int) returns (done: Option<Completion>)
      requires Valid()
      modifies this
      ensures Valid()
      ensures old(status) == Idle ==> status == Waiting && trial == 1 && times == old(times) && done.None?
      ensures old(status) == Waiting ==>
                && times == Window(old(times) + [config.maxDelay], config.trials)
                && status == Waiting && trial == old(trial) && done.None?
      ensures old(status) == Ready ==> times == Window(old(times) + [elapsed], config.trials)
      ensures old(status) == Ready && old(trial) >= config.trials ==>
                && status == Finished && trial == old(trial)
                && done == Some(Outcome(times))
      ensures old(status) == Ready && old(trial) < config.trials ==>
                status == Waiting && trial == old(trial) + 1 && done.None?
      ensures old(status) == Finished ==> status == Finished && trial == old(trial) && times == old(times) && done.None?
    {
      done := None;
      match status
      case Idle =>
        status := Waiting;
        trial := 1;
      case Waiting =>
        times := Window(times + [config.maxDelay], config.trials);
      case Ready =>
        var nextTimes := Window(times + [elapsed], config.trials);
        times := nextTimes;
        if trial >= config.trials {
          status := Finished;
          done := Some(Outcome(nextTimes));
        } else {
          trial := trial + 1;
          status := Waiting;
        }
      case Finished =>
    }
  }
}
