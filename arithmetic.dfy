/** The arithmetic game of `src/tests/Arithmetic.tsx`: the question generator of
    `useQuestion`, with its `Math.random()` draws as parameters, and the counters that
    `handleSubmit` and `finish` work on. */
module ArithmeticGame {
  import opened Wrappers
  import opened JsonModel
  import opened Types
  import opened Difficulty
  import Scoring
  import opened NumberText

  datatype Question = Question(a: int, b: int, op: Op, answer: int)

  /** The four `Math.random()` results one question consumes, in call order; `result` is
      only used for division. */
  datatype Draws = Draws(op: real, a: real, b: real, result: real)

  predicate DrawsInRange(d: Draws) {
    0.0 <= d.op < 1.0 && 0.0 <= d.a < 1.0 && 0.0 <= d.b < 1.0 && 0.0 <= d.result < 1.0
  }

  /** `Math.floor(r * n)` for a draw `r` in [0, 1) is an index below `n`. */
  lemma ScaledDrawBelow(r: real, n: int)
    requires 0.0 <= r < 1.0 && n >= 1
    ensures 0 <= (r * n as real).Floor < n
  {
    assert r * n as real < n as real by {
      assert (1.0 - r) * n as real > 0.0;
    }
  }

  /** `Math.floor(r * (max - min + 1)) + min`: a whole number in [min, max]. */
  function DrawBetween(r: real, min: int, max: int): (x: int)
    requires 0.0 <= r < 1.0 && min <= max
    ensures min <= x <= max
  {
    ScaledDrawBelow(r, max - min + 1);
    (r * (max - min + 1) as real).Floor + min
  }

  /** The operator's value on two whole numbers; division only when it is exact. */
  function Eval(op: Op, a: int, b: int): Option<int> {
    match op
    case Plus => Some(a + b)
    case Minus => Some(a - b)
    case Times => Some(a * b)
    case Divide => if b != 0 && a % b == 0 then Some(a / b) else None
  }

  /** The generated question for the configured operators and range. */
  function GenerateQuestion(config: ArithmeticConfig, d: Draws): (q: Question)
    requires |config.operations| > 0 && config.min <= config.max
    requires DrawsInRange(d)
    ensures q.op in config.operations
    ensures q.op != Divide ==> config.min <= q.b <= config.max && config.min <= q.a <= config.max
    ensures q.op == Minus ==> q.a >= q.b && q.answer == q.a - q.b >= 0
    ensures q.op == Plus ==> q.answer == q.a + q.b
    ensures q.op == Times ==> q.answer == q.a * q.b
    ensures q.op == Divide ==>
              q.b >= 1 && q.a == q.answer * q.b && config.min <= q.answer <= config.max
  {
    var n := |config.operations|;
    ScaledDrawBelow(d.op, n);
    var op := config.operations[(d.op * n as real).Floor];
    var a := DrawBetween(d.a, config.min, config.max);
    var b := DrawBetween(d.b, config.min, config.max);
    var (a, b) := if op == Minus && b > a then (b, a) else (a, b);
    if op == Divide then
      var b := Scoring.Max(1, b);
      var result := DrawBetween(d.result, config.min, config.max);
      Question(result * b, b, op, result)
    else if op == Times then Question(a, b, op, a * b)
    else if op == Plus then Question(a, b, op, a + b)
    else Question(a, b, op, a - b)
  }

  /** Every generated question has exactly its answer: the operator applied to the two
      operands gives it, division included. */
  lemma GeneratedQuestionIsExact(config: ArithmeticConfig, d: Draws)
    requires |config.operations| > 0 && config.min <= config.max
    requires DrawsInRange(d)
    ensures var q := GenerateQuestion(config, d); Eval(q.op, q.a, q.b) == Some(q.answer)
  {
    var q := GenerateQuestion(config, d);
    if q.op == Divide {
      assert q.a % q.b == 0 && q.a / q.b == q.answer by {
        DivisionOfMultiple(q.answer, q.b);
      }
    }
  }

  lemma DivisionOfMultiple(x: int, b: int)
    requires b >= 1
    ensures (x * b) % b == 0 && (x * b) / b == x
  {
    var q, r := (x * b) / b, (x * b) % b;
    assert x * b == q * b + r && 0 <= r < b;
    var k := x - q;
    assert k * b == r;
    assert k * b == b + (k - 1) * b && k * b == -b - (-k - 1) * b;
    assert k >= 1 ==> (k - 1) * b >= 0;
    assert k <= -1 ==> (-k - 1) * b >= 0;
  }

  /** The game's state while it runs. */
  class ArithmeticTest {
    const config: ArithmeticConfig
    var started: bool
    var question: Option<Question>
    var correct: int
    var mistakes: int

    ghost predicate Valid()
      reads this
    {
      correct >= 0 && mistakes >= 0 && |config.operations| > 0 && config.min <= config.max
    }

    constructor (config: ArithmeticConfig)
      requires |config.operations| > 0 && config.min <= config.max
      ensures Valid()
      ensures this.config == config && !started && question == None && correct == 0 && mistakes == 0
    {
      this.config := config;
      started := false;
      question := None;
      correct := 0;
      mistakes := 0;
    }

    /** `begin`: the first question, once. */
    method Begin(d: Draws)
      requires Valid() && DrawsInRange(d)
      modifies this
      ensures Valid()
      ensures old(started) ==> question == old(question) && started
      ensures !old(started) ==> question == Some(GenerateQuestion(config, d)) && started
      ensures correct == old(correct) && mistakes == old(mistakes)
    {
      if started {
        return;
      }
      question := Some(GenerateQuestion(config, d));
      started := true;
    }

    /** `handleSubmit` on the text in the answer box: a numeric answer counts as correct or
        as a mistake, never both, and brings a new question; no question or a text that is
        not a number changes nothing. Blank text is the number 0. */
    method HandleSubmit(input: string, d: Draws)
      requires Valid() && DrawsInRange(d)
      modifies this
      ensures Valid()
      ensures started == old(started)
      ensures old(question).None? || NumberOfText(input).None? ==>
                question == old(question) && correct == old(correct) && mistakes == old(mistakes)
      ensures old(question).Some? && NumberOfText(input).Some? ==>
                var answer := NumberOfText(input).value;
                && question == Some(GenerateQuestion(config, d))
                && (answer == old(question).value.answer as real ==> correct == old(correct) + 1 && mistakes == old(mistakes))
                && (answer != old(question).value.answer as real ==> mistakes == old(mistakes) + 1 && correct == old(correct))
      ensures old(question).Some? && Blank(input) ==>
                correct + mistakes == old(correct) + old(mistakes) + 1
                && (correct == old(correct) + 1 <==> old(question).value.answer == 0)
    {
      var answer := NumberOfText(input);
      if question.None? || answer.None? {
        return;
      }
      if answer.value == question.value.answer as real {
        correct := correct + 1;
      } else {
        mistakes := mistakes + 1;
      }
      question := Some(GenerateQuestion(config, d));
    }

    /** `finish`: the score and the meta reported to the session. */
    method Finish(timeLeft: int) returns (score: int, meta: Meta)
      requires Valid()
      ensures score == Scoring.ScoreArithmetic(correct, mistakes, timeLeft as real)
      ensures score >= 10 * correct - 5 * mistakes
      ensures meta == map["correct" := JNum(correct), "mistakes" := JNum(mistakes),
                          "duration" := JNum(config.duration), "timeLeft" := JNum(timeLeft)]
    {
      score := Scoring.ScoreArithmetic(correct, mistakes, timeLeft as real);
      meta := map["correct" := JNum(correct), "mistakes" := JNum(mistakes),
                  "duration" := JNum(config.duration), "timeLeft" := JNum(timeLeft)];
    }
  }
}
