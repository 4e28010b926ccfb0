/** The three difficulty presets of `src/logic/difficulty.ts`. */
module Difficulty {
  import opened Types

  datatype Op = Plus | Minus | Times | Divide

  datatype ArithmeticConfig = ArithmeticConfig(duration: int, min: int, max: int, operations: seq<Op>)
  datatype MemoryConfig = MemoryConfig(revealMs: int, startLength: int)
  datatype ReactionConfig = ReactionConfig(trials: int, minDelay: int, maxDelay: int)
  datatype OddOneOutConfig = OddOneOutConfig(duration: int)

  datatype DifficultyConfig = DifficultyConfig(
    arithmetic: ArithmeticConfig,
    memory: MemoryConfig,
    reaction: ReactionConfig,
    oddOneOut: OddOneOutConfig)

  const EasyPreset := DifficultyConfig(
    ArithmeticConfig(60, 1, 9, [Plus, Minus]),
    MemoryConfig(2000, 4),
    ReactionConfig(5, 800, 1600),
    OddOneOutConfig(90))

  const NormalPreset := DifficultyConfig(
    ArithmeticConfig(60, 1, 12, [Plus, Minus, Times]),
    MemoryConfig(1800, 5),
    ReactionConfig(5, 700, 1500),
    OddOneOutConfig(80))

  const HardPreset := DifficultyConfig(
    ArithmeticConfig(60, 2, 15, [Plus, Minus, Times, Divide]),
    MemoryConfig(1600, 6),
    ReactionConfig(6, 600, 1200),
    OddOneOutConfig(70))

  /** Every preset is usable by the games: a non-empty number range starting at 1 or
      above, at least one operator, a proper delay window and at least one trial. */
  predicate WellShaped(c: DifficultyConfig) {
    && 1 <= c.arithmetic.min <= c.arithmetic.max
    && |c.arithmetic.operations| > 0
    && c.arithmetic.duration > 0
    && c.memory.startLength > 0
    && c.memory.revealMs > 0
    && 0 < c.reaction.minDelay < c.reaction.maxDelay
    && c.reaction.trials > 0
    && c.oddOneOut.duration > 0
  }

  /** The preset of a level; total over the closed enumeration of levels. */
  function GetDifficultyConfig(level: DifficultyLevel): (c: DifficultyConfig)
    ensures WellShaped(c)
    ensures level == Hard <==> Divide in c.arithmetic.operations
  {
    match level
    case Easy => EasyPreset
    case Normal => NormalPreset
    case Hard => HardPreset
  }

  function OpSet(level: DifficultyLevel): set<Op> {
    set op | op in GetDifficultyConfig(level).arithmetic.operations
  }

  /** Harder levels only add operators, and only the hard level divides. */
  lemma OperationsNested()
    ensures OpSet(Easy) <= OpSet(Normal) <= OpSet(Hard)
    ensures Divide !in OpSet(Easy) && Divide !in OpSet(Normal) && Divide in OpSet(Hard)
  {
    assert OpSet(Easy) == {Plus, Minus};
    assert OpSet(Normal) == {Plus, Minus, Times};
  }

  /** From easy to hard the digit sequence starts longer, is shown for less time, and the
      odd-one-out round is shorter. */
  lemma HarderIsHarder()
    ensures GetDifficultyConfig(Easy).memory.startLength < GetDifficultyConfig(Normal).memory.startLength
              < GetDifficultyConfig(Hard).memory.startLength
    ensures GetDifficultyConfig(Easy).memory.revealMs > GetDifficultyConfig(Normal).memory.revealMs
              > GetDifficultyConfig(Hard).memory.revealMs
    ensures GetDifficultyConfig(Easy).oddOneOut.duration > GetDifficultyConfig(Normal).oddOneOut.duration
              > GetDifficultyConfig(Hard).oddOneOut.duration
  {
  }
}
