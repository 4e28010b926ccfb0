/** `src/logic/brainAge.ts`: the name the orchestrator uses for the brain-age estimate. */
module BrainAge {
  import opened Types
  import Scoring

  function CalculateBrainAge(scores: map<TestKind, int>): (age: int)
    requires |scores| > 0
    ensures age == Scoring.EstimateBrainAge(scores)
    ensures 18 <= age <= 80
  {
    Scoring.EstimateBrainAge(scores)
  }
}
