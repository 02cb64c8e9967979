/**
 * What `str(past_steps)` shows, as the assistant's context prompt and the
 * replanning prompt print the history: every (step, result) tuple at its
 * place, in order, with its quoted step and its printed result.
 */
module Printed {
  import opened Strings
  import opened State

  /** The printed history shows every (step, result) tuple at its place after the opening bracket. */
  lemma {:induction false} ShowStepsShows(ps: seq<Step>, i: nat)
    requires i < |ps|
    ensures FoundAt(ShowSteps(ps), ShowStep(ps[i]), 1 + JoinOffset(", ", ShowStepList(ps), i))
  {
    ListTextShows(ShowSteps(ps), ShowStepList(ps), ShowStepList(ps)[i], i);
  }

  /** Tuples are printed in history order: the next one starts two characters after this one ends. */
  lemma {:induction false} ShowStepsInOrder(ps: seq<Step>, i: nat)
    requires i + 1 < |ps|
    ensures JoinOffset(", ", ShowStepList(ps), i + 1) == JoinOffset(", ", ShowStepList(ps), i) + |ShowStep(ps[i])| + 2
  {
    JoinNext(", ", ShowStepList(ps), i);
  }

  /** Neighbouring tuples are printed next to each other, with ", " between them. */
  lemma {:induction false} ShowStepsNeighbours(ps: seq<Step>, i: nat)
    requires i + 1 < |ps|
    ensures FoundAt(ShowSteps(ps), ShowStep(ps[i]) + ", " + ShowStep(ps[i + 1]), 1 + JoinOffset(", ", ShowStepList(ps), i))
  {
    ListTextNeighbours(ShowSteps(ps), ShowStepList(ps), i);
  }

  /** Inside the printed history, tuple `i` shows its quoted step, ", " and its printed result. */
  lemma {:induction false} ShowStepsShowPair(ps: seq<Step>, i: nat)
    requires i < |ps|
    ensures FoundAt(ShowSteps(ps), Quote(ps[i].0) + ", " + ShowContent(ps[i].1), 2 + JoinOffset(", ", ShowStepList(ps), i))
  {
    ListOfPairsShows(ShowSteps(ps), ShowStepList(ps), Quote(ps[i].0), ShowContent(ps[i].1), i);
  }
}
