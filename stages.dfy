/**
 * The fixed fulfilment pipeline of an order and the per-stage classification the
 * progress tracker renders (components/ProgressTracker.tsx).
 */
module Stages {

  /** One entry of the pipeline; the icon is presentation and is not modelled. */
  datatype Stage = Stage(title: string, subTitle: string)

  /** The eight stages, in pipeline order (ORDER_STAGES). */
  const OrderStages: seq<Stage> := [
    Stage("Verification", "ORDER CHECK"),
    Stage("Processing", "SYSTEM ENTRY"),
    Stage("Inventory", "STOCK CHECK"),
    Stage("Agent Assign", "STAFFING"),
    Stage("Procurement", "PURCHASING"),
    Stage("Setup", "CONFIGURATION"),
    Stage("Done", "QUALITY CHECK"),
    Stage("Activated", "SERVICE LIVE")
  ]

  /** How the tracker draws one stage. */
  datatype StageState = Completed | Active | Upcoming

  predicate IsCompleted(idx: int, currentStage: int) { idx < currentStage }

  predicate IsActive(idx: int, currentStage: int) { idx == currentStage }

  /** The style chosen for stage `idx`: upcoming is "neither completed nor active". */
  function StateOf(idx: int, currentStage: int): StageState
  {
    if IsCompleted(idx, currentStage) then Completed
    else if IsActive(idx, currentStage) then Active
    else Upcoming
  }

  /** The classification of the first `n` stages, built index by index. */
  function Marks(n: nat, currentStage: int): (r: seq<StageState>)
    ensures |r| == n
    ensures forall i :: 0 <= i < n ==>
      (r[i] == Completed <==> i < currentStage) &&
      (r[i] == Active <==> i == currentStage) &&
      (r[i] == Upcoming <==> i > currentStage)
  {
    if n == 0 then [] else Marks(n - 1, currentStage) + [StateOf(n - 1, currentStage)]
  }

  /** The classification of every stage of the pipeline (ORDER_STAGES.map). */
  function Classify(currentStage: int): seq<StageState>
  {
    Marks(|OrderStages|, currentStage)
  }

  /** Number of stages drawn in state `st`. */
  function CountState(s: seq<StageState>, st: StageState): nat
  {
    if s == [] then 0
    else CountState(s[..|s| - 1], st) + (if s[|s| - 1] == st then 1 else 0)
  }

  /** The pipeline has eight entries, so its last valid index is 7. */
  lemma PipelineLength()
    ensures |OrderStages| == 8 && |OrderStages| - 1 == 7
  {
  }

  /** A stage is never drawn both completed and active. */
  lemma CompletedExcludesActive(idx: int, currentStage: int)
    ensures !(IsCompleted(idx, currentStage) && IsActive(idx, currentStage))
    ensures StateOf(idx, currentStage) == Upcoming <==> idx > currentStage
  {
  }

  /** Among the first `n` stages, `currentStage` (clamped to 0..n) are completed, and one is active when it is in range. */
  lemma {:induction false} MarksCounts(n: nat, currentStage: int)
    ensures CountState(Marks(n, currentStage), Completed) ==
      (if currentStage <= 0 then 0 else if currentStage >= n then n else currentStage)
    ensures CountState(Marks(n, currentStage), Active) ==
      (if 0 <= currentStage < n then 1 else 0)
  {
    if n > 0 {
      var m := Marks(n, currentStage);
      assert m[..n - 1] == Marks(n - 1, currentStage);
      MarksCounts(n - 1, currentStage);
    }
  }

  /** For a stage in 0..7: exactly currentStage stages are completed, exactly one is active, at index currentStage, and every later stage is upcoming. */
  lemma TrackerClassification(currentStage: int)
    requires 0 <= currentStage <= 7
    ensures |Classify(currentStage)| == 8
    ensures CountState(Classify(currentStage), Completed) == currentStage
    ensures CountState(Classify(currentStage), Active) == 1
    ensures Classify(currentStage)[currentStage] == Active
    ensures forall i :: currentStage < i < 8 ==> Classify(currentStage)[i] == Upcoming
  {
    MarksCounts(|OrderStages|, currentStage);
  }
}
