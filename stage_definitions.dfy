/**
 * The seven stages of the cinematic intro, their durations in seconds, the
 * total running time and each stage's start time (a prefix sum of the
 * durations, taken over a JavaScript `slice(0, i)`).
 */
module StageDefinitions {

  /** A stage: its number, the key of its camera path, its title and its length in seconds. */
  datatype StageDefinition = StageDefinition(id: int, key: string, title: string, duration: nat)

  const Stages: seq<StageDefinition> := [
    StageDefinition(1, "satelliteDesign", "Satellite Design", 8),
    StageDefinition(2, "bulkLaunches", "Bulk Launches", 10),
    StageDefinition(3, "orbitalPhasing", "Orbital Phasing", 8),
    StageDefinition(4, "deployment", "Deployment", 10),
    StageDefinition(5, "linking", "Linking", 8),
    StageDefinition(6, "rotorAcceleration", "Rotor Acceleration", 10),
    StageDefinition(7, "bootstrapRedundancy", "Bootstrap Redundancy", 10)
  ]

  /** `reduce((sum, s) => sum + s.duration, 0)`, folding from the left. */
  function SumDurations(stages: seq<StageDefinition>): nat
  {
    if stages == [] then 0
    else SumDurations(stages[..|stages| - 1]) + stages[|stages| - 1].duration
  }

  const TotalDuration: nat := SumDurations(Stages)

  /**
   * Where `slice(0, end)` stops on a list of length `len`: a negative end
   * counts back from the length (and stops at 0), an end past the length
   * stops at the length.
   */
  function SliceEnd(len: nat, end: int): (e: nat)
    ensures e <= len
    ensures 0 <= end <= len ==> e == end
    ensures end > len ==> e == len
    ensures -(len as int) <= end < 0 ==> e == len + end
  {
    if end < 0 then (if len + end < 0 then 0 else len + end)
    else if end > len then len
    else end
  }

  /**
   * The second at which stage `stageIndex` (0-based) starts: the total length
   * of the stages before it. An index past the end gives the whole running
   * time, and one below minus the stage count gives 0.
   */
  function GetStageStartTime(stageIndex: int): (t: nat)
    ensures 0 <= stageIndex <= |Stages| ==> t == SumDurations(Stages[..stageIndex])
    ensures stageIndex >= |Stages| ==> t == TotalDuration
    ensures stageIndex <= -|Stages| ==> t == 0
  {
    assert Stages[..|Stages|] == Stages;
    SumDurations(Stages[..SliceEnd(|Stages|, stageIndex)])
  }

  /** The stage table: seven stages numbered 1 to 7 with durations 8, 10, 8, 10, 8, 10, 10. */
  lemma StageTable()
    ensures |Stages| == 7
    ensures forall i :: 0 <= i < |Stages| ==> Stages[i].id == i + 1
    ensures seq(7, i requires 0 <= i < 7 => Stages[i].duration) == [8, 10, 8, 10, 8, 10, 10]
  {
  }

  /** The start second of each stage, and of the end of the intro. */
  lemma StartTimeTable()
    ensures forall i :: 0 <= i <= |Stages| ==> GetStageStartTime(i) == [0, 8, 18, 26, 36, 44, 54, 64][i]
  {
    StartTimeStep(0);
    StartTimeStep(1);
    StartTimeStep(2);
    StartTimeStep(3);
    StartTimeStep(4);
    StartTimeStep(5);
    StartTimeStep(6);
  }

  /** The intro runs 64 seconds. */
  lemma TotalDurationIs64()
    ensures TotalDuration == 64
  {
    StartTimeTable();
    assert GetStageStartTime(|Stages|) == 64;
    assert Stages[..SliceEnd(|Stages|, |Stages|)] == Stages;
  }

  /** The first stage starts at 0. */
  lemma FirstStageStartsAtZero()
    ensures GetStageStartTime(0) == 0
  {
  }

  /** Each stage starts where the previous one ends. */
  lemma StartTimeStep(i: nat)
    requires i < |Stages|
    ensures GetStageStartTime(i + 1) == GetStageStartTime(i) + Stages[i].duration
  {
    assert Stages[..i + 1][..i] == Stages[..i];
  }

  /** A longer prefix never sums to less. */
  lemma {:induction false} PrefixSumMonotone(s: seq<StageDefinition>, i: nat, j: nat)
    requires i <= j <= |s|
    ensures SumDurations(s[..i]) <= SumDurations(s[..j])
    decreases j
  {
    if i < j {
      assert s[..j][..j - 1] == s[..j - 1];
      PrefixSumMonotone(s, i, j - 1);
    }
  }

  /**
   * Start times never decrease with the stage index, never exceed the total
   * duration, and equal it from index 7 on (the slice stops at the end).
   */
  lemma StartTimeMonotone(i: nat, j: nat)
    requires i <= j
    ensures GetStageStartTime(i) <= GetStageStartTime(j) <= TotalDuration
    ensures j >= |Stages| ==> GetStageStartTime(j) == TotalDuration
  {
    PrefixSumMonotone(Stages, SliceEnd(|Stages|, i), SliceEnd(|Stages|, j));
    PrefixSumMonotone(Stages, SliceEnd(|Stages|, j), |Stages|);
    assert Stages[..|Stages|] == Stages;
  }

  /** A negative index counts back from the end, as `slice` does: index -1 gives the start of stage 7. */
  lemma NegativeIndexCountsFromEnd(i: int)
    requires -|Stages| <= i < 0
    ensures GetStageStartTime(i) == GetStageStartTime(|Stages| + i)
  {
  }
}
