/**
 * The intro sequencer: loading, then playing the stages one after another
 * (advanced by elapsed-time ticks, or skipped forwards and backwards by the
 * viewer), pausable, and finally complete. The machine is modelled as a
 * step function over (state, context, event); the animation-frame ticker
 * that produces TICK events is the host.
 */
module IntroMachine {
  import opened StageDefinitions

  datatype IntroState = Loading | Playing | Paused | Complete

  datatype IntroContext = IntroContext(
    currentStage: int,
    stageProgress: real,
    stageElapsed: real,
    globalProgress: real,
    isPaused: bool)

  datatype IntroEvent = Loaded | Tick(delta: real) | Pause | Play | SkipStage | PrevStage | SkipAll

  datatype Intro = Intro(state: IntroState, ctx: IntroContext)

  const Initial: Intro := Intro(Loading, IntroContext(0, 0.0, 0.0, 0.0, false))

  predicate ValidStage(i: int)
  {
    0 <= i < |Stages|
  }

  lemma DurationsPositive()
    ensures forall i :: 0 <= i < |Stages| ==> Stages[i].duration > 0
  {
  }

  /** The fraction of the whole intro that lies before stage `i`. */
  function StartFraction(i: int): (f: real)
    requires 0 <= i <= |Stages|
    ensures 0.0 <= f <= 1.0
    ensures i == 0 ==> f == 0.0
    ensures i == |Stages| ==> f == 1.0
  {
    TotalDurationIs64();
    StartTimeMonotone(i, |Stages|);
    StartTimeMonotone(|Stages|, |Stages|);
    FirstStageStartsAtZero();
    GetStageStartTime(i) as real / TotalDuration as real
  }

  /**
   * The fraction of the whole intro reached at `stageProgress` through
   * stage `stageIndex`. It stays in [0, 1] while the stage progress does.
   */
  function ComputeGlobalProgress(stageIndex: int, stageProgress: real): (g: real)
    requires ValidStage(stageIndex)
    ensures 0.0 <= stageProgress <= 1.0 ==> 0.0 <= g <= 1.0
    ensures stageProgress == 0.0 ==> g == StartFraction(stageIndex)
    ensures stageProgress == 1.0 ==> g == StartFraction(stageIndex + 1)
  {
    TotalDurationIs64();
    StartTimeStep(stageIndex);
    StartTimeMonotone(stageIndex + 1, |Stages|);
    var start := GetStageStartTime(stageIndex) as real;
    var duration := Stages[stageIndex].duration as real;
    assert 0.0 <= stageProgress <= 1.0 ==> 0.0 <= duration * stageProgress <= duration;
    (start + duration * stageProgress) / TotalDuration as real
  }

  function Min(a: real, b: real): real
  {
    if a <= b then a else b
  }

  /** Guard `hasNextStage`: from a valid stage, there is a stage after it. */
  predicate HasNextStage(c: IntroContext): (b: bool)
    ensures ValidStage(c.currentStage) ==> (b <==> ValidStage(c.currentStage + 1))
  {
    c.currentStage < |Stages| - 1
  }

  /** Guard `hasPrevStage`: from a valid stage, there is a stage before it. */
  predicate HasPrevStage(c: IntroContext): (b: bool)
    ensures ValidStage(c.currentStage) ==> (b <==> ValidStage(c.currentStage - 1))
  {
    c.currentStage > 0
  }

  /** `advanceStage`: add the tick to the time spent in the stage and recompute both progresses. */
  function AdvanceStage(c: IntroContext, delta: real): (r: IntroContext)
    requires ValidStage(c.currentStage)
    ensures r.currentStage == c.currentStage && r.isPaused == c.isPaused
    ensures r.stageElapsed == c.stageElapsed + delta
    ensures r.stageProgress <= 1.0
    ensures r.stageProgress < 1.0 ==> r.stageProgress * Stages[c.currentStage].duration as real == r.stageElapsed
    ensures 0.0 <= r.stageElapsed ==> 0.0 <= r.stageProgress && 0.0 <= r.globalProgress <= 1.0
    ensures r.globalProgress == ComputeGlobalProgress(c.currentStage, r.stageProgress)
    ensures r.stageProgress < 1.0 ==>
      r.globalProgress * TotalDuration as real == GetStageStartTime(c.currentStage) as real + r.stageElapsed
    ensures r.stageProgress == 1.0 ==> r.globalProgress == StartFraction(c.currentStage + 1)
  {
    DurationsPositive();
    var stage := Stages[c.currentStage];
    var newElapsed := c.stageElapsed + delta;
    var newProgress := Min(newElapsed / stage.duration as real, 1.0);
    c.(stageElapsed := newElapsed,
       stageProgress := newProgress,
       globalProgress := ComputeGlobalProgress(c.currentStage, newProgress))
  }

  /** `goNextStage`: the start of the next stage, never past the last. */
  function GoNextStage(c: IntroContext): (r: IntroContext)
    requires ValidStage(c.currentStage)
    ensures ValidStage(r.currentStage) && r.isPaused == c.isPaused
    ensures r.currentStage == if HasNextStage(c) then c.currentStage + 1 else c.currentStage
    ensures r.stageProgress == 0.0 && r.stageElapsed == 0.0
    ensures r.globalProgress == StartFraction(r.currentStage)
    ensures 0.0 <= r.globalProgress <= 1.0
  {
    var nextStage := if c.currentStage + 1 <= |Stages| - 1 then c.currentStage + 1 else |Stages| - 1;
    c.(currentStage := nextStage, stageProgress := 0.0, stageElapsed := 0.0,
       globalProgress := ComputeGlobalProgress(nextStage, 0.0))
  }

  /** `goPrevStage`: the start of the previous stage, never before the first. */
  function GoPrevStage(c: IntroContext): (r: IntroContext)
    requires ValidStage(c.currentStage)
    ensures ValidStage(r.currentStage) && r.isPaused == c.isPaused
    ensures r.currentStage == if HasPrevStage(c) then c.currentStage - 1 else 0
    ensures r.stageProgress == 0.0 && r.stageElapsed == 0.0
    ensures r.globalProgress == StartFraction(r.currentStage)
    ensures 0.0 <= r.globalProgress <= 1.0
  {
    var prevStage := if c.currentStage - 1 >= 0 then c.currentStage - 1 else 0;
    c.(currentStage := prevStage, stageProgress := 0.0, stageElapsed := 0.0,
       globalProgress := ComputeGlobalProgress(prevStage, 0.0))
  }

  /** The state changes the transition table allows. */
  predicate IntroEdge(from: IntroState, e: IntroEvent, to: IntroState)
  {
    || (from == Loading && e == Loaded && to == Playing)
    || (from == Playing && e.Tick? && to == Complete)
    || (from == Playing && e == Pause && to == Paused)
    || (from == Playing && e in {SkipStage, SkipAll} && to == Complete)
    || (from == Paused && e in {Play, SkipStage, PrevStage} && to == Playing)
    || (from == Paused && e in {SkipStage, SkipAll} && to == Complete)
  }

  /** The machine's invariant: a real stage, progress at most 1, and the paused flag mirroring the state. */
  predicate Inv(m: Intro)
  {
    && ValidStage(m.ctx.currentStage)
    && m.ctx.stageProgress <= 1.0
    && (m.ctx.isPaused <==> m.state == Paused)
  }

  /** With ticks that never go backwards, times and progresses are also non-negative. */
  predicate ForwardInv(m: Intro)
  {
    && Inv(m)
    && 0.0 <= m.ctx.stageElapsed
    && 0.0 <= m.ctx.stageProgress
    && 0.0 <= m.ctx.globalProgress <= 1.0
  }

  /**
   * One event. The state moves only along an edge of the table and never
   * leaves `Complete`; the invariant is kept, and with a non-negative tick so
   * are the non-negative bounds; a tick in any state but `Playing` is ignored.
   * LOADED starts playing, PAUSE pauses and PLAY resumes, each keeping the
   * stage, its elapsed time and both progresses.
   */
  function StepIntro(m: Intro, e: IntroEvent): (r: Intro)
    requires ValidStage(m.ctx.currentStage)
    ensures r.state != m.state ==> IntroEdge(m.state, e, r.state)
    ensures m.state == Complete ==> r == m
    ensures e.Tick? && m.state != Playing ==> r == m
    ensures Inv(m) ==> Inv(r)
    ensures ForwardInv(m) && (e.Tick? ==> e.delta >= 0.0) ==> ForwardInv(r)
    ensures m.state == Loading && e == Loaded ==> r == Intro(Playing, m.ctx)
    ensures m.state == Playing && e == Pause ==> r == Intro(Paused, m.ctx.(isPaused := true))
    ensures m.state == Paused && e == Play ==> r == Intro(Playing, m.ctx.(isPaused := false))
  {
    var c := m.ctx;
    match m.state
    case Loading => if e == Loaded then m.(state := Playing) else m
    case Playing => (
      match e
      case Tick(delta) =>
        var reached := c.stageElapsed + delta >= Stages[c.currentStage].duration as real;
        if reached && c.currentStage < |Stages| - 1 then Intro(Playing, GoNextStage(AdvanceStage(c, delta)))
        else if reached then Intro(Complete, AdvanceStage(c, delta))
        else Intro(Playing, AdvanceStage(c, delta))
      case Pause => Intro(Paused, c.(isPaused := true))
      case SkipStage => if HasNextStage(c) then Intro(Playing, GoNextStage(c)) else Intro(Complete, c)
      case PrevStage => if HasPrevStage(c) then Intro(Playing, GoPrevStage(c)) else m
      case SkipAll => Intro(Complete, c)
      case _ => m)
    case Paused => (
      match e
      case Play => Intro(Playing, c.(isPaused := false))
      case SkipStage =>
        if HasNextStage(c) then Intro(Playing, GoNextStage(c).(isPaused := false))
        else Intro(Complete, c.(isPaused := false))
      case PrevStage => if HasPrevStage(c) then Intro(Playing, GoPrevStage(c).(isPaused := false)) else m
      case SkipAll => Intro(Complete, c.(isPaused := false))
      case _ => m)
    case Complete => m
  }

  /** The machine after the events `es`, in order. */
  function RunIntro(m: Intro, es: seq<IntroEvent>): Intro
    requires Inv(m)
    decreases es
  {
    if es == [] then m else RunIntro(StepIntro(m, es[0]), es[1..])
  }

  /** The machine starts in `loading` at the start of stage 0, unpaused, and meets its invariants. */
  lemma InitialIsValid()
    ensures ForwardInv(Initial)
  {
    TotalDurationIs64();
  }

  /** Any sequence of events keeps the invariant: the stage index stays in [0, 6] and progress at most 1. */
  lemma {:induction false} RunKeepsInv(m: Intro, es: seq<IntroEvent>)
    requires Inv(m)
    ensures Inv(RunIntro(m, es))
    decreases es
  {
    if es != [] {
      RunKeepsInv(StepIntro(m, es[0]), es[1..]);
    }
  }

  /** A tick that does not finish the stage adds to the time spent in it and keeps the stage. */
  lemma TickWithinStage(m: Intro, delta: real)
    requires m.state == Playing && Inv(m)
    requires m.ctx.stageElapsed + delta < Stages[m.ctx.currentStage].duration as real
    ensures
      var r := StepIntro(m, Tick(delta));
      && r.state == Playing
      && r.ctx.currentStage == m.ctx.currentStage
      && r.ctx.stageElapsed == m.ctx.stageElapsed + delta
      && r.ctx.stageProgress * Stages[m.ctx.currentStage].duration as real == m.ctx.stageElapsed + delta
      && r.ctx.stageProgress < 1.0
  {
    DurationsPositive();
  }

  /**
   * A tick that finishes a stage other than the last starts the next one at
   * zero progress (the time left over is dropped), with the global progress
   * at the next stage's start.
   */
  lemma TickFinishesStage(m: Intro, delta: real)
    requires m.state == Playing && Inv(m)
    requires m.ctx.stageElapsed + delta >= Stages[m.ctx.currentStage].duration as real
    requires m.ctx.currentStage < |Stages| - 1
    ensures
      var r := StepIntro(m, Tick(delta));
      && r.state == Playing
      && r.ctx.currentStage == m.ctx.currentStage + 1
      && r.ctx.stageProgress == 0.0 && r.ctx.stageElapsed == 0.0
      && r.ctx.globalProgress == StartFraction(m.ctx.currentStage + 1)
  {
    var advanced := AdvanceStage(m.ctx, delta);
    var next := GoNextStage(advanced);
    assert StepIntro(m, Tick(delta)) == Intro(Playing, next);
    assert next.currentStage == m.ctx.currentStage + 1;
  }

  /** A tick that finishes the last stage completes the intro with everything at full progress. */
  lemma TickFinishesIntro(m: Intro, delta: real)
    requires m.state == Playing && Inv(m)
    requires m.ctx.stageElapsed + delta >= Stages[m.ctx.currentStage].duration as real
    requires m.ctx.currentStage == |Stages| - 1
    ensures
      var r := StepIntro(m, Tick(delta));
      && r.state == Complete
      && r.ctx.stageProgress == 1.0
      && r.ctx.globalProgress == 1.0
  {
    DurationsPositive();
    TotalDurationIs64();
    StartTimeMonotone(|Stages|, |Stages|);
  }

  /**
   * SKIP_STAGE from `playing` or `paused` goes to the start of the next
   * stage, playing, when there is one, and completes the intro otherwise.
   */
  lemma SkipStageMovesOn(m: Intro)
    requires m.state in {Playing, Paused} && Inv(m)
    ensures
      var r := StepIntro(m, SkipStage);
      if m.ctx.currentStage < |Stages| - 1 then
        && r.state == Playing && !r.ctx.isPaused
        && r.ctx.currentStage == m.ctx.currentStage + 1
        && r.ctx.stageProgress == 0.0 && r.ctx.stageElapsed == 0.0
      else
        r.state == Complete && !r.ctx.isPaused
  {
  }

  /**
   * PREV_STAGE is ignored at the first stage; otherwise it goes to the start
   * of the previous stage, playing (resuming if paused).
   */
  lemma PrevStageMovesBack(m: Intro)
    requires m.state in {Playing, Paused} && Inv(m)
    ensures
      var r := StepIntro(m, PrevStage);
      if m.ctx.currentStage == 0 then r == m
      else
        && r.state == Playing && !r.ctx.isPaused
        && r.ctx.currentStage == m.ctx.currentStage - 1
        && r.ctx.stageProgress == 0.0 && r.ctx.stageElapsed == 0.0
  {
  }

  /** SKIP_ALL from `playing` or `paused` completes the intro, and `complete` ignores every event. */
  lemma SkipAllCompletes(m: Intro, e: IntroEvent)
    requires m.state in {Playing, Paused} && Inv(m)
    ensures StepIntro(m, SkipAll).state == Complete
    ensures Inv(StepIntro(m, SkipAll)) && StepIntro(StepIntro(m, SkipAll), e) == StepIntro(m, SkipAll)
  {
  }
}
