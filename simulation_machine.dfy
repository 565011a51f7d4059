/**
 * The simulation control machine: loading, idle, running and paused, a
 * clock (time and frame count) advanced by ticks while running or by single
 * steps while paused, and a parameter record that any state accepts edits to.
 * The machine is modelled as a step function over (state, context, event);
 * the animation-frame ticker that produces TICK events is the host.
 */
module SimulationMachine {

  /** A parameter value: a number, a flag or a text (the `mode`). */
  datatype ParamValue = Num(n: real) | Flag(b: bool) | Text(s: string)

  /** The parameter values JavaScript treats as false: zero, `false` and the empty string. */
  const FalsyValues: set<ParamValue> := {Num(0.0), Flag(false), Text("")}

  /** JavaScript truthiness of a parameter value. */
  predicate Truthy(v: ParamValue): (b: bool)
    ensures b <==> v !in FalsyValues
  {
    match v
    case Num(n) => n != 0.0
    case Flag(b) => b
    case Text(s) => s != ""
  }

  /** Whether the parameter `key` is truthy (a missing key reads as `undefined`). */
  predicate ParamTruthy(parameters: map<string, ParamValue>, key: string)
  {
    key in parameters && Truthy(parameters[key])
  }

  const DefaultParameters: map<string, ParamValue> := map[
    "mode" := Text("tethered"),
    "altitude" := Num(32.0),
    "ringMass" := Num(100000000.0),
    "tetherCount" := Num(1000.0),
    "spinRate" := Num(0.001),
    "showForceVectors" := Flag(false),
    "showAtmosphere" := Flag(true)
  ]

  datatype SimState = Loading | Idle | Running | Paused

  datatype SimContext = SimContext(
    time: real,
    timeStep: real,
    speed: real,
    frameCount: int,
    parameters: map<string, ParamValue>)

  datatype SimEvent =
    | Loaded
    | Play
    | Pause
    | Step
    | Reset
    | Tick(delta: real)
    | SetSpeed(speed: real)
    | SetParameter(key: string, value: ParamValue)

  datatype Sim = Sim(state: SimState, ctx: SimContext)

  const InitialContext: SimContext := SimContext(0.0, 1.0 / 60.0, 1.0, 0, DefaultParameters)

  const Initial: Sim := Sim(Loading, InitialContext)

  /** `advanceTime`: the clock moves on by the tick scaled by the speed, and one more frame is counted. */
  function AdvanceTime(c: SimContext, delta: real): (r: SimContext)
    ensures r.time - c.time == delta * c.speed
    ensures r.frameCount == c.frameCount + 1
    ensures r.(time := c.time, frameCount := c.frameCount) == c
  {
    c.(time := c.time + delta * c.speed, frameCount := c.frameCount + 1)
  }

  /** `stepOnce`: the clock moves on by exactly one fixed time step, whatever the speed, and one more frame is counted. */
  function StepOnce(c: SimContext): (r: SimContext)
    ensures r.time - c.time == c.timeStep
    ensures r.frameCount == c.frameCount + 1
    ensures r.(time := c.time, frameCount := c.frameCount) == c
  {
    c.(time := c.time + c.timeStep, frameCount := c.frameCount + 1)
  }

  /** `resetTime`: the clock goes back to zero; speed, step and parameters are kept. */
  function ResetTime(c: SimContext): (r: SimContext)
    ensures r.time == 0.0 && r.frameCount == 0
    ensures r.(time := c.time, frameCount := c.frameCount) == c
  {
    c.(time := 0.0, frameCount := 0)
  }

  /** The lifecycle edges of the transition table. */
  predicate LifecycleEdge(from: SimState, e: SimEvent, to: SimState)
  {
    || (from == Loading && e == Loaded && to == Idle)
    || (from == Idle && e == Play && to == Running)
    || (from == Running && e == Pause && to == Paused)
    || (from == Paused && e == Play && to == Running)
    || (from in {Running, Paused} && e == Reset && to == Idle)
  }

  /** `after` agrees with `before` on every key but `key`. */
  ghost predicate OnlyKeyChanged(before: map<string, ParamValue>, after: map<string, ParamValue>, key: string)
  {
    && (forall k :: k != key ==> (k in after <==> k in before))
    && (forall k :: k != key && k in after ==> after[k] == before[k])
  }

  /**
   * One event. The state moves along a lifecycle edge exactly when the event
   * labels one from the current state, and LOADED, PLAY and PAUSE leave the
   * context as it is; TICK advances
   * the clock by delta times speed and counts a frame, only while running;
   * STEP advances it by one time step and counts a frame, only while paused; RESET from running or paused
   * zeroes the clock; SET_PARAMETER (in any state) sets exactly the named
   * key and changes nothing else; no other event touches the parameters,
   * the speed or the time step.
   */
  function StepMachine(m: Sim, e: SimEvent): (r: Sim)
    ensures r.state != m.state ==> LifecycleEdge(m.state, e, r.state)
    ensures forall to :: LifecycleEdge(m.state, e, to) ==> r.state == to
    ensures e in {Loaded, Play, Pause} ==> r.ctx == m.ctx
    ensures e.Tick? && m.state != Running ==> r == m
    ensures e.Step? && m.state != Paused ==> r == m
    ensures e.Reset? && m.state in {Running, Paused} ==>
      r.state == Idle && r.ctx.time == 0.0 && r.ctx.frameCount == 0
    ensures e.SetParameter? ==>
      && r.state == m.state
      && e.key in r.ctx.parameters && r.ctx.parameters[e.key] == e.value
      && OnlyKeyChanged(m.ctx.parameters, r.ctx.parameters, e.key)
      && r.ctx.(parameters := m.ctx.parameters) == m.ctx
    ensures !e.SetParameter? ==> r.ctx.parameters == m.ctx.parameters
    ensures !e.SetSpeed? ==> r.ctx.speed == m.ctx.speed
    ensures e.SetSpeed? ==> r.ctx.speed == e.speed && r.state == m.state
    ensures r.ctx.timeStep == m.ctx.timeStep
    ensures !e.Reset? ==> r.ctx.frameCount >= m.ctx.frameCount
    ensures e.Tick? && m.state == Running ==>
      r == Sim(Running, m.ctx.(time := m.ctx.time + e.delta * m.ctx.speed, frameCount := m.ctx.frameCount + 1))
    ensures e.Step? && m.state == Paused ==>
      r == Sim(Paused, m.ctx.(time := m.ctx.time + m.ctx.timeStep, frameCount := m.ctx.frameCount + 1))
    ensures e.Reset? && m.state in {Running, Paused} ==> r == Sim(Idle, m.ctx.(time := 0.0, frameCount := 0))
    ensures !(e.Tick? || e.Step? || e.Reset?) ==> r.ctx.time == m.ctx.time && r.ctx.frameCount == m.ctx.frameCount
  {
    match e
    case SetSpeed(speed) => m.(ctx := m.ctx.(speed := speed))
    case SetParameter(key, value) => m.(ctx := m.ctx.(parameters := m.ctx.parameters[key := value]))
    case _ =>
      match m.state
      case Loading => if e.Loaded? then m.(state := Idle) else m
      case Idle => if e.Play? then m.(state := Running) else m
      case Running => (
        match e
        case Tick(delta) => m.(ctx := AdvanceTime(m.ctx, delta))
        case Pause => m.(state := Paused)
        case Reset => Sim(Idle, ResetTime(m.ctx))
        case _ => m)
      case Paused => (
        match e
        case Play => m.(state := Running)
        case Step => m.(ctx := StepOnce(m.ctx))
        case Reset => Sim(Idle, ResetTime(m.ctx))
        case _ => m)
  }

  /**
   * The machine starts loading, with the clock at zero, a 1/60 s step at
   * normal speed, and the default parameters; it stays loading until LOADED.
   */
  lemma InitialMachine(e: SimEvent)
    ensures Initial.state == Loading
    ensures Initial.ctx.time == 0.0 && Initial.ctx.frameCount == 0
    ensures Initial.ctx.timeStep * 60.0 == 1.0 && Initial.ctx.speed == 1.0
    ensures Initial.ctx.parameters["mode"] == Text("tethered")
    ensures Initial.ctx.parameters["altitude"] == Num(32.0)
    ensures Initial.ctx.parameters["tetherCount"] == Num(1000.0)
    ensures |Initial.ctx.parameters.Keys| == 7
    ensures StepMachine(Initial, e).state != Loading <==> e == Loaded
  {
    assert DefaultParameters.Keys == {"mode", "altitude", "ringMass", "tetherCount", "spinRate", "showForceVectors", "showAtmosphere"};
  }

  /** The machine after the events `es`, in order. */
  function Run(m: Sim, es: seq<SimEvent>): Sim
    decreases es
  {
    if es == [] then m else Run(StepMachine(m, es[0]), es[1..])
  }

  /** Events that cannot turn the clock back: non-negative ticks and speeds, and no reset. */
  predicate ForwardEvent(e: SimEvent)
  {
    match e
    case Reset => false
    case Tick(delta) => delta >= 0.0
    case SetSpeed(speed) => speed >= 0.0
    case _ => true
  }

  /**
   * Between resets the frame count never decreases, and neither does the
   * time when ticks, speeds and the time step are non-negative.
   */
  lemma {:induction false} ClockMonotoneBetweenResets(m: Sim, es: seq<SimEvent>)
    requires m.ctx.speed >= 0.0 && m.ctx.timeStep >= 0.0
    requires forall k :: 0 <= k < |es| ==> ForwardEvent(es[k])
    ensures Run(m, es).ctx.frameCount >= m.ctx.frameCount
    ensures Run(m, es).ctx.time >= m.ctx.time
    decreases es
  {
    if es != [] {
      var next := StepMachine(m, es[0]);
      assert ForwardEvent(es[0]);
      if es[0].Tick? && m.state == Running {
        assert next.ctx.time == m.ctx.time + es[0].delta * m.ctx.speed;
        assert es[0].delta * m.ctx.speed >= 0.0;
      }
      assert next.ctx.time >= m.ctx.time;
      assert forall k :: 0 <= k < |es[1..]| ==> ForwardEvent(es[1..][k]) by {
        forall k | 0 <= k < |es[1..]| ensures ForwardEvent(es[1..][k]) {
          assert es[1..][k] == es[k + 1];
        }
      }
      ClockMonotoneBetweenResets(next, es[1..]);
    }
  }
}
