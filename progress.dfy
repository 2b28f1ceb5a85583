/**
  The game-progress state machine of the `Index` screen, as functions on a
  state record.  Each function is one transition of the React component:
  a button handler, a pointer handler, the completion handler, or the body
  of one of the two delayed callbacks.  The class in module Index is proved
  against these functions.
 */
module Progress {
  import opened Levels

  /** Which view the component renders. */
  datatype Screen = Welcome | Playing | LevelComplete | Celebration

  /** A touch sample in drawing-area coordinates (the source's floats, taken as integers). */
  datatype Point = Point(x: int, y: int)

  /** A decorative particle: only its identifier and colour are modelled. */
  datatype Particle = Particle(id: int, color: string)

  /** The value of `Math.floor(Math.random() * 3)`: an index into the three-colour palette. */
  type Pick = k: nat | k < 3

  /**
    A scheduled delayed callback, with the values its closure captured:
    the letter index that was completed, or the level index that was finished.
   */
  datatype Timer = AdvanceLetter(from: nat) | FinishLevel(level: nat)

  datatype Option<T> = None | Some(value: T)

  /** The component's hook state. */
  datatype State = State(
    screen: Screen,
    level: nat,
    letter: nat,
    completed: seq<bool>,
    points: seq<Point>,
    particles: seq<Particle>)

  /** A new state and the timer the transition scheduled, if any. */
  datatype Step = Step(state: State, timer: Option<Timer>)

  /** A release completes the symbol only with strictly more points than this. */
  const Threshold: nat := 20
  const ParticleCount: nat := 20

  /** The indices stay inside the level table and the flags match the level's symbols. */
  predicate Inv(s: State) {
    && s.level < |LEVELS|
    && s.letter < |Content(s.level)|
    && |s.completed| == |Content(s.level)|
  }

  predicate NoneCompleted(flags: seq<bool>) {
    forall i :: 0 <= i < |flags| ==> !flags[i]
  }

  /** `new Array(n).fill(false)` */
  function Cleared(n: nat): (r: seq<bool>)
    ensures |r| == n && NoneCompleted(r)
  {
    seq(n, _ => false)
  }

  /** A timer whose body keeps the invariant whatever level is current when it fires. */
  predicate TimerOk(t: Timer) {
    match t
    case AdvanceLetter(from) => from + 1 < SymbolsPerLevel
    case FinishLevel(level) => level < |LEVELS|
  }

  /** The initial hook values; the literal five-flag list is level 0's cleared list. */
  function Initial(): (r: State)
    ensures Inv(r)
    ensures r.screen == Welcome && r.level == 0 && r.letter == 0
    ensures r.completed == Cleared(|Content(0)|)
    ensures r.points == [] && r.particles == []
  {
    State(Welcome, 0, 0, [false, false, false, false, false], [], [])
  }

  /** `startGame`: the same fresh start from any state; only the particles hook is left alone. */
  function StartGame(s: State): (r: State)
    ensures Inv(r)
    ensures r.screen == Playing && r.level == 0 && r.letter == 0
    ensures |r.completed| == |Content(0)| && NoneCompleted(r.completed)
    ensures r.points == [] && r.particles == s.particles
  {
    State(Playing, 0, 0, Cleared(|LEVELS[0].content|), [], s.particles)
  }

  /** `nextLevel`: enter the next level, or celebrate when the final level is done. */
  function NextLevel(s: State): (r: State)
    requires Inv(s)
    ensures Inv(r)
    ensures s.level < LastLevel ==>
      && r.screen == Playing && r.level == s.level + 1 && r.letter == 0
      && |r.completed| == |Content(r.level)| && NoneCompleted(r.completed)
      && r.points == [] && r.particles == s.particles
    ensures s.level == LastLevel ==> r == s.(screen := Celebration)
  {
    if s.level < |LEVELS| - 1 then
      s.(level := s.level + 1, letter := 0,
         completed := Cleared(|LEVELS[s.level + 1].content|),
         points := [], screen := Playing)
    else
      s.(screen := Celebration)
  }

  /** `onPanResponderMove`: the sample goes at the end, with no filtering. */
  function Move(s: State, p: Point): (r: State)
    ensures |r.points| == |s.points| + 1 && r.points[|s.points|] == p
    ensures r.points[..|s.points|] == s.points
    ensures r.(points := s.points) == s
    ensures Inv(s) ==> Inv(r)
  {
    s.(points := s.points + [p])
  }

  /**
    The colour and identifier part of `triggerParticles`: `clock(i)` is the
    value of `Date.now()` read while building particle i, and `draw(i)` its
    colour draw.
   */
  function ParticleBatch(t: Theme, clock: nat -> int, draw: nat -> Pick): (r: seq<Particle>)
    ensures |r| == ParticleCount
    ensures forall i :: 0 <= i < |r| ==> r[i].id == clock(i) + i && r[i].color in Palette(t)
  {
    seq(ParticleCount, i requires 0 <= i < ParticleCount => Particle(clock(i) + i, Palette(t)[draw(i)]))
  }

  /**
    `handleLetterComplete`: flag the current symbol, emit a particle batch,
    and schedule either the advance timer or, after the last symbol, the
    level-done timer.
   */
  function Completion(s: State, clock: nat -> int, draw: nat -> Pick): (r: Step)
    requires Inv(s)
    ensures Inv(r.state)
    ensures |r.state.completed| == |s.completed| && r.state.completed[s.letter]
    ensures forall i :: 0 <= i < |s.completed| && i != s.letter ==> r.state.completed[i] == s.completed[i]
    ensures r.state.(completed := s.completed, particles := s.particles) == s
    ensures |r.state.particles| == ParticleCount
    ensures forall i :: 0 <= i < |r.state.particles| ==> r.state.particles[i].color in Palette(LEVELS[s.level].theme)
    ensures r.timer.Some? && TimerOk(r.timer.value)
    ensures r.timer.value.FinishLevel? <==> s.letter == |Content(s.level)| - 1
    ensures r.timer.value.FinishLevel? ==> r.timer.value.level == s.level
    ensures r.timer.value.AdvanceLetter? ==> r.timer.value.from == s.letter
  {
    var timer := if s.letter == |LEVELS[s.level].content| - 1 then FinishLevel(s.level) else AdvanceLetter(s.letter);
    Step(s.(completed := s.completed[s.letter := true],
            particles := ParticleBatch(LEVELS[s.level].theme, clock, draw)),
         Some(timer))
  }

  /** `onPanResponderRelease`: at most 20 points leaves everything as it is. */
  function Release(s: State, clock: nat -> int, draw: nat -> Pick): (r: Step)
    requires Inv(s)
    ensures r.timer.Some? <==> |s.points| > Threshold
    ensures |s.points| <= Threshold ==> r.state == s
    ensures |s.points| > Threshold ==> r == Completion(s, clock, draw)
  {
    if |s.points| > Threshold then Completion(s, clock, draw) else Step(s, None)
  }

  /** Body of the 2000 ms timer: go to the captured letter's successor and clear the stroke. */
  function FireAdvance(s: State, from: nat): (r: State)
    requires Inv(s) && from + 1 < SymbolsPerLevel
    ensures Inv(r)
    ensures r.letter == from + 1 && r.points == []
    ensures r.(letter := s.letter, points := s.points) == s
  {
    s.(letter := from + 1, points := [])
  }

  /** Body of the 1500 ms timer: choose the screen by the captured level; the stroke is kept. */
  function FireFinishLevel(s: State, level: nat): (r: State)
    ensures level < LastLevel ==> r.screen == LevelComplete
    ensures level >= LastLevel ==> r.screen == Celebration
    ensures r.(screen := s.screen) == s
    ensures Inv(s) ==> Inv(r)
  {
    s.(screen := if level < |LEVELS| - 1 then LevelComplete else Celebration)
  }

  function Fire(s: State, t: Timer): (r: State)
    requires Inv(s) && TimerOk(t)
    ensures Inv(r)
  {
    match t
    case AdvanceLetter(from) => FireAdvance(s, from)
    case FinishLevel(level) => FireFinishLevel(s, level)
  }

  /** Completion of the particles' fade animation empties the batch. */
  function ClearParticles(s: State): (r: State)
    ensures r.particles == [] && r.(particles := s.particles) == s
    ensures Inv(s) ==> Inv(r)
  {
    s.(particles := [])
  }
}
