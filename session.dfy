/**
  The host event loop around the `Index` screen: button presses, pointer
  events, the particles' fade callback and the `setTimeout` callbacks that
  are still pending.  No clock is modelled: any pending timer may fire
  next, which covers every order the real delays can produce.
 */
module Session {
  import opened Levels
  import opened Progress

  datatype Event =
    | PressStart                                          // "¡JUGAR!" and "Jugar Otra Vez"
    | PressNextLevel                                      // "SIGUIENTE NIVEL"
    | PointerMove(p: Point)
    | PointerRelease(clock: nat -> int, draw: nat -> Pick)  // clock readings and colour draws of a completion
    | TimerFires(k: nat)                                  // the k-th pending timer runs
    | ParticlesFaded

  /**
    Whether the view rendered for `screen` can deliver the event: the start
    button is on the welcome and celebration views, the next-level button on
    the level-done view, and the drawing area on the playing view.
   */
  predicate Enabled(screen: Screen, e: Event) {
    match e
    case PressStart => screen == Welcome || screen == Celebration
    case PressNextLevel => screen == LevelComplete
    case PointerMove(_) => screen == Playing
    case PointerRelease(_, _) => screen == Playing
    case TimerFires(_) => true
    case ParticlesFaded => true
  }

  /** The component's state and the callbacks scheduled but not yet run, oldest first. */
  datatype Config = Config(state: State, pending: seq<Timer>)

  predicate Good(c: Config) {
    Inv(c.state) && forall t :: t in c.pending ==> TimerOk(t)
  }

  function Boot(): (c: Config)
    ensures Good(c) && c.state == Initial() && c.pending == []
  {
    Config(Initial(), [])
  }

  /**
    One event.  An event the current view cannot deliver, or `TimerFires(k)`
    with no k-th pending timer, changes nothing.
   */
  function Apply(c: Config, e: Event): (r: Config)
    requires Good(c)
    ensures Good(r)
    ensures !Enabled(c.state.screen, e) ==> r == c
  {
    if !Enabled(c.state.screen, e) then c else
    match e
    case PressStart => c.(state := StartGame(c.state))
    case PressNextLevel => c.(state := NextLevel(c.state))
    case PointerMove(p) => c.(state := Move(c.state, p))
    case PointerRelease(clock, draw) =>
      var step := Release(c.state, clock, draw);
      Config(step.state, if step.timer.Some? then c.pending + [step.timer.value] else c.pending)
    case TimerFires(k) =>
      if k < |c.pending| then
        assert c.pending[k] in c.pending;
        Config(Fire(c.state, c.pending[k]), c.pending[..k] + c.pending[k + 1..])
      else c
    case ParticlesFaded => c.(state := ClearParticles(c.state))
  }

  /** Every state reached from a good configuration is good. */
  function Run(c: Config, evs: seq<Event>): (r: Config)
    requires Good(c)
    ensures Good(r)
    decreases |evs|
  {
    if |evs| == 0 then c else Run(Apply(c, evs[0]), evs[1..])
  }

  lemma {:induction false} RunAppend(c: Config, a: seq<Event>, b: seq<Event>)
    requires Good(c)
    ensures Run(c, a + b) == Run(Run(c, a), b)
    decreases |a|
  {
    if |a| == 0 {
      assert a + b == b;
    } else {
      assert (a + b)[1..] == a[1..] + b;
      RunAppend(Apply(c, a[0]), a[1..], b);
    }
  }

  function Moves(ps: seq<Point>): (evs: seq<Event>)
    ensures |evs| == |ps|
  {
    seq(|ps|, i requires 0 <= i < |ps| => PointerMove(ps[i]))
  }

  /** On the playing view, move events append exactly those samples, in order, and touch nothing else. */
  lemma {:induction false} RunMoves(c: Config, ps: seq<Point>)
    requires Good(c) && c.state.screen == Playing
    ensures Run(c, Moves(ps)) == c.(state := c.state.(points := c.state.points + ps))
    decreases |ps|
  {
    if |ps| == 0 {
      assert c.state.points + ps == c.state.points;
    } else {
      var evs := Moves(ps);
      assert evs[1..] == Moves(ps[1..]);
      var c' := Apply(c, PointerMove(ps[0]));
      RunMoves(c', ps[1..]);
      assert c.state.points + [ps[0]] + ps[1..] == c.state.points + ps;
    }
  }

  /**
    Pointer strokes accumulate: a stroke of at most 20 samples followed by a
    release changes nothing but the samples, and a later stroke that takes
    the total past 20 completes the symbol on its release.
   */
  lemma StrokesAccumulate(c: Config, a: seq<Point>, b: seq<Point>, clock: nat -> int, draw: nat -> Pick)
    requires Good(c) && c.state.screen == Playing && c.state.points == []
    requires |a| <= Threshold < |a| + |b|
    ensures Run(c, Moves(a) + [PointerRelease(clock, draw)]) == c.(state := c.state.(points := a))
    ensures
      var r := Run(c, Moves(a) + [PointerRelease(clock, draw)] + Moves(b) + [PointerRelease(clock, draw)]);
      && r.pending == c.pending + [Completion(c.state.(points := a + b), clock, draw).timer.value]
      && r.state == Completion(c.state.(points := a + b), clock, draw).state
  {
    var rel := [PointerRelease(clock, draw)];
    RunAppend(c, Moves(a), rel);
    RunMoves(c, a);
    var mid := c.(state := c.state.(points := a));
    assert Run(mid, rel) == Run(Apply(mid, rel[0]), rel[1..]);
    assert Run(c, Moves(a) + rel) == mid;
    RunAppend(c, Moves(a) + rel, Moves(b));
    RunMoves(mid, b);
    var full := mid.(state := mid.state.(points := a + b));
    RunAppend(c, Moves(a) + rel + Moves(b), rel);
    assert Run(full, rel) == Run(Apply(full, rel[0]), rel[1..]);
  }

  /** How one symbol is traced: its stroke, and the clock readings and colour draws of its completion. */
  datatype Play = Play(stroke: seq<Point>, clock: nat -> int, draw: nat -> Pick)

  /** Every stroke is long enough to complete its symbol. */
  predicate Traced(plays: seq<Play>) {
    forall i :: 0 <= i < |plays| ==> |plays[i].stroke| > Threshold
  }

  /** Tracing one symbol: the stroke, a release, and the timer that release scheduled. */
  function Round(p: Play): (evs: seq<Event>) {
    Moves(p.stroke) + [PointerRelease(p.clock, p.draw), TimerFires(0)]
  }

  /** Runs release-and-fire on a configuration whose stroke is already drawn. */
  lemma ReleaseThenFire(c: Config, clock: nat -> int, draw: nat -> Pick)
    requires Good(c) && c.state.screen == Playing && c.pending == [] && |c.state.points| > Threshold
    ensures
      var step := Completion(c.state, clock, draw);
      Run(c, [PointerRelease(clock, draw), TimerFires(0)]) == Config(Fire(step.state, step.timer.value), [])
  {
    var evs := [PointerRelease(clock, draw), TimerFires(0)];
    var c1 := Apply(c, evs[0]);
    assert evs[1..] == [TimerFires(0)];
    var c2 := Apply(c1, TimerFires(0));
    assert Run(c1, [TimerFires(0)]) == Run(c2, []);
  }

  /** A non-last symbol: flag it, move to the next symbol, clear the stroke. */
  lemma RoundAdvances(c: Config, p: Play)
    requires Good(c) && c.state.screen == Playing && c.pending == []
    requires |c.state.points| + |p.stroke| > Threshold
    requires c.state.letter < |Content(c.state.level)| - 1
    ensures
      var s := c.state;
      Run(c, Round(p)) == Config(
        s.(letter := s.letter + 1, completed := s.completed[s.letter := true], points := [],
           particles := ParticleBatch(LEVELS[s.level].theme, p.clock, p.draw)),
        [])
  {
    RunAppend(c, Moves(p.stroke), [PointerRelease(p.clock, p.draw), TimerFires(0)]);
    RunMoves(c, p.stroke);
    ReleaseThenFire(c.(state := c.state.(points := c.state.points + p.stroke)), p.clock, p.draw);
  }

  /** The last symbol: flag it and show the level-done screen; the stroke stays. */
  lemma RoundFinishes(c: Config, p: Play)
    requires Good(c) && c.state.screen == Playing && c.pending == []
    requires |c.state.points| + |p.stroke| > Threshold
    requires c.state.letter == |Content(c.state.level)| - 1
    ensures
      var s := c.state;
      Run(c, Round(p)) == Config(
        s.(completed := s.completed[s.letter := true], points := s.points + p.stroke,
           particles := ParticleBatch(LEVELS[s.level].theme, p.clock, p.draw),
           screen := if s.level < LastLevel then LevelComplete else Celebration),
        [])
  {
    RunAppend(c, Moves(p.stroke), [PointerRelease(p.clock, p.draw), TimerFires(0)]);
    RunMoves(c, p.stroke);
    ReleaseThenFire(c.(state := c.state.(points := c.state.points + p.stroke)), p.clock, p.draw);
  }

  /** The symbols traced one after another, the i-th as `plays[i]` says. */
  function Rounds(plays: seq<Play>): (evs: seq<Event>)
    decreases |plays|
  {
    if |plays| == 0 then [] else Round(plays[0]) + Rounds(plays[1..])
  }

  /**
    Tracing every remaining symbol of a level in order, each with its own
    stroke, flags all of them, leaves the earlier flags alone, and ends on
    the level-done screen, or on the celebration screen after the final level.
   */
  lemma {:induction false} PlayRestOfLevel(c: Config, plays: seq<Play>)
    requires Good(c) && c.state.screen == Playing && c.pending == [] && c.state.points == []
    requires |plays| == |Content(c.state.level)| - c.state.letter && Traced(plays)
    ensures
      var r := Run(c, Rounds(plays));
      && r.pending == []
      && r.state.level == c.state.level
      && r.state.letter == |Content(c.state.level)| - 1
      && |r.state.completed| == |c.state.completed|
      && (forall i :: 0 <= i < |r.state.completed| ==>
            r.state.completed[i] == (c.state.letter <= i || c.state.completed[i]))
      && r.state.screen == (if c.state.level < LastLevel then LevelComplete else Celebration)
      && r.state.points == plays[|plays| - 1].stroke
    decreases |plays|
  {
    RunAppend(c, Round(plays[0]), Rounds(plays[1..]));
    if |plays| == 1 {
      assert Rounds(plays[1..]) == [];
      RoundFinishes(c, plays[0]);
    } else {
      RoundAdvances(c, plays[0]);
      var c' := Run(c, Round(plays[0]));
      assert plays[1..][|plays| - 2] == plays[|plays| - 1];
      PlayRestOfLevel(c', plays[1..]);
    }
  }

  /** A whole level played from its first symbol flags every one of its symbols. */
  lemma PlayLevel(c: Config, plays: seq<Play>)
    requires Good(c) && c.state.screen == Playing && c.pending == [] && c.state.points == []
    requires c.state.letter == 0 && |plays| == SymbolsPerLevel && Traced(plays)
    ensures
      var r := Run(c, Rounds(plays));
      && r.pending == [] && r.state.level == c.state.level
      && |r.state.completed| == SymbolsPerLevel
      && (forall i :: 0 <= i < SymbolsPerLevel ==> r.state.completed[i])
      && r.state.screen == (if c.state.level < LastLevel then LevelComplete else Celebration)
  {
    PlayRestOfLevel(c, plays);
  }

  /** The schedule that plays the whole game from the welcome screen, one list of plays per level. */
  function WholeGame(l0: seq<Play>, l1: seq<Play>, l2: seq<Play>): (evs: seq<Event>) {
    [PressStart] + Rounds(l0) + [PressNextLevel] + Rounds(l1) + [PressNextLevel] + Rounds(l2)
  }

  /**
    Tracing every symbol of every level reaches the celebration screen with
    every flag of the final level set; the two earlier levels end on the
    level-done screen.
   */
  lemma PlayWholeGame(l0: seq<Play>, l1: seq<Play>, l2: seq<Play>)
    requires |l0| == |l1| == |l2| == SymbolsPerLevel
    requires Traced(l0) && Traced(l1) && Traced(l2)
    ensures
      var r := Run(Boot(), WholeGame(l0, l1, l2));
      && r.state.screen == Celebration && r.state.level == LastLevel && r.pending == []
      && (forall i :: 0 <= i < |r.state.completed| ==> r.state.completed[i])
  {
    var next := [PressNextLevel];
    var c0 := Run(Boot(), [PressStart]);
    assert c0 == Apply(Boot(), PressStart);
    PlayLevel(c0, l0);
    var c1 := Run(c0, Rounds(l0));
    assert c1.state.screen == LevelComplete;
    var c2 := Run(c1, next);
    assert c2 == Apply(c1, PressNextLevel);
    PlayLevel(c2, l1);
    var c3 := Run(c2, Rounds(l1));
    assert c3.state.screen == LevelComplete;
    var c4 := Run(c3, next);
    assert c4 == Apply(c3, PressNextLevel);
    PlayLevel(c4, l2);
    RunAppend(Boot(), [PressStart], Rounds(l0));
    RunAppend(Boot(), [PressStart] + Rounds(l0), next);
    RunAppend(Boot(), [PressStart] + Rounds(l0) + next, Rounds(l1));
    RunAppend(Boot(), [PressStart] + Rounds(l0) + next + Rounds(l1), next);
    RunAppend(Boot(), [PressStart] + Rounds(l0) + next + Rounds(l1) + next, Rounds(l2));
  }

  /**
    The first scenario of the game: start, 25 samples on "M", release, and
    after the delay the first flag alone is set and "A" is current.
   */
  lemma FirstSymbolScenario(p: Play)
    requires |p.stroke| == 25
    ensures
      var r := Run(Boot(), [PressStart] + Round(p));
      && r.state.completed == [true, false, false, false, false]
      && r.state.screen == Playing && r.state.level == 0 && r.state.letter == 1
      && r.state.points == [] && r.pending == []
  {
    var c0 := Apply(Boot(), PressStart);
    assert Run(Boot(), [PressStart]) == c0;
    RunAppend(Boot(), [PressStart], Round(p));
    RoundAdvances(c0, p);
  }

  /**
    Timers are never cancelled.  A second release while the level-done timer
    is pending schedules a second one, and if it runs after "next level" it
    shows the level-done screen for a level none of whose symbols was traced.
   */
  lemma StaleTimerSkipsLevel(c: Config, clock: nat -> int, draw: nat -> Pick)
    requires Good(c) && c.state.screen == Playing && c.pending == [] && c.state.level == 0
    requires c.state.letter == |Content(0)| - 1 && |c.state.points| > Threshold
    ensures
      var r := Run(c, [PointerRelease(clock, draw), PointerRelease(clock, draw), TimerFires(0), PressNextLevel, TimerFires(0)]);
      && r.state.level == 1 && r.state.screen == LevelComplete
      && NoneCompleted(r.state.completed) && r.pending == []
  {
    var evs := [PointerRelease(clock, draw), PointerRelease(clock, draw), TimerFires(0), PressNextLevel, TimerFires(0)];
    var c1 := Apply(c, evs[0]);
    var c2 := Apply(c1, evs[1]);
    var c3 := Apply(c2, evs[2]);
    var c4 := Apply(c3, evs[3]);
    var c5 := Apply(c4, evs[4]);
    assert Run(c4, evs[4..]) == c5 by { assert evs[4..][1..] == []; }
    assert Run(c3, evs[3..]) == Run(c4, evs[4..]) by { assert evs[3..][1..] == evs[4..]; }
    assert Run(c2, evs[2..]) == Run(c3, evs[3..]) by { assert evs[2..][1..] == evs[3..]; }
    assert Run(c1, evs[1..]) == Run(c2, evs[2..]) by { assert evs[1..][1..] == evs[2..]; }
  }
}
