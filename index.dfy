/**
  The `Index` screen component: its hooks are the fields of one object and
  its handlers are methods that update them in place.  Every method is
  proved to compute the corresponding transition of module Progress and to
  keep the component's invariant.
 */
module Index {
  import opened Levels
  import opened Progress

  class Component {
    var screen: Screen
    var levelIndex: nat
    var letterIndex: nat
    var completed: seq<bool>
    var points: seq<Point>
    var particles: seq<Particle>

    ghost function State(): (r: State)
      reads this
    {
      Progress.State(screen, levelIndex, letterIndex, completed, points, particles)
    }

    ghost predicate Valid()
      reads this
    {
      Inv(State())
    }

    /** The hooks' initial values. */
    constructor ()
      ensures Valid() && State() == Initial()
    {
      screen := Welcome;
      levelIndex := 0;
      letterIndex := 0;
      completed := [false, false, false, false, false];
      points := [];
      particles := [];
    }

    method StartGame()
      modifies this
      ensures Valid() && State() == Progress.StartGame(old(State()))
      ensures screen == Playing && levelIndex == 0 && letterIndex == 0 && points == []
      ensures |completed| == |Content(0)| && NoneCompleted(completed)
    {
      screen := Playing;
      levelIndex := 0;
      letterIndex := 0;
      completed := Cleared(|LEVELS[0].content|);
      points := [];
    }

    method NextLevel()
      requires Valid()
      modifies this
      ensures Valid() && State() == Progress.NextLevel(old(State()))
    {
      if levelIndex < |LEVELS| - 1 {
        levelIndex := levelIndex + 1;
        letterIndex := 0;
        completed := Cleared(|LEVELS[levelIndex].content|);
        points := [];
        screen := Playing;
      } else {
        screen := Celebration;
      }
    }

    method OnMove(p: Point)
      requires Valid()
      modifies this
      ensures Valid() && State() == Move(old(State()), p)
      ensures points == old(points) + [p]
    {
      points := points + [p];
    }

    /** Returns the timer it schedules: the caller runs its body later. */
    method HandleLetterComplete(clock: nat -> int, draw: nat -> Pick) returns (timer: Timer)
      requires Valid()
      modifies this
      ensures Valid() && Completion(old(State()), clock, draw) == Step(State(), Some(timer))
    {
      particles := ParticleBatch(LEVELS[levelIndex].theme, clock, draw);
      completed := completed[letterIndex := true];
      if letterIndex == |LEVELS[levelIndex].content| - 1 {
        timer := FinishLevel(levelIndex);
      } else {
        timer := AdvanceLetter(letterIndex);
      }
    }

    method OnRelease(clock: nat -> int, draw: nat -> Pick) returns (timer: Option<Timer>)
      requires Valid()
      modifies this
      ensures Valid() && Release(old(State()), clock, draw) == Step(State(), timer)
    {
      if |points| > Threshold {
        var t := HandleLetterComplete(clock, draw);
        timer := Some(t);
      } else {
        timer := None;
      }
    }

    /** The 2000 ms callback of a non-last symbol, with the letter index it captured. */
    method FireAdvanceTimer(from: nat)
      requires Valid() && from + 1 < SymbolsPerLevel
      modifies this
      ensures Valid() && State() == FireAdvance(old(State()), from)
      ensures letterIndex == from + 1 && points == []
    {
      letterIndex := from + 1;
      points := [];
    }

    /** The 1500 ms callback of the last symbol, with the level index it captured. */
    method FireLevelDoneTimer(level: nat)
      requires Valid()
      modifies this
      ensures Valid() && State() == FireFinishLevel(old(State()), level)
    {
      if level < |LEVELS| - 1 {
        screen := LevelComplete;
      } else {
        screen := Celebration;
      }
    }

    method OnParticlesFaded()
      requires Valid()
      modifies this
      ensures Valid() && State() == ClearParticles(old(State()))
    {
      particles := [];
    }
  }
}
