# Tracing game progress state machine

This project models the game-progress logic of the `Index` screen of a
children's letter-tracing game (app/index.tsx). The game has three fixed
levels of five symbols each ("MATEO", "12345", "AEIOU"). The child traces
the current symbol in a drawing area. Each pointer move adds one sample to
the stroke. On release, a stroke of more than 20 samples completes the
symbol. Completion flags the symbol, fires a batch of 20 coloured
particles, and schedules one of two delayed callbacks:

- after a non-last symbol, a 2000 ms timer moves to the next symbol and clears the stroke;
- after the last symbol, a 1500 ms timer shows the level-done screen, or the celebration screen after the final level.

From the level-done screen, "next level" enters the next level. From the
welcome or celebration screen, "play" restarts from level 0.

The model has four modules:

- `Levels` holds the static level table `LEVELS` and the three-colour palette.
- `Progress` gives each transition as a function on a `State` record (screen, level index, letter index, completion flags, stroke samples, particles). It also defines the invariant `Inv`, and the contract of each function states what the transition does.
- `Index` is the component as a class. Its fields are the React hooks, and its methods are the handlers and timer bodies. Each method either needs or keeps `Valid()`, and each is proved to compute the corresponding `Progress` function.
- `Session` models the host event loop. It keeps the list of pending timers, and `Run` plays a trace of button presses, pointer events, timer firings and particle fades. A button press or pointer event arrives only on the screen that renders its button or drawing area. Lemmas over traces prove these properties:
  - strokes accumulate across releases;
  - playing a level flags every symbol;
  - the whole game ends in celebration;
  - the start-and-trace-"M" scenario ends with only the first flag set;
  - timers are never cancelled, and what follows from that.

The source calls `Date.now()` once per particle and adds the particle's index to it. The model takes the readings as a parameter `clock: nat -> int`, where `clock(i)` is the reading for particle i. The colour draw `Math.floor(Math.random() * 3)` becomes a parameter `draw: nat -> Pick`, where a `Pick` is in 0..2. Touch coordinates become integer pairs.

Details of the source that are easy to misread:
- The completion test is strict (`drawingPoints.length > 20`, app/index.tsx:101), so at least 21 samples are needed, and `Release` with exactly 20 samples changes nothing.
- The last-symbol timer does not clear the stroke. Only the non-last timer (app/index.tsx:301) and `nextLevel` (app/index.tsx:157) clear it.
- `startGame` does not touch the particles hook.
- The handlers do not check the screen. The model's handlers do not check it either. Only the view decides which events can arrive (`Session.Enabled`).

The delayed callbacks use the values their closures captured: the letter index in the advance timer and the level index in the level-done timer. So `Timer` carries those values, and firing a timer reads them, not the current state. Timers are never cancelled. A second release during the level-done delay therefore schedules a second level-done timer. `Session.StaleTimerSkipsLevel` shows that, when this timer runs after "next level", the level-done screen comes up for level 1 with none of its symbols traced. The model keeps this behaviour as written.

## Model

| member | source | states |
|---|---|---|
| Levels.Content | app/index.tsx:15-55 | every level of the table has exactly five symbols |
| Levels.Palette | app/index.tsx:173 | a particle colour is one of the theme's primary, secondary or accent colours, and only those |
| Progress.Cleared | app/index.tsx:148 | the fresh flag list has the requested length and no flag set |
| Progress.Initial | app/index.tsx:59-70 | the initial hooks satisfy the invariant; the literal five-flag list equals level 0's cleared list; welcome screen, level 0, letter 0, no samples |
| Progress.StartGame | app/index.tsx:143-150 | from any state: playing screen, level 0, letter 0, flags all false and sized to level 0's symbols, stroke empty; invariant holds |
| Progress.NextLevel | app/index.tsx:152-166 | on a non-final level: next level, letter 0, all-false flags sized to that level, empty stroke, playing screen; on the final level only the screen changes, to celebration; invariant kept |
| Progress.Move | app/index.tsx:90-98 | exactly one sample is appended at the end, earlier samples and every other field unchanged, invariant kept |
| Progress.ParticleBatch | app/index.tsx:168-175 | exactly 20 particles, the i-th with identifier clock(i) + i and a colour from the level's three-colour palette |
| Progress.Completion | app/index.tsx:253-304 | flag of the current symbol set, every other flag and the list length unchanged, indices, screen and stroke unchanged, a 20-particle batch in the level's palette; schedules the level-done timer for the current level exactly when the symbol is the last, else the advance timer for the current letter; invariant kept |
| Progress.Release | app/index.tsx:99-104 | a timer is scheduled if and only if there are more than 20 samples; with 20 or fewer the state is unchanged; otherwise it is the completion step |
| Progress.FireAdvance | app/index.tsx:299-302 | letter becomes the captured letter + 1, stroke empty, all else unchanged, and the letter stays below the level's symbol count |
| Progress.FireFinishLevel | app/index.tsx:284-297 | level-done screen when the captured level is not the final one, celebration when it is; level, letter, flags and stroke unchanged |
| Progress.Fire | app/index.tsx:284-303 | running either timer body keeps the invariant |
| Progress.ClearParticles | app/index.tsx:182 | the particle batch is emptied and nothing else changes |
| Session.Boot | app/index.tsx:59-70 | the session starts in the initial state with no pending timer, and is good |
| Session.Apply | app/index.tsx:83-304 | every event (start, next level, move, release, timer, fade) keeps the invariant on the state and on every pending timer; an event the current view cannot deliver changes nothing |
| Session.Run | app/index.tsx:59-304 | the invariant holds in every state reachable by any trace of events from a good configuration |
| Session.RunMoves | app/index.tsx:95-97 | a run of move events appends exactly those samples in order and changes nothing else |
| Session.StrokesAccumulate | app/index.tsx:86-104 | a stroke of at most 20 samples and a release change only the samples; a further stroke that takes the total above 20 completes the symbol on release |
| Session.RoundAdvances | app/index.tsx:90-302 | tracing a non-last symbol and letting its timer run flags it, moves to the next letter and clears the stroke |
| Session.RoundFinishes | app/index.tsx:90-297 | tracing the last symbol and letting its timer run flags it and shows level-done, or celebration on the final level, keeping the stroke |
| Session.PlayRestOfLevel | app/index.tsx:253-304 | tracing every remaining symbol in order, each with its own stroke of more than 20 samples and its own clock readings and colour draws, sets the flags from the current letter on, keeps the earlier ones, and ends on the level-done or celebration screen |
| Session.PlayLevel | app/index.tsx:253-304 | playing a level from its first symbol, each symbol with its own stroke, clock readings and colour draws, sets all five flags and ends on level-done, or celebration on the final level |
| Session.PlayWholeGame | app/index.tsx:143-304 | start, three traced levels (each of the fifteen symbols with its own stroke, clock readings and colour draws) and two "next level" presses end on celebration at the final level with every flag set |
| Session.FirstSymbolScenario | app/index.tsx:90-302 | start, 25 samples, release and the delay give flags [true, false, false, false, false], letter 1, level 0, playing, empty stroke |
| Session.StaleTimerSkipsLevel | app/index.tsx:284-297 | a second release during the level-done delay, then "next level", then the stale timer, shows level-done for level 1 with no flag set |
| Index.Component.constructor | app/index.tsx:59-70 | the object starts in the initial state and is valid |
| Index.Component.StartGame | app/index.tsx:143-150 | from any object state, the new state is the `startGame` transition and is valid |
| Index.Component.NextLevel | app/index.tsx:152-166 | the new state is the `nextLevel` transition of the old one |
| Index.Component.OnMove | app/index.tsx:90-98 | the stroke is the old stroke with the sample appended; the new state is the move transition |
| Index.Component.HandleLetterComplete | app/index.tsx:253-304 | the new state and the returned timer are the completion step of the old state |
| Index.Component.OnRelease | app/index.tsx:99-104 | the new state and the optional timer are the release step of the old state |
| Index.Component.FireAdvanceTimer | app/index.tsx:299-302 | letter becomes the captured letter + 1 and the stroke is emptied, as the advance transition states |
| Index.Component.FireLevelDoneTimer | app/index.tsx:284-297 | the screen is set as the level-done transition states for the captured level |
| Index.Component.OnParticlesFaded | app/index.tsx:182 | the particles are emptied as `ClearParticles` states |

## Left out

- Rendering and styles (app/index.tsx:310-701): markup with no state logic. What the views do decide is which events can arrive. The start button is on the welcome and celebration views (325, 378), the next-level button on the level-done view (347), and the drawing area with its pointer handlers on the playing view (453). `Session.Enabled` keeps exactly that and nothing else of the views. The `Index.Component` methods, like the source's handlers, do not check the screen.
- `Animated` loops, springs and timings (app/index.tsx:107-141, 161-164, 177-182, 260-282, 292-295): cosmetic and driven by the host animation engine. Only the fade's completion callback, which empties the particles, is modelled.
- Sound and speech (`playFanfare`, `playBellSound`, `speakCurrentLetter`, app/index.tsx:185-251): foreign Web Audio and speech-synthesis calls that change no state. Only `playFanfare` (186-206) and `playBellSound` (211-239) catch their errors. `speakCurrentLetter` (243-251) has no try/catch. It runs at line 256, before the particles, the flag update and the timer, so if it throws on web, the release ends with no flag set, no particles and no timer. The model assumes it returns normally and leaves that exception path out: `Progress.Completion` and `Progress.Release` always complete.
- Logging: the `console.log` calls (app/index.tsx:108, 144, 254) are dropped.
- Particle positions and sizes (app/index.tsx:171-174): floats from `Math.random` and the window size. Identifiers and colour choice are kept, with the `Date.now()` readings and the colour draws passed in.
- Real time: the 2000 ms and 1500 ms delays are not modelled. Any pending timer may fire next, which covers every order the real delays allow, so the invariants also hold for the real ordering.
- React closure and re-render semantics (the `useMemo` dependency at app/index.tsx:105): the model reads the state current at each event. The pan responder is rebuilt whenever the stroke changes, so its snapshot lags the current state only after a completion that has not yet cleared the stroke. A second release in that window copies the flags from before the completion and sets the same flag again, which gives the same flags.
- Touch coordinates: integer pairs instead of floats.
- app/_layout.tsx: navigation scaffolding with no logic; it is not part of this model.
