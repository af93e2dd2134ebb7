# Paddle Rivals in Dafny

Paddle Rivals is a two-paddle arcade game. Its game logic lives in one file,
`src/main.cpp`, and this project models the part of it that is not drawing
or sound:

- the playing tick of the timer callback:
  - both paddles move, by the held keys or by the single-player AI, and are
    clamped into their half-courts;
  - the ball is integrated at the rally speed and bounces off the walls and
    the paddles, each hit ramping the speed;
  - a goal scores and re-serves;
  - the match clock runs down, and the match ends on time or on the score
    limit;
- the set-up of a match: `resetBall`, `initRoundObjects`,
  `applySettingsToGame` and `startNewMatch`;
- the menu shell:
  - the ordinary-key callback, with its screen changes over the fourteen
    game states;
  - the in-place editing of the 32-byte name buffer;
  - the name and avatar confirmations that start a match;
  - the arrow-key callback, with its wrap-around cursors;
  - the key-release callbacks that keep the held-key tables.

The project has three modules:

- `Court` (court.dfy) holds the physics of one tick as pure functions over
  exact reals, with lemmas about them. These cover one hit per tick, no
  tunnelling, the ramp reaching exactly 2.0 after 20 hits, and the match
  length in ticks.
- `Menu` (menu.dfy) holds the screens as a datatype and the state each key
  leads to (`KeyTransition`), and the name editing as a function on strings.
- `Rivals` (rivals.dfy) holds the class `Game`:
  - the program's globals become its fields;
  - the key tables and the name buffer become arrays;
  - every callback and handler becomes a method, proved against the
    functions of the other two modules.

  The window size is fixed when the game is constructed (width at least 200,
  height at least 100). Each call of `rand()` becomes a boolean parameter
  (`coinX`, `coinY`), where true stands for `rand() % 2 == 0`.

Invariants that the methods keep:

- `NameBufferValid`: the buffer holds at most 31 printable characters and a
  NUL at `nameLength`.
- `MatchValid`:
  - `speedFactor == SpeedFor(hitsInRally)`, which keeps the factor within
    [1.0, 2.0];
  - on the playing, pause and game-over screens, the ball lies between the
    walls with |vx| = 6.

What an ordinary key does is specified once, by the two-state predicate
`KeyEffect`. Each screen's handler and `KeyPress` are proved against it.

## Model

| member | source | states |
|---|---|---|
| Court.Clamp | src/main.cpp:1209-1212 | the two-step clamp lands in [lo, hi], keeps values inside and sends values outside to the bound they passed |
| Court.ClampLeft | src/main.cpp:1254-1268 | player 1's paddle ends inside x in [40, W/2-60], y in [50, H-50]; a coordinate already inside is kept |
| Court.ClampRight | src/main.cpp:1254-1268 | player 2's paddle ends inside x in [W/2+60, W-40], y in [50, H-50]; a coordinate already inside is kept |
| Court.Intent | src/main.cpp:1195-1212 | the per-axis key sum clamped to [-1, 1] is the sign of the sum, so opposite keys cancel and doubled keys do not double the speed |
| Court.MoveByIntent | src/main.cpp:1214-1215 | player 1 moves exactly 8 per axis in the direction of the key sum, and not at all on a zero sum |
| Court.ManualMove | src/main.cpp:1247-1252 | player 2's arrows move exactly one speed step per held key; opposite keys cancel |
| Court.AiBaseSpeed | src/main.cpp:1219-1222 | the AI's step is between 5 and 11 |
| Court.HarderAiIsFaster | src/main.cpp:1219-1222 | the AI's step is 5, 8 and 11 per tick for Easy, Medium and Hard, so a harder setting is strictly faster |
| Court.Pursue | src/main.cpp:1224-1228 | a bounded pursuit never moves more than the step, snaps onto a target within the step and never overshoots |
| Court.AiTargetX | src/main.cpp:1230-1240 | on the AI's half the target is the ball's x clamped into [W/2+60, W-40], otherwise W-80 |
| Court.AiMove | src/main.cpp:1218-1246 | the AI moves at most base vertically and 0.7*base horizontally, snaps onto the ball's y and the target x when within a step, and stays between its start and the ball's y |
| Court.OverlapY | src/main.cpp:1292-1294 | the ball is level with a paddle exactly when their centres are at most 62 apart vertically (half the paddle plus the radius) |
| Court.CrossesLeft | src/main.cpp:1296-1300 | a ball whose left edge is in front of the face never crosses; one whose edge lies within the paddle's thickness always does, whatever its direction; one already behind the paddle does exactly when it started the tick at or in front of the face |
| Court.CrossesRight | src/main.cpp:1326-1330 | the mirror image of CrossesLeft for the right paddle's left face |
| Court.WallBounce | src/main.cpp:1277-1283 | the ball ends between the walls; a ball past a wall is set on it with vy negated, and any other ball is unchanged |
| Court.Deflection | src/main.cpp:1306-1307 | the vy change is 1.5 times the strike offset in half-heights: upwards above the centre, downwards below, zero at the centre, bounded by 1.5*62/50 |
| Court.BounceOffLeft | src/main.cpp:1302-1307 | the ball rests on the left paddle's face, heading right with its speed kept, vy deflected |
| Court.BounceOffRight | src/main.cpp:1332-1337 | the ball rests on the right paddle's face, heading left with its speed kept, vy deflected |
| Court.Fly | src/main.cpp:1270-1344 | the flight phase leaves the ball between the walls with its horizontal speed kept and at most two hits |
| Court.OneHitPerTick | src/main.cpp:1285-1344 | with both paddles in their half-courts, a tick hits at most one paddle |
| Court.NoTunnellingLeft | src/main.cpp:1285-1313 | a ball in front of player 1's face that is level with the paddle after moving stays in front of the face, whatever its speed, so it cannot score past that paddle |
| Court.NoTunnellingRight | src/main.cpp:1315-1344 | the mirror image for player 2's paddle and the right goal |
| Court.LeftRestingContactIgnoresDirection | src/main.cpp:1298-1304 | a level ball whose left edge is inside the paddle's span is a hit whatever its direction; a ball already moving right keeps its vx |
| Court.SpeedFor | src/main.cpp:1309 | the speed after n hits is in [1, 2], and reaches 2 exactly from 20 hits on |
| Court.Ramp | src/main.cpp:1309 | below 2.0 the ramp adds exactly 0.05; from 2.0 on it leaves the factor alone; it never slows the ball |
| Court.RampAdvancesOneHit | src/main.cpp:1309-1310 | one ramp step moves the speed for h hits to the speed for h+1 hits |
| Court.RampFromServe | src/main.cpp:1309-1310 | n ramp steps from a fresh serve's 1.0 give exactly SpeedFor(n), always within [1.0, 2.0] |
| Court.SpeedForMonotone | src/main.cpp:1309-1310 | more hits never mean a lower speed factor |
| Court.Serve | src/main.cpp:369-384 | the serve is at the court centre moving 6 horizontally and 4 vertically, each direction chosen by its coin |
| Court.GameTimeOption | src/main.cpp:95-96 | the match lengths are 60, 90 or 120 seconds |
| Court.MaxScoreOption | src/main.cpp:100-101 | the score limits are at most 7, and 0 (no limit) exactly for the last option |
| Court.Countdown | src/main.cpp:1367-1372 | the clock loses exactly 0.016 unless this tick expires it, in which case it reads 0; it never goes negative, and a non-negative clock never goes up |
| Court.ClockRunsDown | src/main.cpp:1367-1372 | from m ticks' worth of time, n ticks leave exactly m-n ticks' worth |
| Court.ClockExpiresOnTick | src/main.cpp:1367-1372 | a clock of m ticks' worth survives m-1 ticks and expires on tick m |
| Court.ScoreLimitReached | src/main.cpp:1374-1375 | a limit of 0 never ends the match; a positive limit ends it exactly when either score has reached it |
| Court.MatchLengthInTicks | src/main.cpp:409-412 | a 60, 90 or 120 second match ends by time on tick 3750, 5625 or 7500 |
| Menu.Prev | src/main.cpp:1105-1107 | a cursor moved up wraps from 0 to n-1: the result is (i-1) mod n |
| Menu.Next | src/main.cpp:1108-1110 | a cursor moved down wraps from n-1 to 0: the result is (i+1) mod n |
| Menu.PrevNextInverse | src/main.cpp:1104-1111 | up then down, or down then up, restores the cursor |
| Menu.MoveCursor | src/main.cpp:1120-1128 | the back arrow moves the cursor to (i-1) mod n, the forward arrow to (i+1) mod n, and every other key leaves it; it stays in range |
| Menu.Toggle | src/main.cpp:1114-1118 | either vertical arrow flips the two-entry mode cursor |
| Menu.KeyTransition | src/main.cpp:1020-1090 | only Enter, ESC and m/M ever change the screen; a match screen is entered from outside a match only by Enter on the last avatar screen; a name screen is entered only by Enter or ESC |
| Menu.EscapeTogglesPause | src/main.cpp:1071-1078 | ESC pauses a running match and resumes a paused one |
| Menu.MenuKeyLeavesMatch | src/main.cpp:1075-1089 | M leaves the pause and game-over screens for the main menu |
| Menu.PlayingEntries | src/main.cpp:1047-1078 | play is entered only by Enter on the last avatar screen or by ESC from pause, and is left by a key only for the pause screen |
| Menu.GameOverIsSticky | src/main.cpp:1084-1089 | the game-over screen reacts to M only |
| Menu.EditName | src/main.cpp:1006-1013 | backspace drops the last character and does nothing on an empty name; a printable key is appended only below 31 characters; other keys are ignored; the name stays printable and at most 31 long |
| Menu.BackspaceUndoesTyping | src/main.cpp:1006-1013 | backspace removes exactly the character just typed |
| Menu.ConfirmedName | src/main.cpp:605-610 | the confirmed name is never empty, and is the typed name when one was typed |
| Menu.AiName | src/main.cpp:707-709 | the opponent's name starts with "AI (" and fits the 31 characters a player name holds |
| Menu.AiNamesDistinct | src/main.cpp:707-709 | the three difficulties give three different opponent names |
| Rivals.Game.constructor | src/main.cpp:31-142 | the start-up values of the globals: main menu, the default cursors and settings, empty name buffer, no key held |
| Rivals.Game.ResetBall | src/main.cpp:369-384 | the ball is served from the centre, the previous position is the serve, and the rally restarts at speed 1.0 with no hits |
| Rivals.Game.InitRoundObjects | src/main.cpp:386-407 | the paddles go to (80, H/2) and (W-80, H/2), the scores are zeroed only when asked, then a serve |
| Rivals.Game.ApplySettingsToGame | src/main.cpp:409-412 | the match length and score limit come from the settings tables |
| Rivals.Game.StartNewMatch | src/main.cpp:414-417 | a fresh match: the settings applied, zero scores, the start positions and a serve |
| Rivals.Game.ClearName | src/main.cpp:1033-1034 | the buffer becomes empty: a NUL in cell 0 and length 0, nothing else written |
| Rivals.Game.HandleEnterOnMainMenu | src/main.cpp:496-505 | Enter opens the mode, how-to-play or settings screen, or exits on the fourth entry |
| Rivals.Game.HandleEnterOnModeMenu | src/main.cpp:539-548 | the mode is set from the cursor; single player goes to the difficulty screen, two players to player 1's name with an emptied buffer |
| Rivals.Game.FinishSingleNameInput | src/main.cpp:605-613 | player 1's name is the typed one or "Player 1", the avatar cursor starts on player 1's avatar, and the single avatar screen follows; this is exactly KeyEffect of Enter |
| Rivals.Game.FinishMultiNameP1 | src/main.cpp:615-625 | as FinishSingleNameInput for player 1 in two-player mode, and the buffer is emptied for player 2 |
| Rivals.Game.FinishMultiNameP2 | src/main.cpp:627-635 | player 2's name is the typed one or "Player 2", and player 2's avatar screen follows |
| Rivals.Game.FinishAvatarSingle | src/main.cpp:704-715 | player 1 keeps the chosen avatar, the AI is named after the difficulty, and a fresh single-player match is playing |
| Rivals.Game.FinishAvatarMultiP1 | src/main.cpp:717-722 | player 1 keeps the chosen avatar, and player 2's name screen follows with an emptied buffer |
| Rivals.Game.FinishAvatarMultiP2 | src/main.cpp:724-730 | player 2 keeps the chosen avatar, and a fresh two-player match is playing |
| Rivals.Game.EditNameBuffer | src/main.cpp:1006-1013 | the in-place edit keeps the buffer NUL-terminated and printable, and its text becomes EditName of the old text |
| Rivals.Game.HandleNameInputKey | src/main.cpp:990-1014 | on a name screen, ESC goes back, Enter confirms and the other keys edit, exactly as KeyEffect states; both invariants are kept |
| Rivals.Game.MainMenuKey | src/main.cpp:1022-1024 | the main menu's keys have exactly the effect KeyEffect states |
| Rivals.Game.ModeSelectKey | src/main.cpp:1026-1029 | the mode screen's keys have exactly the effect KeyEffect states |
| Rivals.Game.DifficultySelectKey | src/main.cpp:1031-1039 | the difficulty screen's keys have exactly the effect KeyEffect states: Enter empties the buffer for the name screen |
| Rivals.Game.AvatarSingleKey | src/main.cpp:1047-1050 | the single avatar screen's keys have exactly the effect KeyEffect states, and Enter leaves a fresh match |
| Rivals.Game.AvatarMultiP1Key | src/main.cpp:1052-1055 | player 1's avatar screen's keys have exactly the effect KeyEffect states |
| Rivals.Game.AvatarMultiP2Key | src/main.cpp:1057-1060 | player 2's avatar screen's keys have exactly the effect KeyEffect states, and Enter leaves a fresh match |
| Rivals.Game.HowToPlayKey | src/main.cpp:1062-1064 | the how-to-play screen's keys have exactly the effect KeyEffect states |
| Rivals.Game.SettingsKey | src/main.cpp:1066-1069 | the settings screen's keys have exactly the effect KeyEffect states: ESC, or Enter on Back, returns to the main menu |
| Rivals.Game.PlayingKey | src/main.cpp:1071-1073 | during play only ESC acts, pausing the match; nothing of the match changes |
| Rivals.Game.PausedKey | src/main.cpp:1075-1082 | ESC resumes and M leaves for the main menu; nothing of the match changes |
| Rivals.Game.GameOverKey | src/main.cpp:1084-1089 | M leaves for the main menu; nothing of the match changes |
| Rivals.Game.ScreenKey | src/main.cpp:1020-1090 | whatever the screen, the key has exactly the effect KeyEffect states, and both invariants are kept |
| Rivals.Game.KeyPress | src/main.cpp:1018-1093 | the key is marked held and nothing else in the table changes; the screen, exit flag, name buffer, names, mode and avatars change exactly as KeyEffect states; the match changes only when Enter starts one, and is then fresh |
| Rivals.Game.KeyRelease | src/main.cpp:1095-1097 | the key is marked released and nothing else in the table changes |
| Rivals.Game.SpecialKey | src/main.cpp:1100-1179 | the arrow is marked held; exactly the current screen's cursor moves, wrapping at both ends, and every other cursor is unchanged |
| Rivals.Game.SpecialKeyRelease | src/main.cpp:1181-1183 | the arrow is marked released and nothing else in the table changes |
| Rivals.Game.P1KeysX | src/main.cpp:1199-1206 | player 1's horizontal key sum lies in [-2, 2], and in [-1, 1] in two-player mode; it is positive only when a right key is held (D, or the right arrow in single-player mode) and negative only when a left key is |
| Rivals.Game.P1KeysY | src/main.cpp:1197-1204 | player 1's vertical key sum lies in [-2, 2], and in [-1, 1] in two-player mode; it is positive only when an up key is held (W, or the up arrow in single-player mode) and negative only when a down key is |
| Rivals.Game.P2Move | src/main.cpp:1218-1252 | player 2 moves at most 8 horizontally and 11 vertically; the AI snaps onto the ball's height when within a step; with no arrow held, a human player 2 stays put |
| Rivals.Game.MovePaddles | src/main.cpp:1194-1268 | player 1 moves by the clamped key intents, player 2 by the AI or the arrows, and both end in their half-courts |
| Rivals.Game.MoveBall | src/main.cpp:1270-1344 | the ball ends as Fly computes from the tick's start, with at most one hit; the hit count grows by the hits, and the speed factor follows it, never decreasing |
| Rivals.Game.ScoreGoals | src/main.cpp:1346-1364 | past the left edge player 2 scores exactly one, past the right edge player 1 does; at most one goal per tick; a goal re-serves with a red or blue flash and a shake of 3.0; otherwise nothing changes |
| Rivals.Game.RunMatchClock | src/main.cpp:1366-1378 | the clock loses 0.016 and is floored at 0; the match is over exactly when time expires or a nonzero limit is reached, and otherwise still playing |
| Rivals.Game.FlyAndScore | src/main.cpp:1270-1364 | the flight and goal phases together: a goal re-serves, and a rally in play keeps the ball from Fly and the ramped speed |
| Rivals.Game.PlayTick | src/main.cpp:1192-1378 | the whole playing branch: paddles, flight, goals, clock and end of match, keeping the speed and ball invariants |
| Rivals.Game.Tick | src/main.cpp:1192-1383 | a tick plays while a match runs and otherwise leaves the match and the screen untouched; the flash and shake counters run down by one (to at least 0) on every tick |

## Left out

- Drawing, the spinning menu cube, the shake offsets applied at render
  time, themes and colour tables: they affect only what is displayed.
- The window reshape callback: it changes the window size, which the tick
  reads for the paddle clamps, the AI's band, the walls, the right goal line
  and the serve. In the model the size is a constant fixed when the game is
  constructed, with width at least 200 and height at least 100. The model
  does not capture a resize during a match, nor the smaller windows (down
  to 1 x 1) the source allows.
- Music and message boxes: audio side effects with no game state.
- `std::exit(0)` on the main menu's Exit entry: modelled as the `exited`
  flag; the screen stays the main menu.
- `rand()` and `srand`: each direction coin of a serve is a parameter.
- Single-precision float rounding: all physics is over exact reals. The
  speed ramp landing exactly on 2.0, and the clock stepping by exactly
  0.016, hold only over the reals.
- 32-bit overflow of the scores and the hit counter: they are unbounded
  naturals in the model. It would take more than two billion goals or hits.
- Special keys are taken as codes below 256, the size of the table the
  source indexes.
- Player names are sequences of characters. The 32-byte `strncpy` into
  them is modelled as a copy of the typed name, which is at most 31
  characters and so always fits.
- Rivals.Game.InitRoundObjects: does not claim that the paddles start inside
  their half-courts. For windows narrower than 280, the start x of 80 lies
  beyond W/2-60, and the first tick's clamp corrects it.
- Rivals.Game.ScreenKey: the per-screen methods it calls are a structure of
  the model. The source handles every screen inside one switch of the key
  callback.
