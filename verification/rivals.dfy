/**
  The game object of Paddle Rivals: the globals of the program as the fields
  of one class, the playing tick, the keyboard and arrow-key callbacks, the
  name editor and the handlers that confirm names and avatars and start a
  match. The window is width x height (at least 200 x 100); a random coin is
  a boolean parameter, true standing for rand() % 2 == 0.
 */
module Rivals {
  import opened Court
  import opened Menu

  class Game {
    const width: int
    const height: int

    // Fixed-size buffers: the name being typed and the held-key tables.
    const nameBuffer: array<char>
    const keyDown: array<bool>
    const specialDown: array<bool>

    // Screens and menu selections.
    var currentState: GameState
    var exited: bool
    var mainMenuIndex: Cursor4
    var modeMenuIndex: Cursor2
    var difficultyIndex: Cursor3
    var settingsCursor: Cursor4
    var avatarCursor: Cursor4
    var themeIndex: Cursor3
    var gameTimeIndex: Cursor3
    var maxScoreIndex: Cursor4
    var isSinglePlayer: bool
    var player1Name: string
    var player2Name: string
    var player1AvatarIndex: Cursor4
    var player2AvatarIndex: Cursor4
    var nameLength: int

    // The match.
    var p1: Paddle
    var p2: Paddle
    var ball: Ball
    var prevBallX: real
    var prevBallY: real
    var scoreP1: nat
    var scoreP2: nat
    var timeLeft: real
    var maxScore: nat
    var speedFactor: real
    var hitsInRally: nat

    // Feedback for the renderer after a goal.
    var flashFrames: nat
    var flashR: real
    var flashG: real
    var flashB: real
    var shakeFrames: nat
    var shakeIntensity: real

    /** Once a match has been set up: the ball lies between the walls at the base horizontal speed. */
    ghost predicate CourtInvariant()
      reads this`ball
    {
      BallRadius <= ball.y <= height as real - BallRadius && Abs(ball.vx) == BaseVx
    }

    /** The name buffer holds a printable name of at most 31 characters followed by a NUL. */
    ghost predicate NameBufferValid()
      reads this`nameLength, nameBuffer
    {
      && nameBuffer.Length == MaxNameLength + 1
      && 0 <= nameLength <= MaxNameLength && nameBuffer[nameLength] == '\0'
      && Printable(nameBuffer[..nameLength])
    }

    ghost predicate Valid()
      reads this`nameLength, nameBuffer, this`speedFactor, this`hitsInRally, this`currentState, this`ball
    {
      && CourtSize(width, height)
      && keyDown.Length == 256 && specialDown.Length == 256 && keyDown != specialDown
      && NameBufferValid()
      && MatchValid()
    }

    /** The rally's speed factor matches its hit count, and a shown match has a ball in court. */
    ghost predicate MatchValid()
      reads this`speedFactor, this`hitsInRally, this`currentState, this`ball
    {
      && speedFactor == SpeedFor(hitsInRally)
      && (InMatch(currentState) ==> CourtInvariant())
    }

    /** The name typed so far: the buffer up to its terminating NUL. */
    ghost function NameText(): string
      reads this`nameLength, nameBuffer
      requires 0 <= nameLength <= nameBuffer.Length
    {
      nameBuffer[..nameLength]
    }

    /** The ball as resetBall leaves it, with a fresh rally. */
    ghost predicate Served(coinX: bool, coinY: bool)
      reads this`ball, this`prevBallX, this`prevBallY, this`speedFactor, this`hitsInRally
    {
      && ball == Serve(width, height, coinX, coinY)
      && prevBallX == ball.x && prevBallY == ball.y
      && speedFactor == 1.0 && hitsInRally == 0
    }

    /** The match as startNewMatch leaves it. */
    ghost predicate FreshMatch(coinX: bool, coinY: bool)
      reads this`gameTimeIndex, this`maxScoreIndex, this`timeLeft, this`maxScore, this`scoreP1, this`scoreP2
      reads this`p1, this`p2, this`ball, this`prevBallX, this`prevBallY, this`speedFactor, this`hitsInRally
    {
      && timeLeft == GameTimeOption(gameTimeIndex) as real
      && maxScore == MaxScoreOption(maxScoreIndex)
      && scoreP1 == 0 && scoreP2 == 0
      && p1 == Paddle(80.0, height as real / 2.0)
      && p2 == Paddle(width as real - 80.0, height as real / 2.0)
      && Served(coinX, coinY)
    }

    twostate predicate MatchUnchanged()
      reads this`p1, this`p2, this`ball, this`prevBallX, this`prevBallY, this`scoreP1, this`scoreP2
      reads this`timeLeft, this`maxScore, this`speedFactor, this`hitsInRally
    {
      unchanged(this`p1, this`p2, this`ball, this`prevBallX, this`prevBallY, this`scoreP1, this`scoreP2,
                this`timeLeft, this`maxScore, this`speedFactor, this`hitsInRally)
    }

    /** The program's start-up values of its globals. */
    constructor (w: int, h: int)
      requires CourtSize(w, h)
      ensures Valid()
      ensures width == w && height == h
      ensures fresh(nameBuffer) && fresh(keyDown) && fresh(specialDown)
      ensures currentState == MainMenu && !exited
      ensures mainMenuIndex == 0 && modeMenuIndex == 0 && difficultyIndex == 1
      ensures settingsCursor == 0 && avatarCursor == 0 && themeIndex == 2
      ensures gameTimeIndex == 1 && maxScoreIndex == 1
      ensures isSinglePlayer && player1Name == "Player 1" && player2Name == "Player 2"
      ensures player1AvatarIndex == 0 && player2AvatarIndex == 1
      ensures NameText() == []
      ensures scoreP1 == 0 && scoreP2 == 0 && timeLeft == 90.0 && maxScore == 5
      ensures speedFactor == 1.0 && hitsInRally == 0
      ensures forall k :: 0 <= k < 256 ==> !keyDown[k] && !specialDown[k]
    {
      width, height := w, h;
      nameBuffer := new char[MaxNameLength + 1](_ => '\0');
      keyDown := new bool[256](_ => false);
      specialDown := new bool[256](_ => false);
      currentState, exited := MainMenu, false;
      mainMenuIndex, modeMenuIndex, difficultyIndex := 0, 0, 1;
      settingsCursor, avatarCursor, themeIndex := 0, 0, 2;
      gameTimeIndex, maxScoreIndex := 1, 1;
      isSinglePlayer := true;
      player1Name, player2Name := "Player 1", "Player 2";
      player1AvatarIndex, player2AvatarIndex := 0, 1;
      nameLength := 0;
      p1, p2 := Paddle(0.0, 0.0), Paddle(0.0, 0.0);
      ball := Ball(0.0, 0.0, 0.0, 0.0);
      prevBallX, prevBallY := 0.0, 0.0;
      scoreP1, scoreP2 := 0, 0;
      timeLeft, maxScore := 90.0, 5;
      speedFactor, hitsInRally := 1.0, 0;
      flashFrames, flashR, flashG, flashB := 0, 1.0, 1.0, 1.0;
      shakeFrames, shakeIntensity := 0, 0.0;
    }

    // -------------------------------------------------------------------
    // Match set-up

    /** Serve from the centre with the given direction coins and restart the rally. */
    method ResetBall(coinX: bool, coinY: bool)
      modifies this`hitsInRally, this`speedFactor, this`ball, this`prevBallX, this`prevBallY
      ensures Served(coinX, coinY)
    {
      hitsInRally := 0;
      speedFactor := 1.0;
      ball := Serve(width, height, coinX, coinY);
      prevBallX := ball.x;
      prevBallY := ball.y;
    }

    /** Paddles to their start positions, scores optionally to zero, then a serve. */
    method InitRoundObjects(resetScores: bool, coinX: bool, coinY: bool)
      modifies this`p1, this`p2, this`scoreP1, this`scoreP2
      modifies this`hitsInRally, this`speedFactor, this`ball, this`prevBallX, this`prevBallY
      ensures p1 == Paddle(80.0, height as real / 2.0)
      ensures p2 == Paddle(width as real - 80.0, height as real / 2.0)
      ensures resetScores ==> scoreP1 == 0 && scoreP2 == 0
      ensures !resetScores ==> scoreP1 == old(scoreP1) && scoreP2 == old(scoreP2)
      ensures Served(coinX, coinY)
    {
      p1 := Paddle(80.0, height as real / 2.0);
      p2 := Paddle(width as real - 80.0, height as real / 2.0);
      if resetScores {
        scoreP1, scoreP2 := 0, 0;
      }
      ResetBall(coinX, coinY);
    }

    /** Match length and score limit from the Settings selections. */
    method ApplySettingsToGame()
      modifies this`timeLeft, this`maxScore
      ensures timeLeft == GameTimeOption(gameTimeIndex) as real
      ensures maxScore == MaxScoreOption(maxScoreIndex)
    {
      timeLeft := GameTimeOption(gameTimeIndex) as real;
      maxScore := MaxScoreOption(maxScoreIndex);
    }

    method StartNewMatch(coinX: bool, coinY: bool)
      modifies this`timeLeft, this`maxScore, this`p1, this`p2, this`scoreP1, this`scoreP2
      modifies this`hitsInRally, this`speedFactor, this`ball, this`prevBallX, this`prevBallY
      ensures FreshMatch(coinX, coinY)
    {
      ApplySettingsToGame();
      InitRoundObjects(true, coinX, coinY);
    }

    // -------------------------------------------------------------------
    // Menu handlers

    /** Empties the name buffer: a NUL in the first cell and length zero. */
    method ClearName()
      requires NameBufferValid()
      modifies this`nameLength, nameBuffer
      ensures NameBufferValid() && NameText() == []
      ensures nameBuffer[..] == old(nameBuffer[..])[0 := '\0']
    {
      nameBuffer[0] := '\0';
      nameLength := 0;
    }

    method HandleEnterOnMainMenu()
      modifies this`currentState, this`exited
      ensures mainMenuIndex == 0 ==> currentState == ModeSelect
      ensures mainMenuIndex == 1 ==> currentState == HowToPlay
      ensures mainMenuIndex == 2 ==> currentState == Settings
      ensures mainMenuIndex == 3 ==> currentState == old(currentState)
      ensures exited == (old(exited) || mainMenuIndex == 3)
    {
      if mainMenuIndex == 0 {
        currentState := ModeSelect;
      } else if mainMenuIndex == 1 {
        currentState := HowToPlay;
      } else if mainMenuIndex == 2 {
        currentState := Settings;
      } else {
        exited := true;
      }
    }

    method HandleEnterOnModeMenu()
      requires NameBufferValid()
      modifies this`isSinglePlayer, this`currentState, this`nameLength, nameBuffer
      ensures NameBufferValid()
      ensures isSinglePlayer == (modeMenuIndex == 0)
      ensures isSinglePlayer ==> currentState == DifficultySelect && NameText() == old(NameText())
      ensures !isSinglePlayer ==> currentState == NameInputMultiP1 && NameText() == []
    {
      isSinglePlayer := modeMenuIndex == 0;
      if isSinglePlayer {
        currentState := DifficultySelect;
      } else {
        ClearName();
        currentState := NameInputMultiP1;
      }
    }

    /** Confirms the single player's name; an empty one becomes "Player 1". */
    method FinishSingleNameInput()
      requires NameBufferValid()
      modifies this`player1Name, this`avatarCursor, this`currentState
      ensures player1Name == ConfirmedName(NameText(), "Player 1")
      ensures avatarCursor == player1AvatarIndex && currentState == AvatarSelectSingle
      ensures old(currentState) == NameInputSingle ==> KeyEffect(KeyEnter)
    {
      // strncpy of at most 31 bytes stops at the NUL after the typed name.
      player1Name := if nameLength == 0 then "Player 1" else nameBuffer[..nameLength];
      avatarCursor := player1AvatarIndex;
      currentState := AvatarSelectSingle;
    }

    /** Confirms player 1's name in two-player mode and empties the buffer for player 2. */
    method FinishMultiNameP1()
      requires NameBufferValid()
      modifies this`player1Name, this`avatarCursor, this`currentState, this`nameLength, nameBuffer
      ensures NameBufferValid()
      ensures player1Name == ConfirmedName(old(NameText()), "Player 1")
      ensures NameText() == []
      ensures avatarCursor == player1AvatarIndex && currentState == AvatarSelectMultiP1
      ensures old(currentState) == NameInputMultiP1 ==> KeyEffect(KeyEnter)
    {
      player1Name := if nameLength == 0 then "Player 1" else nameBuffer[..nameLength];
      ClearName();
      avatarCursor := player1AvatarIndex;
      currentState := AvatarSelectMultiP1;
    }

    /** Confirms player 2's name; an empty one becomes "Player 2". */
    method FinishMultiNameP2()
      requires NameBufferValid()
      modifies this`player2Name, this`avatarCursor, this`currentState
      ensures player2Name == ConfirmedName(NameText(), "Player 2")
      ensures avatarCursor == player2AvatarIndex && currentState == AvatarSelectMultiP2
      ensures old(currentState) == NameInputMultiP2 ==> KeyEffect(KeyEnter)
    {
      player2Name := if nameLength == 0 then "Player 2" else nameBuffer[..nameLength];
      avatarCursor := player2AvatarIndex;
      currentState := AvatarSelectMultiP2;
    }

    /** Keeps player 1's avatar, names the AI after the difficulty and starts the match. */
    method FinishAvatarSingle(coinX: bool, coinY: bool)
      modifies this`player1AvatarIndex, this`player2Name, this`isSinglePlayer, this`currentState
      modifies this`timeLeft, this`maxScore, this`p1, this`p2, this`scoreP1, this`scoreP2
      modifies this`hitsInRally, this`speedFactor, this`ball, this`prevBallX, this`prevBallY
      ensures player1AvatarIndex == avatarCursor && player2Name == AiName(difficultyIndex)
      ensures isSinglePlayer && currentState == Playing
      ensures FreshMatch(coinX, coinY)
    {
      player1AvatarIndex := avatarCursor;
      player2Name := AiName(difficultyIndex);
      isSinglePlayer := true;
      StartNewMatch(coinX, coinY);
      currentState := Playing;
    }

    /** Keeps player 1's avatar and moves on to player 2's name with an empty buffer. */
    method FinishAvatarMultiP1()
      requires NameBufferValid()
      modifies this`player1AvatarIndex, this`currentState, this`nameLength, nameBuffer
      ensures NameBufferValid()
      ensures player1AvatarIndex == avatarCursor && currentState == NameInputMultiP2
      ensures NameText() == []
    {
      player1AvatarIndex := avatarCursor;
      ClearName();
      currentState := NameInputMultiP2;
    }

    /** Keeps player 2's avatar and starts a two-player match. */
    method FinishAvatarMultiP2(coinX: bool, coinY: bool)
      modifies this`player2AvatarIndex, this`isSinglePlayer, this`currentState
      modifies this`timeLeft, this`maxScore, this`p1, this`p2, this`scoreP1, this`scoreP2
      modifies this`hitsInRally, this`speedFactor, this`ball, this`prevBallX, this`prevBallY
      ensures player2AvatarIndex == avatarCursor
      ensures !isSinglePlayer && currentState == Playing
      ensures FreshMatch(coinX, coinY)
    {
      player2AvatarIndex := avatarCursor;
      isSinglePlayer := false;
      StartNewMatch(coinX, coinY);
      currentState := Playing;
    }

    /**
      An editing key on a name screen, in place: backspace drops the last
      character, a printable key is appended while there is room for it and
      the NUL, and any other key is ignored.
     */
    method EditNameBuffer(key: Byte)
      requires NameBufferValid()
      modifies this`nameLength, nameBuffer
      ensures NameBufferValid() && NameText() == EditName(old(NameText()), key)
      ensures EditsName(currentState, key) ==> KeyEffect(key)
    {
      if key == KeyBackspace {
        if nameLength > 0 {
          nameLength := nameLength - 1;
          nameBuffer[nameLength] := '\0';
        }
      } else if IsPrintableKey(key) {
        if nameLength < nameBuffer.Length - 1 {
          nameBuffer[nameLength] := key as char;
          nameLength := nameLength + 1;
          nameBuffer[nameLength] := '\0';
        }
      }
    }

    /**
      A key on a name screen: ESC goes back, Enter confirms, and every other
      key edits the buffer in place (backspace, or a printable append while
      there is room).
     */
    method HandleNameInputKey(key: Byte)
      requires NameBufferValid() && MatchValid() && IsNameInput(currentState)
      modifies this`currentState, this`nameLength, this`player1Name, this`player2Name, this`avatarCursor, nameBuffer
      ensures NameBufferValid() && MatchValid() && KeyEffect(key)
    {
      if key == KeyEscape {
        if currentState == NameInputSingle {
          currentState := DifficultySelect;
        } else {
          currentState := ModeSelect;
        }
      } else if key == KeyEnter {
        if currentState == NameInputSingle {
          FinishSingleNameInput();
        } else if currentState == NameInputMultiP1 {
          FinishMultiNameP1();
        } else {
          FinishMultiNameP2();
        }
      } else {
        EditNameBuffer(key);
      }
    }

    // -------------------------------------------------------------------
    // Keyboard callbacks

    /**
      What an ordinary key does besides marking itself held: the screen
      change of KeyTransition, Exit, the edits and clears of the name buffer,
      the confirmations of names, mode and avatars, and the start of a match.
      The match changes only when one starts (see KeyPress).
     */
    twostate predicate KeyEffect(key: Byte)
      requires old(NameBufferValid()) && NameBufferValid()
      reads this`currentState, this`exited, this`isSinglePlayer, this`nameLength, nameBuffer
      reads this`player1Name, this`player2Name, this`avatarCursor, this`player1AvatarIndex, this`player2AvatarIndex
      reads this`timeLeft, this`maxScore, this`scoreP1, this`scoreP2
      reads this`p1, this`p2, this`ball, this`prevBallX, this`prevBallY, this`speedFactor, this`hitsInRally
      reads this`mainMenuIndex, this`modeMenuIndex, this`settingsCursor, this`difficultyIndex
    {
      var s := old(currentState);
      && currentState == KeyTransition(s, key, mainMenuIndex, modeMenuIndex, settingsCursor)
      && exited == (old(exited) || (s == MainMenu && key == KeyEnter && mainMenuIndex == 3))
      // The name buffer.
      && (EditsName(s, key) ==> NameText() == EditName(old(NameText()), key))
      && (ClearsName(s, key, modeMenuIndex) ==> NameText() == [])
      && (!EditsName(s, key) && !ClearsName(s, key, modeMenuIndex) ==> NameText() == old(NameText()))
      // Confirmed names, mode and avatars.
      && (key == KeyEnter && (s == NameInputSingle || s == NameInputMultiP1) ==>
            player1Name == ConfirmedName(old(NameText()), "Player 1") && avatarCursor == player1AvatarIndex)
      && (key == KeyEnter && s == NameInputMultiP2 ==>
            player2Name == ConfirmedName(old(NameText()), "Player 2") && avatarCursor == player2AvatarIndex)
      && isSinglePlayer == (if key == KeyEnter && s == ModeSelect then modeMenuIndex == 0
                            else if key == KeyEnter && s == AvatarSelectSingle then true
                            else if key == KeyEnter && s == AvatarSelectMultiP2 then false
                            else old(isSinglePlayer))
      && player1AvatarIndex == (if key == KeyEnter && (s == AvatarSelectSingle || s == AvatarSelectMultiP1)
                                then avatarCursor else old(player1AvatarIndex))
      && player2AvatarIndex == (if key == KeyEnter && s == AvatarSelectMultiP2 then avatarCursor else old(player2AvatarIndex))
      && (key == KeyEnter && s == AvatarSelectSingle ==> player2Name == AiName(difficultyIndex))
      && (!(key == KeyEnter && (s == NameInputSingle || s == NameInputMultiP1)) ==> player1Name == old(player1Name))
      && (!(key == KeyEnter && IsNameInput(s)) ==> avatarCursor == old(avatarCursor))
      && (!(key == KeyEnter && (s == NameInputMultiP2 || s == AvatarSelectSingle)) ==> player2Name == old(player2Name))
      // The match is set up afresh only when one starts.
      && (!StartsMatch(s, key) ==> MatchUnchanged())
    }


    /** Ordinary keys on the main menu: Enter opens the highlighted entry. */
    method MainMenuKey(key: Byte)
      requires NameBufferValid() && MatchValid() && currentState == MainMenu
      modifies this`currentState, this`exited
      ensures NameBufferValid() && MatchValid() && KeyEffect(key)
    {
      if key == KeyEnter {
        HandleEnterOnMainMenu();
      }
    }

    /** Ordinary keys on the mode screen: Enter picks the mode, ESC goes back. */
    method ModeSelectKey(key: Byte)
      requires NameBufferValid() && MatchValid() && currentState == ModeSelect
      modifies this`currentState, this`isSinglePlayer, this`nameLength, nameBuffer
      ensures NameBufferValid() && MatchValid() && KeyEffect(key)
    {
      if key == KeyEnter {
        HandleEnterOnModeMenu();
      } else if key == KeyEscape {
        currentState := MainMenu;
      }
    }

    /** Ordinary keys on the difficulty screen: Enter empties the name buffer and asks for the name. */
    method DifficultySelectKey(key: Byte)
      requires NameBufferValid() && MatchValid() && currentState == DifficultySelect
      modifies this`currentState, this`nameLength, nameBuffer
      ensures NameBufferValid() && MatchValid() && KeyEffect(key)
    {
      if key == KeyEnter {
        ClearName();
        currentState := NameInputSingle;
      } else if key == KeyEscape {
        currentState := ModeSelect;
      }
    }

    /** Ordinary keys on the how-to-play screen: ESC goes back. */
    method HowToPlayKey(key: Byte)
      requires NameBufferValid() && MatchValid() && currentState == HowToPlay
      modifies this`currentState
      ensures NameBufferValid() && MatchValid() && KeyEffect(key)
    {
      if key == KeyEscape {
        currentState := MainMenu;
      }
    }

    /** Ordinary keys on the settings screen: ESC, or Enter on "Back", returns to the main menu. */
    method SettingsKey(key: Byte)
      requires NameBufferValid() && MatchValid() && currentState == Settings
      modifies this`currentState
      ensures NameBufferValid() && MatchValid() && KeyEffect(key)
    {
      if key == KeyEscape {
        currentState := MainMenu;
      } else if key == KeyEnter && settingsCursor == 3 {
        currentState := MainMenu;
      }
    }

    /** Ordinary keys on the single-player avatar screen: Enter starts the match against the AI. */
    method AvatarSingleKey(key: Byte, coinX: bool, coinY: bool)
      requires CourtSize(width, height) && NameBufferValid() && MatchValid() && currentState == AvatarSelectSingle
      modifies this`player1AvatarIndex, this`player2Name, this`isSinglePlayer, this`currentState
      modifies this`timeLeft, this`maxScore, this`p1, this`p2, this`scoreP1, this`scoreP2
      modifies this`hitsInRally, this`speedFactor, this`ball, this`prevBallX, this`prevBallY
      ensures NameBufferValid() && MatchValid() && KeyEffect(key)
      ensures StartsMatch(old(currentState), key) ==> FreshMatch(coinX, coinY)
    {
      if key == KeyEnter {
        FinishAvatarSingle(coinX, coinY);
      } else if key == KeyEscape {
        currentState := NameInputSingle;
      }
    }

    /** Ordinary keys on player 1's avatar screen in two-player mode: Enter moves on to player 2's name. */
    method AvatarMultiP1Key(key: Byte)
      requires NameBufferValid() && MatchValid() && currentState == AvatarSelectMultiP1
      modifies this`player1AvatarIndex, this`currentState, this`nameLength, nameBuffer
      ensures NameBufferValid() && MatchValid() && KeyEffect(key)
    {
      if key == KeyEnter {
        FinishAvatarMultiP1();
      } else if key == KeyEscape {
        currentState := NameInputMultiP1;
      }
    }

    /** Ordinary keys on player 2's avatar screen: Enter starts the two-player match. */
    method AvatarMultiP2Key(key: Byte, coinX: bool, coinY: bool)
      requires CourtSize(width, height) && NameBufferValid() && MatchValid() && currentState == AvatarSelectMultiP2
      modifies this`player2AvatarIndex, this`isSinglePlayer, this`currentState
      modifies this`timeLeft, this`maxScore, this`p1, this`p2, this`scoreP1, this`scoreP2
      modifies this`hitsInRally, this`speedFactor, this`ball, this`prevBallX, this`prevBallY
      ensures NameBufferValid() && MatchValid() && KeyEffect(key)
      ensures StartsMatch(old(currentState), key) ==> FreshMatch(coinX, coinY)
    {
      if key == KeyEnter {
        FinishAvatarMultiP2(coinX, coinY);
      } else if key == KeyEscape {
        currentState := NameInputMultiP2;
      }
    }

    /** Ordinary keys during play: ESC pauses. */
    method PlayingKey(key: Byte)
      requires NameBufferValid() && MatchValid() && currentState == Playing
      modifies this`currentState
      ensures NameBufferValid() && MatchValid() && KeyEffect(key)
    {
      if key == KeyEscape {
        currentState := Paused;
      }
    }

    /** Ordinary keys on the pause screen: ESC resumes, M leaves for the main menu. */
    method PausedKey(key: Byte)
      requires NameBufferValid() && MatchValid() && currentState == Paused
      modifies this`currentState
      ensures NameBufferValid() && MatchValid() && KeyEffect(key)
    {
      if key == KeyEscape {
        currentState := Playing;
      } else if IsMenuKey(key) {
        currentState := MainMenu;
      }
    }

    /** Ordinary keys on the game-over screen: M leaves for the main menu. */
    method GameOverKey(key: Byte)
      requires NameBufferValid() && MatchValid() && currentState == GameOver
      modifies this`currentState
      ensures NameBufferValid() && MatchValid() && KeyEffect(key)
    {
      if IsMenuKey(key) {
        currentState := MainMenu;
      }
    }

    /** The current screen reacts to an ordinary key. */
    method ScreenKey(key: Byte, coinX: bool, coinY: bool)
      requires CourtSize(width, height) && NameBufferValid() && MatchValid()
      modifies this`currentState, this`exited, this`isSinglePlayer, this`nameLength, nameBuffer
      modifies this`player1Name, this`player2Name, this`avatarCursor, this`player1AvatarIndex, this`player2AvatarIndex
      modifies this`timeLeft, this`maxScore, this`p1, this`p2, this`scoreP1, this`scoreP2
      modifies this`hitsInRally, this`speedFactor, this`ball, this`prevBallX, this`prevBallY
      ensures NameBufferValid() && MatchValid() && KeyEffect(key)
      ensures StartsMatch(old(currentState), key) ==> FreshMatch(coinX, coinY)
    {
      match currentState
      case MainMenu => MainMenuKey(key);
      case ModeSelect => ModeSelectKey(key);
      case DifficultySelect => DifficultySelectKey(key);
      case NameInputSingle => HandleNameInputKey(key);
      case NameInputMultiP1 => HandleNameInputKey(key);
      case NameInputMultiP2 => HandleNameInputKey(key);
      case AvatarSelectSingle => AvatarSingleKey(key, coinX, coinY);
      case AvatarSelectMultiP1 => AvatarMultiP1Key(key);
      case AvatarSelectMultiP2 => AvatarMultiP2Key(key, coinX, coinY);
      case HowToPlay => HowToPlayKey(key);
      case Settings => SettingsKey(key);
      case Playing => PlayingKey(key);
      case Paused => PausedKey(key);
      case GameOver => GameOverKey(key);
    }

    /**
      An ordinary key goes down: it is marked held, and the current screen
      reacts to it.
     */
    method KeyPress(key: Byte, coinX: bool, coinY: bool)
      requires Valid()
      modifies keyDown, this`currentState, this`exited, this`isSinglePlayer, this`nameLength, nameBuffer
      modifies this`player1Name, this`player2Name, this`avatarCursor, this`player1AvatarIndex, this`player2AvatarIndex
      modifies this`timeLeft, this`maxScore, this`p1, this`p2, this`scoreP1, this`scoreP2
      modifies this`hitsInRally, this`speedFactor, this`ball, this`prevBallX, this`prevBallY
      ensures Valid()
      ensures keyDown[..] == old(keyDown[..])[key := true]
      ensures KeyEffect(key)
      ensures StartsMatch(old(currentState), key) ==> FreshMatch(coinX, coinY)
    {
      keyDown[key] := true;
      ScreenKey(key, coinX, coinY);
    }

    /** An ordinary key goes up. */
    method KeyRelease(key: Byte)
      requires keyDown.Length == 256
      modifies keyDown
      ensures keyDown[..] == old(keyDown[..])[key := false]
    {
      keyDown[key] := false;
    }

    /**
      An arrow (or other special) key goes down: it is marked held, and the
      cursor of the current screen moves, wrapping at both ends.
     */
    method SpecialKey(key: Byte)
      requires specialDown.Length == 256
      modifies this`mainMenuIndex, this`modeMenuIndex, this`difficultyIndex, this`settingsCursor
      modifies this`gameTimeIndex, this`maxScoreIndex, this`themeIndex, this`avatarCursor, specialDown
      ensures specialDown[..] == old(specialDown[..])[key := true]
      ensures mainMenuIndex ==
        if currentState == MainMenu then MoveCursor(old(mainMenuIndex), 4, key, SpecialUp, SpecialDown)
        else old(mainMenuIndex)
      ensures modeMenuIndex ==
        if currentState == ModeSelect && (key == SpecialUp || key == SpecialDown) then Toggle(old(modeMenuIndex))
        else old(modeMenuIndex)
      ensures difficultyIndex ==
        if currentState == DifficultySelect then MoveCursor(old(difficultyIndex), 3, key, SpecialUp, SpecialDown)
        else old(difficultyIndex)
      ensures settingsCursor ==
        if currentState == Settings then MoveCursor(old(settingsCursor), 4, key, SpecialUp, SpecialDown)
        else old(settingsCursor)
      ensures gameTimeIndex ==
        if currentState == Settings && old(settingsCursor) == 0 then MoveCursor(old(gameTimeIndex), 3, key, SpecialLeft, SpecialRight)
        else old(gameTimeIndex)
      ensures maxScoreIndex ==
        if currentState == Settings && old(settingsCursor) == 1 then MoveCursor(old(maxScoreIndex), 4, key, SpecialLeft, SpecialRight)
        else old(maxScoreIndex)
      ensures themeIndex ==
        if currentState == Settings && old(settingsCursor) == 2 then MoveCursor(old(themeIndex), 3, key, SpecialLeft, SpecialRight)
        else old(themeIndex)
      ensures avatarCursor ==
        if currentState in {AvatarSelectSingle, AvatarSelectMultiP1, AvatarSelectMultiP2}
        then MoveCursor(old(avatarCursor), 4, key, SpecialLeft, SpecialRight)
        else old(avatarCursor)
    {
      specialDown[key] := true;
      match currentState
      case MainMenu =>
        if key == SpecialUp {
          mainMenuIndex := Prev(mainMenuIndex, 4);
        } else if key == SpecialDown {
          mainMenuIndex := Next(mainMenuIndex, 4);
        }
      case ModeSelect =>
        if key == SpecialUp || key == SpecialDown {
          modeMenuIndex := Toggle(modeMenuIndex);
        }
      case DifficultySelect =>
        if key == SpecialUp {
          difficultyIndex := Prev(difficultyIndex, 3);
        } else if key == SpecialDown {
          difficultyIndex := Next(difficultyIndex, 3);
        }
      case Settings =>
        if key == SpecialUp {
          settingsCursor := Prev(settingsCursor, 4);
        } else if key == SpecialDown {
          settingsCursor := Next(settingsCursor, 4);
        } else if key == SpecialLeft {
          if settingsCursor == 0 {
            gameTimeIndex := Prev(gameTimeIndex, 3);
          } else if settingsCursor == 1 {
            maxScoreIndex := Prev(maxScoreIndex, 4);
          } else if settingsCursor == 2 {
            themeIndex := Prev(themeIndex, 3);
          }
        } else if key == SpecialRight {
          if settingsCursor == 0 {
            gameTimeIndex := Next(gameTimeIndex, 3);
          } else if settingsCursor == 1 {
            maxScoreIndex := Next(maxScoreIndex, 4);
          } else if settingsCursor == 2 {
            themeIndex := Next(themeIndex, 3);
          }
        }
      case AvatarSelectSingle | AvatarSelectMultiP1 | AvatarSelectMultiP2 =>
        if key == SpecialLeft {
          avatarCursor := Prev(avatarCursor, 4);
        } else if key == SpecialRight {
          avatarCursor := Next(avatarCursor, 4);
        }
      case _ =>
    }

    /** A special key goes up. */
    method SpecialKeyRelease(key: Byte)
      requires specialDown.Length == 256
      modifies specialDown
      ensures specialDown[..] == old(specialDown[..])[key := false]
    {
      specialDown[key] := false;
    }

    // -------------------------------------------------------------------
    // The playing tick

    /** Player 1's raw horizontal key sum: D/d right, A/a left, plus the arrows in single-player mode. */
    function P1KeysX(): (r: int)
      reads this`isSinglePlayer, keyDown, specialDown
      requires keyDown.Length == 256 && specialDown.Length == 256
      ensures -2 <= r <= 2 && (!isSinglePlayer ==> -1 <= r <= 1)
      ensures r > 0 ==> keyDown['d' as int] || keyDown['D' as int] || (isSinglePlayer && specialDown[SpecialRight])
      ensures r < 0 ==> keyDown['a' as int] || keyDown['A' as int] || (isSinglePlayer && specialDown[SpecialLeft])
    {
      KeyPair(keyDown['d' as int] || keyDown['D' as int], keyDown['a' as int] || keyDown['A' as int])
      + (if isSinglePlayer then KeyPair(specialDown[SpecialRight], specialDown[SpecialLeft]) else 0)
    }

    /** Player 1's raw vertical key sum: W/w up, S/s down, plus the arrows in single-player mode. */
    function P1KeysY(): (r: int)
      reads this`isSinglePlayer, keyDown, specialDown
      requires keyDown.Length == 256 && specialDown.Length == 256
      ensures -2 <= r <= 2 && (!isSinglePlayer ==> -1 <= r <= 1)
      ensures r > 0 ==> keyDown['w' as int] || keyDown['W' as int] || (isSinglePlayer && specialDown[SpecialUp])
      ensures r < 0 ==> keyDown['s' as int] || keyDown['S' as int] || (isSinglePlayer && specialDown[SpecialDown])
    {
      KeyPair(keyDown['w' as int] || keyDown['W' as int], keyDown['s' as int] || keyDown['S' as int])
      + (if isSinglePlayer then KeyPair(specialDown[SpecialUp], specialDown[SpecialDown]) else 0)
    }

    /** Player 2's move this tick: the AI in single-player mode, the arrow keys otherwise. */
    function P2Move(from: Paddle, seen: Ball): (r: Paddle)
      reads this`isSinglePlayer, this`difficultyIndex, specialDown
      requires specialDown.Length == 256 && width >= 200
      ensures Abs(r.x - from.x) <= PaddleSpeed && Abs(r.y - from.y) <= AiBaseSpeed(2)
      ensures isSinglePlayer ==> Abs(seen.y - from.y) <= AiBaseSpeed(difficultyIndex) ==> r.y == seen.y
      ensures !isSinglePlayer && !(specialDown[SpecialUp] || specialDown[SpecialDown] || specialDown[SpecialLeft] || specialDown[SpecialRight])
        ==> r == from
    {
      if isSinglePlayer then AiMove(from, seen, difficultyIndex, width)
      else ManualMove(from, specialDown[SpecialUp], specialDown[SpecialDown], specialDown[SpecialLeft], specialDown[SpecialRight])
    }

    /** Both paddles move by the keys held (or the AI) and are clamped into their halves. */
    method MovePaddles()
      requires CourtSize(width, height) && keyDown.Length == 256 && specialDown.Length == 256
      modifies this`p1, this`p2
      ensures p1 == ClampLeft(MoveByIntent(old(p1), old(P1KeysX()), old(P1KeysY())), width, height)
      ensures p2 == ClampRight(old(P2Move(p2, ball)), width, height)
      ensures InLeftHalf(p1, width, height) && InRightHalf(p2, width, height)
    {
      p1 := MoveByIntent(p1, P1KeysX(), P1KeysY());
      // The AI sees the ball where it was at the start of the tick.
      p2 := P2Move(p2, ball);
      p1 := ClampLeft(p1, width, height);
      p2 := ClampRight(p2, width, height);
    }

    /** The ball's flight: integrate, walls, then the left and the right paddle, each hit ramping the speed. */
    method MoveBall()
      requires CourtSize(width, height) && InLeftHalf(p1, width, height) && InRightHalf(p2, width, height)
      requires speedFactor == SpeedFor(hitsInRally)
      modifies this`ball, this`prevBallX, this`prevBallY, this`speedFactor, this`hitsInRally
      ensures var f := Fly(old(ball), old(speedFactor), p1, p2, height);
        ball == f.ball && hitsInRally == old(hitsInRally) + f.hits && f.hits <= 1
      ensures prevBallX == old(ball).x && prevBallY == old(ball).y
      ensures speedFactor == SpeedFor(hitsInRally) && old(speedFactor) <= speedFactor
    {
      prevBallX, prevBallY := ball.x, ball.y;
      ball := WallBounce(Integrate(ball, speedFactor), height);
      if LeftContact(ball, prevBallX, p1) {
        ball := BounceOffLeft(ball, p1);
        RampAdvancesOneHit(hitsInRally);
        speedFactor := Ramp(speedFactor);
        hitsInRally := hitsInRally + 1;
      }
      if RightContact(ball, prevBallX, p2) {
        ball := BounceOffRight(ball, p2);
        RampAdvancesOneHit(hitsInRally);
        speedFactor := Ramp(speedFactor);
        hitsInRally := hitsInRally + 1;
      }
      OneHitPerTick(old(ball), old(speedFactor), p1, p2, width, height);
      SpeedForMonotone(old(hitsInRally), hitsInRally);
    }

    /**
      A ball past the left edge scores for player 2 (red flash), past the
      right edge for player 1 (blue flash); either re-serves and shakes the
      screen by 3 times the speed factor, which the serve has already reset.
     */
    method ScoreGoals(coinX: bool, coinY: bool)
      requires CourtSize(width, height)
      modifies this`scoreP1, this`scoreP2, this`hitsInRally, this`speedFactor, this`ball, this`prevBallX, this`prevBallY
      modifies this`flashFrames, this`flashR, this`flashG, this`flashB, this`shakeFrames, this`shakeIntensity
      ensures old(ball).x < 0.0 ==>
        && scoreP2 == old(scoreP2) + 1 && scoreP1 == old(scoreP1) && Served(coinX, coinY)
        && flashFrames == 10 && (flashR, flashG, flashB) == (1.0, 0.2, 0.2)
        && shakeFrames == 6 && shakeIntensity == 3.0
      ensures old(ball).x > width as real ==>
        && scoreP1 == old(scoreP1) + 1 && scoreP2 == old(scoreP2) && Served(coinX, coinY)
        && flashFrames == 10 && (flashR, flashG, flashB) == (0.2, 0.5, 1.0)
        && shakeFrames == 6 && shakeIntensity == 3.0
      ensures 0.0 <= old(ball).x <= width as real ==>
        && scoreP1 == old(scoreP1) && scoreP2 == old(scoreP2)
        && ball == old(ball) && prevBallX == old(prevBallX) && prevBallY == old(prevBallY)
        && speedFactor == old(speedFactor) && hitsInRally == old(hitsInRally)
        && flashFrames == old(flashFrames) && shakeFrames == old(shakeFrames) && shakeIntensity == old(shakeIntensity)
        && (flashR, flashG, flashB) == old((flashR, flashG, flashB))
    {
      if ball.x < 0.0 {
        scoreP2 := scoreP2 + 1;
        ResetBall(coinX, coinY);
        flashFrames := 10;
        flashR, flashG, flashB := 1.0, 0.2, 0.2;
        shakeFrames := 6;
        shakeIntensity := 3.0 * speedFactor;
      }
      if ball.x > width as real {
        scoreP1 := scoreP1 + 1;
        ResetBall(coinX, coinY);
        flashFrames := 10;
        flashR, flashG, flashB := 0.2, 0.5, 1.0;
        shakeFrames := 6;
        shakeIntensity := 3.0 * speedFactor;
      }
    }

    /** The clock loses one tick and the match ends on time or on the score limit. */
    method RunMatchClock()
      requires currentState == Playing
      modifies this`timeLeft, this`currentState
      ensures timeLeft == Countdown(old(timeLeft))
      ensures currentState == GameOver <==> Expires(old(timeLeft)) || ScoreLimitReached(maxScore, scoreP1, scoreP2)
      ensures currentState != GameOver ==> currentState == Playing
    {
      timeLeft := timeLeft - TickSeconds;
      if timeLeft <= 0.0 {
        timeLeft := 0.0;
        currentState := GameOver;
      }
      if ScoreLimitReached(maxScore, scoreP1, scoreP2) {
        currentState := GameOver;
      }
    }

    /** The flight phase and its outcome: a goal re-serves, otherwise the rally goes on. */
    method FlyAndScore(coinX: bool, coinY: bool) returns (ghost f: Flight)
      requires CourtSize(width, height) && InLeftHalf(p1, width, height) && InRightHalf(p2, width, height)
      requires MatchValid() && currentState == Playing
      modifies this`ball, this`prevBallX, this`prevBallY, this`scoreP1, this`scoreP2, this`speedFactor, this`hitsInRally
      modifies this`flashFrames, this`flashR, this`flashG, this`flashB, this`shakeFrames, this`shakeIntensity
      ensures MatchValid()
      ensures f == Fly(old(ball), old(speedFactor), p1, p2, height) && f.hits <= 1
      ensures f.ball.x < 0.0 ==>
        && scoreP2 == old(scoreP2) + 1 && scoreP1 == old(scoreP1)
        && Served(coinX, coinY) && shakeIntensity == 3.0
        && flashFrames == 10 && shakeFrames == 6 && (flashR, flashG, flashB) == (1.0, 0.2, 0.2)
      ensures f.ball.x > width as real ==>
        && scoreP1 == old(scoreP1) + 1 && scoreP2 == old(scoreP2)
        && Served(coinX, coinY) && shakeIntensity == 3.0
        && flashFrames == 10 && shakeFrames == 6 && (flashR, flashG, flashB) == (0.2, 0.5, 1.0)
      ensures 0.0 <= f.ball.x <= width as real ==>
        && scoreP1 == old(scoreP1) && scoreP2 == old(scoreP2)
        && ball == f.ball && prevBallX == old(ball).x && prevBallY == old(ball).y
        && hitsInRally == old(hitsInRally) + f.hits && old(speedFactor) <= speedFactor
        && flashFrames == old(flashFrames) && shakeFrames == old(shakeFrames)
        && shakeIntensity == old(shakeIntensity) && (flashR, flashG, flashB) == old((flashR, flashG, flashB))
    {
      f := Fly(ball, speedFactor, p1, p2, height);
      MoveBall();
      ScoreGoals(coinX, coinY);
    }

    /**
      The playing branch of a tick: move both paddles, fly the ball, score a
      goal and re-serve, run the clock and end the match on time or on the
      score limit.
     */
    method PlayTick(coinX: bool, coinY: bool) returns (ghost f: Flight)
      requires CourtSize(width, height) && keyDown.Length == 256 && specialDown.Length == 256
      requires MatchValid() && currentState == Playing
      modifies this`p1, this`p2, this`ball, this`prevBallX, this`prevBallY, this`scoreP1, this`scoreP2
      modifies this`timeLeft, this`speedFactor, this`hitsInRally, this`currentState
      modifies this`flashFrames, this`flashR, this`flashG, this`flashB, this`shakeFrames, this`shakeIntensity
      ensures MatchValid()
      // Paddles.
      ensures p1 == ClampLeft(MoveByIntent(old(p1), old(P1KeysX()), old(P1KeysY())), width, height)
      ensures p2 == ClampRight(old(P2Move(p2, ball)), width, height)
      ensures InLeftHalf(p1, width, height) && InRightHalf(p2, width, height)
      // Ball, goals and rally: f is the flight phase of the tick.
      ensures f == Fly(old(ball), old(speedFactor), p1, p2, height) && f.hits <= 1
      ensures f.ball.x < 0.0 ==>
        && scoreP2 == old(scoreP2) + 1 && scoreP1 == old(scoreP1)
        && Served(coinX, coinY) && shakeIntensity == 3.0
        && flashFrames == 10 && shakeFrames == 6 && (flashR, flashG, flashB) == (1.0, 0.2, 0.2)
      ensures f.ball.x > width as real ==>
        && scoreP1 == old(scoreP1) + 1 && scoreP2 == old(scoreP2)
        && Served(coinX, coinY) && shakeIntensity == 3.0
        && flashFrames == 10 && shakeFrames == 6 && (flashR, flashG, flashB) == (0.2, 0.5, 1.0)
      ensures 0.0 <= f.ball.x <= width as real ==>
        && scoreP1 == old(scoreP1) && scoreP2 == old(scoreP2)
        && ball == f.ball && prevBallX == old(ball).x && prevBallY == old(ball).y
        && hitsInRally == old(hitsInRally) + f.hits && old(speedFactor) <= speedFactor
        && flashFrames == old(flashFrames) && shakeFrames == old(shakeFrames)
        && shakeIntensity == old(shakeIntensity) && (flashR, flashG, flashB) == old((flashR, flashG, flashB))
      // Clock and end of match.
      ensures timeLeft == Countdown(old(timeLeft)) && maxScore == old(maxScore)
      ensures currentState == GameOver <==> Expires(old(timeLeft)) || ScoreLimitReached(maxScore, scoreP1, scoreP2)
      ensures currentState != GameOver ==> currentState == Playing
    {
      MovePaddles();
      f := FlyAndScore(coinX, coinY);
      RunMatchClock();
    }

    /**
      One timer tick: the playing branch while a match runs; on every other
      screen the match is left alone. The flash and shake counters run down
      on every tick.
     */
    method Tick(coinX: bool, coinY: bool)
      requires Valid()
      modifies this`p1, this`p2, this`ball, this`prevBallX, this`prevBallY, this`scoreP1, this`scoreP2
      modifies this`timeLeft, this`speedFactor, this`hitsInRally, this`currentState
      modifies this`flashFrames, this`flashR, this`flashG, this`flashB, this`shakeFrames, this`shakeIntensity
      ensures Valid()
      ensures old(currentState) != Playing ==> currentState == old(currentState) && MatchUnchanged()
      ensures old(currentState) != Playing ==>
        && flashFrames == (if old(flashFrames) > 0 then old(flashFrames) - 1 else 0)
        && shakeFrames == (if old(shakeFrames) > 0 then old(shakeFrames) - 1 else 0)
        && shakeIntensity == old(shakeIntensity) && (flashR, flashG, flashB) == old((flashR, flashG, flashB))
      // Paddles.
      ensures old(currentState) == Playing ==>
        && p1 == ClampLeft(MoveByIntent(old(p1), old(P1KeysX()), old(P1KeysY())), width, height)
        && p2 == ClampRight(old(P2Move(p2, ball)), width, height)
        && InLeftHalf(p1, width, height) && InRightHalf(p2, width, height)
      // Ball, goals and rally.
      ensures old(currentState) == Playing ==>
        var f := Fly(old(ball), old(speedFactor), p1, p2, height);
        && f.hits <= 1
        && (f.ball.x < 0.0 ==>
              && scoreP2 == old(scoreP2) + 1 && scoreP1 == old(scoreP1)
              && Served(coinX, coinY) && shakeIntensity == 3.0
              && flashFrames == 9 && shakeFrames == 5 && (flashR, flashG, flashB) == (1.0, 0.2, 0.2))
        && (f.ball.x > width as real ==>
              && scoreP1 == old(scoreP1) + 1 && scoreP2 == old(scoreP2)
              && Served(coinX, coinY) && shakeIntensity == 3.0
              && flashFrames == 9 && shakeFrames == 5 && (flashR, flashG, flashB) == (0.2, 0.5, 1.0))
        && (0.0 <= f.ball.x <= width as real ==>
              && scoreP1 == old(scoreP1) && scoreP2 == old(scoreP2)
              && ball == f.ball && prevBallX == old(ball).x && prevBallY == old(ball).y
              && hitsInRally == old(hitsInRally) + f.hits && old(speedFactor) <= speedFactor
              && shakeIntensity == old(shakeIntensity) && (flashR, flashG, flashB) == old((flashR, flashG, flashB))
              && flashFrames == (if old(flashFrames) > 0 then old(flashFrames) - 1 else 0)
              && shakeFrames == (if old(shakeFrames) > 0 then old(shakeFrames) - 1 else 0))
      // Clock and end of match.
      ensures old(currentState) == Playing ==>
        && timeLeft == Countdown(old(timeLeft)) && maxScore == old(maxScore)
        && (currentState == GameOver <==> Expires(old(timeLeft)) || ScoreLimitReached(maxScore, scoreP1, scoreP2))
        && (currentState != GameOver ==> currentState == Playing)
    {
      if currentState == Playing {
        ghost var f := PlayTick(coinX, coinY);
      }
      if flashFrames > 0 {
        flashFrames := flashFrames - 1;
      }
      if shakeFrames > 0 {
        shakeFrames := shakeFrames - 1;
      }
    }
  }
}
