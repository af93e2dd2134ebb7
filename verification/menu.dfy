/**
  The menu shell of Paddle Rivals as values: the screens, the wrap-around
  cursors, the state each ordinary key leads to, and the editing of the
  player-name buffer.
 */
module Menu {

  datatype GameState =
    | MainMenu
    | ModeSelect
    | DifficultySelect
    | NameInputSingle
    | NameInputMultiP1
    | NameInputMultiP2
    | AvatarSelectSingle
    | AvatarSelectMultiP1
    | AvatarSelectMultiP2
    | HowToPlay
    | Settings
    | Playing
    | Paused
    | GameOver

  /** The screens that show a match: only these require a set-up court. */
  predicate InMatch(s: GameState) {
    s == Playing || s == Paused || s == GameOver
  }

  predicate IsNameInput(s: GameState) {
    s == NameInputSingle || s == NameInputMultiP1 || s == NameInputMultiP2
  }

  // Cursors over menus of two, three and four entries.
  type Cursor2 = i: int | 0 <= i < 2
  type Cursor3 = i: int | 0 <= i < 3
  type Cursor4 = i: int | 0 <= i < 4

  /** A keyboard byte, as GLUT hands an unsigned char to the key callbacks. */
  type Byte = k: int | 0 <= k < 256

  const KeyBackspace: Byte := 8
  const KeyEnter: Byte := 13
  const KeyEscape: Byte := 27

  // GLUT's codes for the arrow keys.
  const SpecialLeft: Byte := 100
  const SpecialUp: Byte := 101
  const SpecialRight: Byte := 102
  const SpecialDown: Byte := 103

  /** Longest name the 32-byte buffer holds beside its terminating NUL. */
  const MaxNameLength: nat := 31

  predicate IsMenuKey(key: int) {
    key == 'm' as int || key == 'M' as int
  }

  predicate IsPrintableKey(key: int) {
    32 <= key <= 126
  }

  predicate Printable(s: string) {
    forall i :: 0 <= i < |s| ==> ' ' <= s[i] <= '~'
  }

  // ---------------------------------------------------------------------
  // Cursors

  /** Cursor one entry back, wrapping from 0 to n - 1. */
  function Prev(i: int, n: int): (r: int)
    requires 0 <= i < n
    ensures 0 <= r < n
    ensures r == (i - 1) % n
  {
    if i - 1 < 0 then n - 1 else i - 1
  }

  /** Cursor one entry on, wrapping from n - 1 to 0. */
  function Next(i: int, n: int): (r: int)
    requires 0 <= i < n
    ensures 0 <= r < n
    ensures r == (i + 1) % n
  {
    if i + 1 > n - 1 then 0 else i + 1
  }

  /** Back then on, or on then back, restores the cursor. */
  lemma PrevNextInverse(i: int, n: int)
    requires 0 <= i < n
    ensures Next(Prev(i, n), n) == i
    ensures Prev(Next(i, n), n) == i
  {
  }

  /** A cursor moved back by `back` and on by `on` keys; other keys leave it. */
  function MoveCursor(i: int, n: int, key: int, back: int, on: int): (r: int)
    requires 0 <= i < n && back != on
    ensures 0 <= r < n
    ensures key != back && key != on ==> r == i
    ensures key == back ==> r == (i - 1) % n
    ensures key == on ==> r == (i + 1) % n
  {
    if key == back then Prev(i, n) else if key == on then Next(i, n) else i
  }

  /** The two-entry mode menu: either vertical arrow flips it. */
  function Toggle(i: int): (r: int)
    requires i == 0 || i == 1
    ensures (r == 0 || r == 1) && r != i
  {
    1 - i
  }

  // ---------------------------------------------------------------------
  // Screen transitions on ordinary keys

  /**
    The screen that follows `s` when `key` is pressed, given the main-menu
    cursor, the mode cursor and the settings cursor. Enter on "Exit" keeps
    the screen (the program exits instead).
   */
  function KeyTransition(s: GameState, key: int, mainIndex: int, modeIndex: int, settingsCursor: int): (r: GameState)
    ensures !(key == KeyEnter || key == KeyEscape || IsMenuKey(key)) ==> r == s
    ensures InMatch(r) && !InMatch(s) ==> StartsMatch(s, key)
    ensures IsNameInput(r) && !IsNameInput(s) ==> key == KeyEnter || key == KeyEscape
  {
    match s
    case MainMenu =>
      if key != KeyEnter then s
      else if mainIndex == 0 then ModeSelect
      else if mainIndex == 1 then HowToPlay
      else if mainIndex == 2 then Settings
      else s
    case ModeSelect =>
      if key == KeyEnter then (if modeIndex == 0 then DifficultySelect else NameInputMultiP1)
      else if key == KeyEscape then MainMenu
      else s
    case DifficultySelect =>
      if key == KeyEnter then NameInputSingle else if key == KeyEscape then ModeSelect else s
    case NameInputSingle =>
      if key == KeyEscape then DifficultySelect else if key == KeyEnter then AvatarSelectSingle else s
    case NameInputMultiP1 =>
      if key == KeyEscape then ModeSelect else if key == KeyEnter then AvatarSelectMultiP1 else s
    case NameInputMultiP2 =>
      if key == KeyEscape then ModeSelect else if key == KeyEnter then AvatarSelectMultiP2 else s
    case AvatarSelectSingle =>
      if key == KeyEnter then Playing else if key == KeyEscape then NameInputSingle else s
    case AvatarSelectMultiP1 =>
      if key == KeyEnter then NameInputMultiP2 else if key == KeyEscape then NameInputMultiP1 else s
    case AvatarSelectMultiP2 =>
      if key == KeyEnter then Playing else if key == KeyEscape then NameInputMultiP2 else s
    case HowToPlay =>
      if key == KeyEscape then MainMenu else s
    case Settings =>
      if key == KeyEscape || (key == KeyEnter && settingsCursor == 3) then MainMenu else s
    case Playing =>
      if key == KeyEscape then Paused else s
    case Paused =>
      if key == KeyEscape then Playing else if IsMenuKey(key) then MainMenu else s
    case GameOver =>
      if IsMenuKey(key) then MainMenu else s
  }

  /** A key that starts a match: Enter on the last avatar screen of either mode. */
  predicate StartsMatch(s: GameState, key: int) {
    key == KeyEnter && (s == AvatarSelectSingle || s == AvatarSelectMultiP2)
  }

  /** Keys that empty the name buffer on the way into a name screen. */
  predicate ClearsName(s: GameState, key: int, modeIndex: int) {
    key == KeyEnter &&
    (s == DifficultySelect || (s == ModeSelect && modeIndex != 0) || s == NameInputMultiP1 || s == AvatarSelectMultiP1)
  }

  /** Keys that go to the name editor: anything but Enter and ESC on a name screen. */
  predicate EditsName(s: GameState, key: int) {
    IsNameInput(s) && key != KeyEnter && key != KeyEscape
  }

  /** ESC pauses a running match and resumes a paused one. */
  lemma EscapeTogglesPause(mainIndex: int, modeIndex: int, settingsCursor: int)
    ensures KeyTransition(Playing, KeyEscape, mainIndex, modeIndex, settingsCursor) == Paused
    ensures KeyTransition(Paused, KeyEscape, mainIndex, modeIndex, settingsCursor) == Playing
  {
  }

  /** M leaves a paused or finished match for the main menu. */
  lemma MenuKeyLeavesMatch(s: GameState, key: int, mainIndex: int, modeIndex: int, settingsCursor: int)
    requires s == Paused || s == GameOver
    requires IsMenuKey(key)
    ensures KeyTransition(s, key, mainIndex, modeIndex, settingsCursor) == MainMenu
  {
  }

  /**
    Play is entered only by starting a match or by resuming with ESC, and a
    running match is left only for the pause screen.
   */
  lemma PlayingEntries(s: GameState, key: int, mainIndex: int, modeIndex: int, settingsCursor: int)
    ensures KeyTransition(s, key, mainIndex, modeIndex, settingsCursor) == Playing && s != Playing
      ==> StartsMatch(s, key) || (s == Paused && key == KeyEscape)
    ensures s == Playing ==> KeyTransition(s, key, mainIndex, modeIndex, settingsCursor) in {Playing, Paused}
  {
  }

  /** A finished match stays finished until M is pressed. */
  lemma GameOverIsSticky(key: int, mainIndex: int, modeIndex: int, settingsCursor: int)
    ensures KeyTransition(GameOver, key, mainIndex, modeIndex, settingsCursor) == (if IsMenuKey(key) then MainMenu else GameOver)
  {
  }

  // ---------------------------------------------------------------------
  // Name buffer

  /**
    The typed name after an editing key on a name screen: backspace drops the
    last character (nothing on an empty name), a printable key is appended
    while the name is shorter than 31, and any other key is ignored.
   */
  function EditName(name: string, key: int): (r: string)
    requires |name| <= MaxNameLength
    ensures |r| <= MaxNameLength
    ensures Printable(name) ==> Printable(r)
    ensures key == KeyBackspace ==> r == if name == [] then [] else name[..|name| - 1]
    ensures IsPrintableKey(key) && |name| < MaxNameLength ==> r == name + [key as char]
    ensures key != KeyBackspace && !(IsPrintableKey(key) && |name| < MaxNameLength) ==> r == name
  {
    if key == KeyBackspace then
      (if |name| > 0 then name[..|name| - 1] else name)
    else if IsPrintableKey(key) && |name| < MaxNameLength then
      name + [key as char]
    else
      name
  }

  /** Backspace undoes the character just typed. */
  lemma BackspaceUndoesTyping(name: string, key: int)
    requires |name| < MaxNameLength && IsPrintableKey(key)
    ensures EditName(EditName(name, key), KeyBackspace) == name
  {
  }

  /** The name a confirmation stores: the typed one, or the default when none was typed. */
  function ConfirmedName(typed: string, fallback: string): (r: string)
    requires fallback != []
    ensures r != []
    ensures typed != [] ==> r == typed
  {
    if |typed| == 0 then fallback else typed
  }

  /** The opponent's name in single-player mode. */
  function AiName(difficulty: int): (r: string)
    ensures 4 <= |r| <= MaxNameLength && r[..4] == "AI ("
  {
    if difficulty == 0 then "AI (Easy)"
    else if difficulty == 1 then "AI (Medium)"
    else "AI (Hard)"
  }

  /** Each difficulty gives the opponent a name of its own. */
  lemma AiNamesDistinct(d1: int, d2: int)
    requires 0 <= d1 < d2 <= 2
    ensures AiName(d1) != AiName(d2)
  {
    assert AiName(d1)[4] != AiName(d2)[4];
  }
}
