/**
  The screen-level state machine of the game: which panel is open, what a
  key press does in each state, and whether a finished game's result is
  worth submitting.
*/
module Control {
  import opened Entities
  import opened Ranking

  datatype GameState = Playing | Crafting | Shop | Leaderboard | GameOver

  /** The crafting key closes the crafting panel and opens it from any other state, game over included. */
  function CraftingToggled(s: GameState): (r: GameState)
    ensures r == Playing <==> s == Crafting
    ensures r == Playing || r == Crafting
  {
    if s == Crafting then Playing else Crafting
  }

  /** The shop key closes the shop and opens it from any other state. */
  function ShopToggled(s: GameState): (r: GameState)
    ensures r == Playing <==> s == Shop
    ensures r == Playing || r == Shop
  {
    if s == Shop then Playing else Shop
  }

  /**
    The leaderboard key closes the leaderboard and opens it from any other
    state. Closing always resumes play: the state being closed is the
    leaderboard, so the game-over alternative of the source never applies.
  */
  function LeaderboardToggled(s: GameState): (r: GameState)
    ensures r == Playing <==> s == Leaderboard
    ensures r == Playing || r == Leaderboard
  {
    if s == Leaderboard then Playing else Leaderboard
  }

  /**
    Opening a panel and closing it again lands in play, whatever state the
    panel was opened from; from play it is a round trip. A finished game
    therefore resumes, with health possibly at 0, once a panel opened from
    game over is closed.
  */
  lemma {:induction false} PanelsReturnToPlay(s: GameState)
    ensures s != Crafting ==> CraftingToggled(CraftingToggled(s)) == Playing
    ensures s != Shop ==> ShopToggled(ShopToggled(s)) == Playing
    ensures s != Leaderboard ==> LeaderboardToggled(LeaderboardToggled(s)) == Playing
    ensures CraftingToggled(CraftingToggled(GameOver)) != GameOver
  {
  }

  /** What a key press asks for. */
  datatype Command =
    | Fire
    | Restart
    | SelectMode(mode: Mode)
    | ToggleCrafting
    | ToggleShop
    | ToggleLeaderboard
    | NoCommand

  /**
    The key handler: `code` is the physical key, `key` the character it
    produced. Space is checked first and fires only in play; R restarts only
    after game over; 1, 2, 3 pick a mode; C, U, L toggle their panels;
    Escape closes whichever of them is open.
  */
  function KeyCommand(code: string, key: string, state: GameState): (c: Command)
    ensures c == Fire ==> code == "Space" && state == Playing
    ensures c == Restart ==> state == GameOver
    ensures code == "Space" ==> c == Fire || c == NoCommand
  {
    if code == "Space" then (if state == Playing then Fire else NoCommand)
    else if key == "r" || key == "R" then (if state == GameOver then Restart else NoCommand)
    else if key == "1" then SelectMode(Ensemble)
    else if key == "2" then SelectMode(Individual)
    else if key == "3" then SelectMode(Bell)
    else if key == "c" || key == "C" then ToggleCrafting
    else if key == "u" || key == "U" then ToggleShop
    else if key == "l" || key == "L" then ToggleLeaderboard
    else if key == "Escape" then
      (if state == Crafting then ToggleCrafting
       else if state == Shop then ToggleShop
       else if state == Leaderboard then ToggleLeaderboard
       else NoCommand)
    else NoCommand
  }

  /** The screen state after carrying out a command. */
  function StateAfter(s: GameState, c: Command): GameState
  {
    match c
    case Restart => Playing
    case ToggleCrafting => CraftingToggled(s)
    case ToggleShop => ShopToggled(s)
    case ToggleLeaderboard => LeaderboardToggled(s)
    case _ => s
  }

  /**
    Escape only ever closes: from an open panel it resumes play, from any
    other state it does nothing. R leaves every state but game over alone,
    and from game over it starts a new game.
  */
  lemma {:induction false} KeysGateTransitions(code: string, state: GameState)
    requires code != "Space"
    ensures state in {Crafting, Shop, Leaderboard} ==> StateAfter(state, KeyCommand(code, "Escape", state)) == Playing
    ensures state !in {Crafting, Shop, Leaderboard} ==> StateAfter(state, KeyCommand(code, "Escape", state)) == state
    ensures state != GameOver ==> StateAfter(state, KeyCommand(code, "r", state)) == state
    ensures StateAfter(GameOver, KeyCommand(code, "R", GameOver)) == Playing
  {
  }

  /** The outcome of the game-over screen's high-score check. */
  datatype HighScore = AskName | NewHighScore | NotNew

  /**
    Without a player name the player is asked for one. Otherwise the result
    is new when the name has no entry yet, or when it beats the first entry
    with that name in score or in level (either one suffices).
  */
  function CheckNewHighScore(name: string, board: seq<Entry>, score: int, level: int): (d: HighScore)
    ensures d == AskName <==> name == ""
  {
    if name == "" then AskName
    else
      var k := FindByName(board, name);
      if k < 0 || score > board[k].score || level > board[k].level then NewHighScore else NotNew
  }

  /**
    Once a result has been merged into the local list, the same result is
    no longer new: the player's entry now holds at least that score and level.
  */
  lemma {:induction false} MergedResultNotNew(name: string, board: seq<Entry>, score: int, level: int, date: string)
    requires name != ""
    ensures CheckNewHighScore(name, MergeBest(board, name, score, level, date), score, level) == NotNew
  {
    MergeBestKeepsBest(board, name, score, level, date);
  }

  /** A name with no entry always has a new high score, whatever the score. */
  lemma {:induction false} FirstResultIsNew(name: string, board: seq<Entry>, score: int, level: int)
    requires name != "" && forall m :: 0 <= m < |board| ==> board[m].name != name
    ensures CheckNewHighScore(name, board, score, level) == NewHighScore
  {
  }
}
