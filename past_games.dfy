/**
 * The past-games view: it reads the game counter, reads the time left and the state
 * of every game id below it, keeps only the terminal games (resolved, expired, or
 * without a time limit) and labels each game's winner.
 */
module PastGames {
  import opened JsValues

  /** The remaining time before a game expires, as returned by the contract. */
  datatype TimeLeft = TimeLeft(seconds: int)

  /** A game's state as read from the contract; a falsy winner means "not resolved". */
  datatype GameState = GameState(player1: string, player2: Option<string>, betAmount: string, winner: Option<string>, winAmount: string)

  /** What the two reads of one game id settle to: both values, or the first thing thrown. */
  datatype GameRead = Fetched(timeLeft: Option<TimeLeft>, state: GameState) | FetchFailed(thrown: Thrown)

  /** A past game as stored for display: the state, its id and its (defaulted) time left. */
  datatype PastGame = PastGame(state: GameState, gameId: nat, timeLeft: TimeLeft)

  const FetchFailedMessage: string := "Failed to fetch game states"

  predicate HasWinner(s: GameState)
  {
    Truthy(s.winner)
  }

  /**
   * A terminal game: resolved, or out of time; a game whose
   * time left cannot be read counts as out of time.
   */
  predicate Terminal(timeLeft: Option<TimeLeft>, s: GameState)
  {
    match timeLeft
    case None => true
    case Some(t) => HasWinner(s) || t.seconds <= 0
  }

  /** One game of the refresh: its display record when it is over, nothing while it is active. */
  function Classify(gameId: nat, timeLeft: Option<TimeLeft>, s: GameState): (r: Option<PastGame>)
    ensures HasWinner(s) ==> r.Some?
    ensures timeLeft.None? ==> r == Some(PastGame(s, gameId, TimeLeft(0)))
    ensures !HasWinner(s) && timeLeft.Some? && timeLeft.value.seconds > 0 ==> r.None?
    ensures r.Some? ==> r.value.gameId == gameId && r.value.state == s
    ensures timeLeft.Some? && r.Some? ==> r.value.timeLeft == timeLeft.value
  {
    var isGameExpiredOrCompleted := HasWinner(s) || (timeLeft.Some? && timeLeft.value.seconds <= 0);
    if timeLeft.None? then Some(PastGame(s, gameId, TimeLeft(0)))
    else if isGameExpiredOrCompleted then Some(PastGame(s, gameId, timeLeft.value))
    else None
  }

  /** The classifier keeps exactly the terminal games. */
  lemma ClassifyKeepsTerminal(gameId: nat, timeLeft: Option<TimeLeft>, s: GameState)
    ensures Classify(gameId, timeLeft, s).Some? <==> Terminal(timeLeft, s)
  {
  }

  function AsSeq(o: Option<PastGame>): seq<PastGame>
  {
    match o
    case None => []
    case Some(g) => [g]
  }

  /**
   * The reads of ids `0 .. n-1` gathered as `Promise.all` does: one failure fails the
   * whole batch; otherwise the classified games in id order, active ones filtered out.
   */
  function FetchAll(n: nat, read: nat -> GameRead): (r: Result<seq<PastGame>>)
    ensures r.Ok? ==> |r.value| <= n
    ensures r.Err? ==> exists id :: 0 <= id < n && read(id) == FetchFailed(r.thrown)
  {
    if n == 0 then Ok([])
    else match FetchAll(n - 1, read)
      case Err(t) => Err(t)
      case Ok(prev) =>
        match read(n - 1)
        case FetchFailed(t) => Err(t)
        case Fetched(timeLeft, s) => Ok(prev + AsSeq(Classify(n - 1, timeLeft, s)))
  }

  function GameIds(games: seq<PastGame>): seq<nat>
  {
    seq(|games|, j requires 0 <= j < |games| => games[j].gameId)
  }

  ghost predicate StrictlyIncreasingIds(games: seq<PastGame>)
  {
    forall i, j :: 0 <= i < j < |games| ==> games[i].gameId < games[j].gameId
  }

  /** Every stored entry is the classifier's record for the id it carries. */
  ghost predicate FaithfulEntries(games: seq<PastGame>, read: nat -> GameRead)
  {
    forall j :: 0 <= j < |games| ==>
      read(games[j].gameId).Fetched? &&
      Classify(games[j].gameId, read(games[j].gameId).timeLeft, read(games[j].gameId).state) == Some(games[j])
  }

  /** The batch fails exactly when the read of some id below the counter fails. */
  lemma {:induction false} FetchAllFailsIff(n: nat, read: nat -> GameRead)
    ensures FetchAll(n, read).Err? <==> exists id :: 0 <= id < n && read(id).FetchFailed?
  {
    if n > 0 {
      FetchAllFailsIff(n - 1, read);
      if read(n - 1).FetchFailed? {
        assert exists id :: 0 <= id < n && read(id).FetchFailed?;
      }
    }
  }

  /** A successful batch: at most one entry per id, ids below the counter and strictly increasing. */
  lemma {:induction false} FetchAllShape(n: nat, read: nat -> GameRead)
    requires FetchAll(n, read).Ok?
    ensures var games := FetchAll(n, read).value;
      |games| <= n && StrictlyIncreasingIds(games) && FaithfulEntries(games, read) &&
      forall j :: 0 <= j < |games| ==> games[j].gameId < n
  {
    if n > 0 {
      FetchAllShape(n - 1, read);
    }
  }

  /** A game below the counter is in a successful batch exactly when it is terminal. */
  lemma {:induction false} FetchAllKeepsExactlyTerminal(n: nat, read: nat -> GameRead, id: nat)
    requires FetchAll(n, read).Ok? && id < n
    ensures read(id).Fetched?
    ensures id in GameIds(FetchAll(n, read).value) <==> Terminal(read(id).timeLeft, read(id).state)
  {
    var prev := FetchAll(n - 1, read);
    assert prev.Ok?;
    var games := FetchAll(n, read).value;
    var extra := AsSeq(Classify(n - 1, read(n - 1).timeLeft, read(n - 1).state));
    assert games == prev.value + extra;
    if id < n - 1 {
      FetchAllKeepsExactlyTerminal(n - 1, read, id);
      FetchAllShape(n - 1, read);
      assert GameIds(games) == GameIds(prev.value) + GameIds(extra);
      assert id !in GameIds(extra);
    } else {
      FetchAllShape(n - 1, read);
      assert id !in GameIds(prev.value);
      assert GameIds(games) == GameIds(prev.value) + GameIds(extra);
      ClassifyKeepsTerminal(id, read(id).timeLeft, read(id).state);
      if extra != [] {
        assert GameIds(extra)[0] == id;
      }
    }
  }

  /**
   * In a successful batch: a resolved game is listed, a game without a readable time
   * left is listed with zero seconds, and an unresolved game with time left is not.
   */
  lemma PastGamesListing(n: nat, read: nat -> GameRead, id: nat)
    requires FetchAll(n, read).Ok? && id < n
    ensures read(id).Fetched?
    ensures HasWinner(read(id).state) ==> id in GameIds(FetchAll(n, read).value)
    ensures read(id).timeLeft.None? ==>
      exists j :: 0 <= j < |FetchAll(n, read).value| &&
        FetchAll(n, read).value[j] == PastGame(read(id).state, id, TimeLeft(0))
    ensures !HasWinner(read(id).state) && read(id).timeLeft.Some? && read(id).timeLeft.value.seconds > 0 ==>
      id !in GameIds(FetchAll(n, read).value)
  {
    var games := FetchAll(n, read).value;
    FetchAllKeepsExactlyTerminal(n, read, id);
    FetchAllShape(n, read);
    if read(id).timeLeft.None? {
      var j :| 0 <= j < |games| && GameIds(games)[j] == id;
      assert games[j] == PastGame(read(id).state, id, TimeLeft(0));
    }
  }

  const Player1Label: string := "Player 1"
  const Player2Label: string := "Player 2"
  const UnknownLabel: string := "Unknown"
  const NotResolvedLabel: string := "Not resolved yet"

  /** The winner column: which player won, "Unknown" for a third address, or not resolved. */
  function WinnerLabel(s: GameState): (r: string)
    ensures r == NotResolvedLabel <==> !HasWinner(s)
    ensures r == Player1Label <==> HasWinner(s) && s.winner.value == s.player1
    ensures r == Player2Label <==> HasWinner(s) && s.winner.value != s.player1 && s.player2 == s.winner
    ensures r == UnknownLabel <==> HasWinner(s) && s.winner.value != s.player1 && s.player2 != s.winner
  {
    if HasWinner(s) then
      if s.winner.value == s.player1 then Player1Label
      else if Some(s.winner.value) == s.player2 then Player2Label
      else UnknownLabel
    else NotResolvedLabel
  }

  /** A listed game shown as "Not resolved yet" has run out of time. */
  lemma {:induction false} UnresolvedPastGamesExpired(n: nat, read: nat -> GameRead, j: nat)
    requires FetchAll(n, read).Ok? && j < |FetchAll(n, read).value|
    requires WinnerLabel(FetchAll(n, read).value[j].state) == NotResolvedLabel
    ensures FetchAll(n, read).value[j].timeLeft.seconds <= 0
  {
    FetchAllShape(n, read);
  }

  /** The past-games component's state: the stored games and the error message. */
  class PastGamesView {
    var gameStates: seq<PastGame>
    var error: Option<string>

    constructor ()
      ensures gameStates == [] && error == None
    {
      gameStates := [];
      error := None;
    }

    /**
     * One refresh (`fetchGameStates`): `counter` is how the counter read settled
     * (`None` for `undefined`), `read` how the reads of each game id settle.
     * No partial result is ever stored, and a success leaves the error as it was.
     */
    method FetchGameStates(counter: Result<Option<int>>, read: nat -> GameRead)
      modifies this
      ensures counter.Err? ==> gameStates == old(gameStates) && error == Some(FetchFailedMessage)
      ensures counter == Ok(None) || counter == Ok(Some(0)) ==> gameStates == old(gameStates) && error == old(error)
      ensures counter.Ok? && counter.value.Some? && counter.value.value != 0 ==>
        var batch := FetchAll(ArrayFromLength(counter.value.value), read);
        (batch.Err? ==> gameStates == old(gameStates) && error == Some(FetchFailedMessage)) &&
        (batch.Ok? ==> gameStates == batch.value && error == old(error))
    ensures counter.Ok? && counter.value.Some? && counter.value.value < 0 ==> gameStates == [] && error == old(error)
    {
      match counter {
        case Err(_) =>
          error := Some(FetchFailedMessage);
        case Ok(gameIdCounter) =>
          if gameIdCounter == None || gameIdCounter == Some(0) {
            return;
          }
          var batch := FetchAll(ArrayFromLength(gameIdCounter.value), read);
          match batch {
            case Err(_) =>
              error := Some(FetchFailedMessage);
            case Ok(filteredStates) =>
              gameStates := filteredStates;
          }
      }
    }
  }
}
