/**
 * The lobby of open games: the indexer's games sorted by numeric id, newest first,
 * shown five to a page, with Previous/Next navigation and per-row join handling.
 */
module AvailableGames {
  import opened JsValues

  /** One open game as the indexer reports it; `gameId` is the numeric value of its id string. */
  datatype AvailableGame = AvailableGame(
    id: string, gameId: nat, player1: string, betAmount: string,
    player1Choice: bool, tokenName: string, tokenSymbol: string)

  const GamesPerPage: nat := 5

  ghost predicate SortedDescending(s: seq<AvailableGame>)
  {
    forall i, j :: 0 <= i < j < |s| ==> s[i].gameId >= s[j].gameId
  }

  /** The games of `s` whose id is `k`, in their order in `s`. */
  function WithId(s: seq<AvailableGame>, k: nat): seq<AvailableGame>
  {
    if s == [] then []
    else (if s[0].gameId == k then [s[0]] else []) + WithId(s[1..], k)
  }

  /** Puts `g` in a descending sequence ahead of the games whose id is not larger. */
  function Insert(g: AvailableGame, s: seq<AvailableGame>): (r: seq<AvailableGame>)
    ensures multiset(r) == multiset(s) + multiset{g}
    ensures r[0] == g || (s != [] && r[0] == s[0])
  {
    if s == [] || s[0].gameId <= g.gameId then [g] + s
    else
      assert s == [s[0]] + s[1..];
      [s[0]] + Insert(g, s[1..])
  }

  lemma {:induction false} InsertKeepsSorted(g: AvailableGame, s: seq<AvailableGame>)
    requires SortedDescending(s)
    ensures SortedDescending(Insert(g, s))
  {
    if s != [] && s[0].gameId > g.gameId {
      InsertKeepsSorted(g, s[1..]);
      var rest := Insert(g, s[1..]);
      assert rest[0].gameId <= s[0].gameId;
      var r := [s[0]] + rest;
      forall i, j | 0 <= i < j < |r| ensures r[i].gameId >= r[j].gameId {
        assert r[j] == rest[j - 1];
        if i > 0 {
          assert r[i] == rest[i - 1];
        } else if j > 1 {
          assert rest[0].gameId >= rest[j - 1].gameId;
        }
      }
    }
  }

  /**
   * `[...games].sort((a, b) => Number(b.gameId) - Number(a.gameId))`: a new sequence,
   * descending by id; the sort is stable, so games with one id keep their order.
   */
  function SortByIdDescending(games: seq<AvailableGame>): (r: seq<AvailableGame>)
    ensures SortedDescending(r)
    ensures multiset(r) == multiset(games)
  {
    if games == [] then []
    else
      assert games == [games[0]] + games[1..];
      InsertKeepsSorted(games[0], SortByIdDescending(games[1..]));
      Insert(games[0], SortByIdDescending(games[1..]))
  }

  lemma {:induction false} WithIdConcat(a: seq<AvailableGame>, b: seq<AvailableGame>, k: nat)
    ensures WithId(a + b, k) == WithId(a, k) + WithId(b, k)
  {
    if a != [] {
      assert (a + b)[0] == a[0];
      assert (a + b)[1..] == a[1..] + b;
      WithIdConcat(a[1..], b, k);
    } else {
      assert a + b == b;
    }
  }

  lemma {:induction false} WithIdInsert(g: AvailableGame, s: seq<AvailableGame>, k: nat)
    requires SortedDescending(s)
    ensures WithId(Insert(g, s), k) == WithId([g], k) + WithId(s, k)
  {
    if s == [] || s[0].gameId <= g.gameId {
      WithIdConcat([g], s, k);
    } else {
      WithIdInsert(g, s[1..], k);
      WithIdConcat([s[0]], Insert(g, s[1..]), k);
      WithIdConcat([s[0]], s[1..], k);
      assert s == [s[0]] + s[1..];
    }
  }

  /** Stability: the games that share an id appear in the sorted list in their fetched order. */
  lemma {:induction false} SortIsStable(games: seq<AvailableGame>, k: nat)
    ensures WithId(SortByIdDescending(games), k) == WithId(games, k)
  {
    if games != [] {
      SortIsStable(games[1..], k);
      WithIdInsert(games[0], SortByIdDescending(games[1..]), k);
      WithIdConcat([games[0]], games[1..], k);
      assert games == [games[0]] + games[1..];
    }
  }

  /** The rows of page `currentPage`: `slice(currentPage * 5 - 5, currentPage * 5)`. */
  function Page(sorted: seq<AvailableGame>, currentPage: int): (r: seq<AvailableGame>)
    ensures |r| <= GamesPerPage
    ensures forall g :: g in r ==> g in sorted
  {
    Slice(sorted, currentPage * GamesPerPage - GamesPerPage, currentPage * GamesPerPage)
  }

  function Min(a: int, b: int): int
  {
    if a <= b then a else b
  }

  /** Page p (from 1) holds the games at positions (p-1)*5 up to p*5, cut at the end: at most five. */
  lemma PageContents(sorted: seq<AvailableGame>, p: int)
    requires p >= 1
    ensures Page(sorted, p) == sorted[Min((p - 1) * GamesPerPage, |sorted|)..Min(p * GamesPerPage, |sorted|)]
    ensures |Page(sorted, p)| <= GamesPerPage
  {
  }

  /** ceil(n / 5): the number of pages that hold `n` games. */
  function PageCount(n: nat): (r: nat)
    ensures r * GamesPerPage >= n
    ensures r > 0 ==> (r - 1) * GamesPerPage < n
  {
    (n + GamesPerPage - 1) / GamesPerPage
  }

  /** Pages 1 to k, one after the other. */
  function PagesUpTo(sorted: seq<AvailableGame>, k: nat): seq<AvailableGame>
  {
    if k == 0 then [] else PagesUpTo(sorted, k - 1) + Page(sorted, k)
  }

  lemma {:induction false} PagesUpToIsPrefix(sorted: seq<AvailableGame>, k: nat)
    ensures PagesUpTo(sorted, k) == sorted[..Min(k * GamesPerPage, |sorted|)]
  {
    if k > 0 {
      PagesUpToIsPrefix(sorted, k - 1);
      PageContents(sorted, k);
    }
  }

  /** Pages 1 to ceil(n/5) list every sorted game exactly once, in sorted order. */
  lemma PagesCoverSorted(sorted: seq<AvailableGame>)
    ensures PagesUpTo(sorted, PageCount(|sorted|)) == sorted
  {
    PagesUpToIsPrefix(sorted, PageCount(|sorted|));
  }

  /** Every page the navigation can reach shows at least one game when there are games. */
  lemma ReachablePageNonEmpty(sorted: seq<AvailableGame>, p: int)
    requires |sorted| > 0 && 1 <= p <= LastPage(|sorted|)
    ensures 1 <= |Page(sorted, p)| <= GamesPerPage
  {
    PageContents(sorted, p);
  }

  /** The Previous button is disabled on the first page. */
  predicate PreviousDisabled(currentPage: int)
  {
    currentPage == 1
  }

  /** The Next button is disabled once this page reaches the last game. */
  predicate NextDisabled(currentPage: int, gameCount: nat)
  {
    currentPage * GamesPerPage >= gameCount
  }

  /** From a page p >= 1, Next is disabled exactly when the next page would be empty. */
  lemma NextDisabledIffNoNextPage(sorted: seq<AvailableGame>, p: int)
    requires p >= 1
    ensures NextDisabled(p, |sorted|) <==> Page(sorted, p + 1) == []
  {
    PageContents(sorted, p + 1);
  }

  /** The highest page the navigation can reach: the last page, or page 1 when there are no games. */
  function LastPage(gameCount: nat): (r: int)
    ensures r >= 1 && r >= PageCount(gameCount)
  {
    if PageCount(gameCount) < 1 then 1 else PageCount(gameCount)
  }

  const JoiningLabel: string := "Joining..."
  const JoinLabel: string := "Join"

  const UnknownJoinError: string := "An unknown error occurred " + "while trying to join the game."
  const JoinFailurePrefix: string := "Failed to join game: "
  const ResolveFailurePrefix: string := "Failed to resolve game: "
  const ClaimFailurePrefix: string := "Failed to claim reward: "

  /** The error shown after a failed join; only an `Error` instance gets the prefixed message. */
  function JoinFailureMessage(t: Thrown): (r: string)
    ensures t.ErrorInstance? ==> r == JoinFailurePrefix + t.message
    ensures t.ErrorInstance? <==> JoinFailurePrefix <= r
  {
    match t
    case ErrorInstance(m) => JoinFailurePrefix + m
    case OtherValue(_) =>
      assert UnknownJoinError[0] == 'A' && JoinFailurePrefix[0] == 'F';
      UnknownJoinError
  }

  /** The error shown after a failed resolve: always prefixed, with a fixed text for non-`Error` values. */
  function ResolveFailureMessage(t: Thrown): (r: string)
    ensures ResolveFailurePrefix <= r
    ensures t.ErrorInstance? ==> r == ResolveFailurePrefix + t.message
  {
    match t
    case ErrorInstance(m) => ResolveFailurePrefix + m
    case OtherValue(_) => ResolveFailurePrefix + "An unknown error occurred."
  }

  /** The error shown after a failed claim: always prefixed, with a fixed text for non-`Error` values. */
  function ClaimFailureMessage(t: Thrown): (r: string)
    ensures ClaimFailurePrefix <= r
    ensures t.ErrorInstance? ==> r == ClaimFailurePrefix + t.message
  {
    match t
    case ErrorInstance(m) => ClaimFailurePrefix + m
    case OtherValue(_) => ClaimFailurePrefix + "An unknown error occurred."
  }

  /** The lobby component's state over one answer of the available-games query. */
  class GameList {
    const games: seq<AvailableGame>
    var currentPage: int
    var loadingGameId: Option<int>
    var errorMessage: Option<string>

    /** The page is one that the navigation buttons can reach. */
    predicate PageInRange()
      reads this
    {
      1 <= currentPage <= LastPage(|games|)
    }

    constructor (games: seq<AvailableGame>)
      ensures this.games == games
      ensures currentPage == 1 && loadingGameId == None && errorMessage == None
      ensures PageInRange()
    {
      this.games := games;
      currentPage := 1;
      loadingGameId := None;
      errorMessage := None;
    }

    /** The rows on screen. */
    function CurrentGames(): (r: seq<AvailableGame>)
      reads this
      ensures |r| <= GamesPerPage
      ensures forall g :: g in r ==> g in games
      ensures PageInRange() && games != [] ==> r != []
    {
      var sorted := SortByIdDescending(games);
      assert forall g :: g in sorted ==> g in multiset(sorted);
      if PageInRange() && games != [] then
        ReachablePageNonEmpty(sorted, currentPage);
        Page(sorted, currentPage)
      else
        Page(sorted, currentPage)
    }

    /** The label of a row's Join button. */
    function JoinButtonLabel(game: AvailableGame): (r: string)
      reads this
      ensures r == JoiningLabel <==> loadingGameId == Some(game.gameId)
    {
      if loadingGameId == Some(game.gameId) then JoiningLabel else JoinLabel
    }

    method HandlePageChange(page: int)
      modifies this
      ensures currentPage == page
      ensures loadingGameId == old(loadingGameId) && errorMessage == old(errorMessage)
    {
      currentPage := page;
    }

    /** A click on Previous; a disabled button does nothing. */
    method ClickPrevious()
      requires PageInRange()
      modifies this
      ensures PreviousDisabled(old(currentPage)) ==> currentPage == old(currentPage)
      ensures !PreviousDisabled(old(currentPage)) ==> currentPage == old(currentPage) - 1
      ensures loadingGameId == old(loadingGameId) && errorMessage == old(errorMessage)
      ensures PageInRange()
    {
      if !PreviousDisabled(currentPage) {
        HandlePageChange(currentPage - 1);
      }
    }

    /** A click on Next; a disabled button does nothing. */
    method ClickNext()
      requires PageInRange()
      modifies this
      ensures NextDisabled(old(currentPage), |games|) ==> currentPage == old(currentPage)
      ensures !NextDisabled(old(currentPage), |games|) ==> currentPage == old(currentPage) + 1
      ensures loadingGameId == old(loadingGameId) && errorMessage == old(errorMessage)
      ensures PageInRange()
    {
      if !NextDisabled(currentPage, |games|) {
        HandlePageChange(currentPage + 1);
      }
    }

    /** `handleJoinGame` up to its `await`: the row is marked in flight and the error cleared. */
    method JoinStarted(gameId: nat)
      modifies this
      ensures loadingGameId == Some(gameId) && errorMessage == None
      ensures currentPage == old(currentPage)
    {
      loadingGameId := Some(gameId);
      errorMessage := None;
    }

    /** `handleJoinGame` after its `await`: a failure is reported, and `finally` clears the row mark. */
    method JoinSettled(outcome: Result<()>)
      modifies this
      ensures loadingGameId == None
      ensures outcome.Err? ==> errorMessage == Some(JoinFailureMessage(outcome.thrown))
      ensures outcome.Ok? ==> errorMessage == old(errorMessage)
      ensures currentPage == old(currentPage)
    {
      if outcome.Err? {
        errorMessage := Some(JoinFailureMessage(outcome.thrown));
      }
      loadingGameId := None;
    }

    /** A join with nothing else happening while its call is awaited. */
    method HandleJoinGame(gameId: nat, outcome: Result<()>)
      modifies this
      ensures loadingGameId == None
      ensures errorMessage == if outcome.Err? then Some(JoinFailureMessage(outcome.thrown)) else None
      ensures currentPage == old(currentPage)
    {
      JoinStarted(gameId);
      JoinSettled(outcome);
    }

    /** `handleResolveGame`: only a failure changes anything, and it never touches the row mark. */
    method HandleResolveGame(gameId: nat, outcome: Result<()>)
      modifies this
      ensures errorMessage == if outcome.Err? then Some(ResolveFailureMessage(outcome.thrown)) else old(errorMessage)
      ensures loadingGameId == old(loadingGameId) && currentPage == old(currentPage)
    {
      if outcome.Err? {
        errorMessage := Some(ResolveFailureMessage(outcome.thrown));
      }
    }

    /** `handleClaimReward`: only a failure changes anything, and it never touches the row mark. */
    method HandleClaimReward(gameId: nat, outcome: Result<()>)
      modifies this
      ensures errorMessage == if outcome.Err? then Some(ClaimFailureMessage(outcome.thrown)) else old(errorMessage)
      ensures loadingGameId == old(loadingGameId) && currentPage == old(currentPage)
    {
      if outcome.Err? {
        errorMessage := Some(ClaimFailureMessage(outcome.thrown));
      }
    }
  }
}
