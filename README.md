# Coin-flip lobby front end: a verified model of its view rules

This project models, in Dafny, the small rules that the coin-flip dApp's React
components apply to the data they read from the chain and the indexer:

- **Past games** (`GetGameState.tsx`): read the game counter, read the time left and
  the state of every id below it, keep only resolved, expired or time-less games,
  store them all or nothing, and label each winner.
- **Available games** (`Available.tsx`): sort the indexer's games by numeric id,
  newest first, show five per page, enable Previous/Next, and track the row whose
  join is in flight and the error message of a failed join, resolve or claim.
- **Create game** (`CreateGame.tsx`): the form's state record, the ordered input
  validation, the submit transitions around the contract call, and the token
  balance/symbol read that falls back to a second provider.
- **My games** (`MyGame.tsx`): token-name lookup in the fixed token registry and
  the shortened display of an address.
- **Leaderboard** (`Leaderb.tsx`): the category picks a query and a dataset; the
  player address is the part of an entry id before the first `-`.

Modules: `JsValues` (optional values, settled calls, thrown values, NaN-aware
numbers, JavaScript `slice`), `MyGame`, `Leaderboard`, `PastGames`,
`AvailableGames`, `CreateGame`. State that a component updates through setters is
a class (`PastGames.PastGamesView`, `AvailableGames.GameList`,
`CreateGame.CreateGameForm`). The join and create handlers are split at their
`await` into a "started" and a "settled" method, and a combined method runs both
halves when nothing else happens in between. The resolve, claim, token-read and
past-games refresh handlers are single methods, applied in one step once their
calls have settled. The outcome of every unseen contract call is a parameter.
Pure expressions stay functions.

The Create Game button's disabled test (`CreateGame.CreateButtonDisabled`,
`CreateGame.tsx:290`) and the Previous/Next tests (`AvailableGames.PreviousDisabled`,
`AvailableGames.NextDisabled`, `Available.tsx:174,182`) are predicates. The rows
below that cite those lines state what the predicates guarantee.

Where one might expect otherwise, the model follows the code:

- The live past-games component refreshes once, on mount. The 10-second polling
  variant is commented out.
- Errors are plain strings, not a classified error taxonomy.
- Page navigation is never clamped. It stays in range only because the buttons
  that would leave the range are disabled.

## Model

| member | source | states |
|---|---|---|
| PastGames.FetchAll | src/components/GetGameState.tsx:228-255 | the batch over ids below the counter: a success has at most `counter` entries, and a failure carries the thrown value of the read of some id below the counter |
| PastGames.Classify | src/components/GetGameState.tsx:237-250 | a game with a winner is kept; a game without a time left is kept with `{seconds: 0}`; an unresolved game with time left is dropped; a kept entry carries its id and state |
| PastGames.ClassifyKeepsTerminal | src/components/GetGameState.tsx:238-250 | a game is kept exactly when it is terminal (resolved, out of time, or no time left readable) |
| PastGames.FetchAllFailsIff | src/components/GetGameState.tsx:228-252 | the batch of reads fails exactly when the read of some id below the counter fails |
| PastGames.FetchAllShape | src/components/GetGameState.tsx:228-255 | a successful batch has at most `counter` entries, ids below the counter, strictly increasing, each the classifier's record for its id |
| PastGames.FetchAllKeepsExactlyTerminal | src/components/GetGameState.tsx:237-255 | an id below the counter is in a successful batch exactly when its game is terminal |
| PastGames.PastGamesListing | src/components/GetGameState.tsx:238-255 | in a successful batch a resolved game is listed, a game without time left is listed with zero seconds, and an active game is not listed |
| PastGames.WinnerLabel | src/components/GetGameState.tsx:346-352 | "Not resolved yet" exactly without a winner; otherwise "Player 1" when the winner is player 1, else "Player 2" when it is player 2, else "Unknown" |
| PastGames.UnresolvedPastGamesExpired | src/components/GetGameState.tsx:238-255 | a listed game labelled "Not resolved yet" has time left at most zero |
| PastGames.PastGamesView.constructor | src/components/GetGameState.tsx:214-215 | no games and no error at first |
| PastGames.PastGamesView.FetchGameStates | src/components/GetGameState.tsx:218-260 | counter 0 or undefined changes nothing; a negative counter visits no id, so it stores an empty list and keeps the error; any failed read sets "Failed to fetch game states" and keeps the old games; success stores the whole batch and leaves the error alone |
| AvailableGames.SortByIdDescending | src/components/PvpSection/components/Available.tsx:55-58 | the sorted list is non-increasing in id and a permutation of the fetched games |
| AvailableGames.SortIsStable | src/components/PvpSection/components/Available.tsx:58 | games that share an id keep their fetched order |
| AvailableGames.Page | src/components/PvpSection/components/Available.tsx:61-63 | the slice for any page number holds at most five games, all taken from the sorted list |
| AvailableGames.PageContents | src/components/PvpSection/components/Available.tsx:60-63 | page p shows the sorted games at positions (p-1)*5 to min(p*5, n), so at most five |
| AvailableGames.PagesUpToIsPrefix | src/components/PvpSection/components/Available.tsx:61-63 | pages 1 to k together are the first min(5k, n) sorted games |
| AvailableGames.PagesCoverSorted | src/components/PvpSection/components/Available.tsx:61-63 | pages 1 to ceil(n/5) together list every sorted game exactly once, in order |
| AvailableGames.ReachablePageNonEmpty | src/components/PvpSection/components/Available.tsx:61-63 | every page that navigation can reach shows one to five games when there are games |
| AvailableGames.NextDisabledIffNoNextPage | src/components/PvpSection/components/Available.tsx:180-183 | from page p >= 1, Next is disabled exactly when page p+1 would be empty |
| AvailableGames.JoinFailureMessage | src/components/PvpSection/components/Available.tsx:75 | "Failed to join game: " plus the message for an Error, and a message without that prefix otherwise |
| AvailableGames.ResolveFailureMessage | src/components/PvpSection/components/Available.tsx:89 | always starts "Failed to resolve game: ", followed by an Error's message |
| AvailableGames.ClaimFailureMessage | src/components/PvpSection/components/Available.tsx:101 | always starts "Failed to claim reward: ", followed by an Error's message |
| AvailableGames.GameList.constructor | src/components/PvpSection/components/Available.tsx:46-49 | page 1, no row in flight, no error |
| AvailableGames.GameList.CurrentGames | src/components/PvpSection/components/Available.tsx:63 | the rows on screen are at most five fetched games, and at least one whenever there are games and the page is reachable |
| AvailableGames.GameList.JoinButtonLabel | src/components/PvpSection/components/Available.tsx:160 | a row reads "Joining..." exactly while its game is the one in flight |
| AvailableGames.GameList.HandlePageChange | src/components/PvpSection/components/Available.tsx:105-108 | sets the page and nothing else |
| AvailableGames.GameList.ClickPrevious | src/components/PvpSection/components/Available.tsx:172-178 | disabled on page 1; otherwise goes back one page; the page stays within 1 to max(1, ceil(n/5)) |
| AvailableGames.GameList.ClickNext | src/components/PvpSection/components/Available.tsx:180-186 | disabled once page*5 >= n; otherwise goes forward one page; the page stays within 1 to max(1, ceil(n/5)) |
| AvailableGames.GameList.JoinStarted | src/components/PvpSection/components/Available.tsx:66-68 | before the call: the row's game id is in flight and the error is cleared |
| AvailableGames.GameList.JoinSettled | src/components/PvpSection/components/Available.tsx:69-78 | after the call: a failure sets the join message; either way no row is in flight |
| AvailableGames.GameList.HandleJoinGame | src/components/PvpSection/components/Available.tsx:66-79 | a whole join ends with no row in flight and the error set only if the call failed |
| AvailableGames.GameList.HandleResolveGame | src/components/PvpSection/components/Available.tsx:81-91 | a failure sets the resolve message; the row mark and the page never change |
| AvailableGames.GameList.HandleClaimReward | src/components/PvpSection/components/Available.tsx:93-103 | a failure sets the claim message; the row mark and the page never change |
| CreateGame.InitialState | src/components/PvpSection/components/CreateGame.tsx:32-42 | starts on the registry's first token (STABLEAI) with its address and symbol, the choice "Tails" (`player1Choice` false), the default timeout "3600" (one of the offered ones), an empty bet, a balance of "0", not loading, and no messages |
| CreateGame.ValidateInput | src/components/PvpSection/components/CreateGame.tsx:98-108 | returns the first failing check (not connected, bet empty or <= 0, balance < bet, timeout empty or < 300), and none only when all four pass |
| CreateGame.ValidationError.Message | src/components/PvpSection/components/CreateGame.tsx:99-106 | every check's message is non-empty, and the balance message embeds the token symbol between "Insufficient " and " balance" |
| CreateGame.MessagesIdentifyCheck | src/components/PvpSection/components/CreateGame.tsx:98-108 | different failed checks show different messages |
| CreateGame.OfferedTimeoutsPass | src/components/PvpSection/components/CreateGame.tsx:248-250 | each offered timeout (300, 3600, 86400, the default among them) passes the timeout check, for any `parseInt` that reads non-empty digit strings of at most 15 digits exactly |
| CreateGame.ReadsDigitsAllowsJsParseInt | src/components/PvpSection/components/CreateGame.tsx:105 | the digit-reading assumption admits a `parseInt` that answers NaN on the empty string and rounds a 16-digit value to the nearest double (9007199254740993 read as 9007199254740992) |
| CreateGame.CreateFailureMessage | src/components/PvpSection/components/CreateGame.tsx:149 | the thrown message when it is truthy, else "Failed to create game"; never empty |
| CreateGame.CreateGameForm.constructor | src/components/PvpSection/components/CreateGame.tsx:32-42 | the form starts in the initial state |
| CreateGame.CreateGameForm.SetBetAmount | src/components/PvpSection/components/CreateGame.tsx:199-201 | only the bet text changes |
| CreateGame.CreateGameForm.SelectToken | src/components/PvpSection/components/CreateGame.tsx:217-222 | only the token address changes |
| CreateGame.CreateGameForm.SelectTimeout | src/components/PvpSection/components/CreateGame.tsx:240-245 | only the timeout changes |
| CreateGame.CreateGameForm.ChooseSide | src/components/PvpSection/components/CreateGame.tsx:260-283 | only the chosen side changes |
| CreateGame.CreateGameForm.FetchTokenBalance | src/components/PvpSection/components/CreateGame.tsx:44-92 | asks no provider without an address, token or connection; asks the fallback only after the primary failed; sets "Failed to fetch token details" only when both fail, keeping balance and symbol |
| CreateGame.CreateGameForm.SubmitStarted | src/components/PvpSection/components/CreateGame.tsx:110-124 | a failed validation only sets its message and does not call the contract; otherwise error and success are cleared and loading is set, which disables the button |
| CreateGame.CreateGameForm.SubmitSettled | src/components/PvpSection/components/CreateGame.tsx:126-153 | success shows "Game created successfully!", stops loading and clears the bet; failure shows the message, stops loading and keeps the bet |
| CreateGame.CreateGameForm.HandleCreateGame | src/components/PvpSection/components/CreateGame.tsx:110-154 | the whole submission: contract called exactly when validation passes, then the settled state |
| CreateGame.CreateGameForm.ErrorTimerFired | src/components/PvpSection/components/CreateGame.tsx:115 | the delayed clear removes the error only |
| CreateGame.CreateGameForm.SuccessTimerFired | src/components/PvpSection/components/CreateGame.tsx:141-143 | the delayed clear removes the success message only |
| MyGame.FirstMatch | src/components/PvpSection/components/MyGame.tsx:108-110 | the index of the first entry whose address equals the input exactly, or none exactly when no entry has it |
| MyGame.TokenName | src/components/PvpSection/components/MyGame.tsx:106-112 | never fails: always a registry key or "Unknown Token" |
| MyGame.TokenNameIsFirstMatch | src/components/PvpSection/components/MyGame.tsx:108-110 | the name is the key of the first entry with that address |
| MyGame.UnknownTokenIsNoKey | src/components/PvpSection/components/MyGame.tsx:111 | the sentinel differs from every registry key |
| MyGame.TokenNameUnknownIffUnregistered | src/components/PvpSection/components/MyGame.tsx:106-112 | "Unknown Token" is answered exactly for addresses no entry has |
| MyGame.RegistryAddressesDistinct | src/components/PvpSection/components/MyGame.tsx:56-64 | the registry's addresses are pairwise distinct |
| MyGame.TokenNameOfRegistered | src/components/PvpSection/components/MyGame.tsx:106-112 | looking up a registered address gives back its own key |
| MyGame.FormatAddress | src/components/PvpSection/components/MyGame.tsx:102-104 | the first four characters, "...", the last four; length 11 for addresses of at least 8 characters; a string shorter than 4 appears twice |
| Leaderboard.QueryFor | src/components/PvpSection/components/Leaderb.tsx:35-39 | the bet query runs exactly for "Bet", the wins query exactly for "Win", and the payout query for any other category |
| Leaderboard.DatasetFor | src/components/PvpSection/components/Leaderb.tsx:46-48 | the dataset read is the field of the answer that the selected query fills |
| Leaderboard.DefaultCategoryShowsBets | src/components/PvpSection/components/Leaderb.tsx:32-48 | the initial category "Bet" runs the bet query and shows its dataset |
| Leaderboard.DatasetMatchesQuery | src/components/PvpSection/components/Leaderb.tsx:35-48 | the dataset read is the one the query that ran fills: Bet gives playerBets, Win gives playerWins, anything else gives playerPayouts |
| Leaderboard.PlayerAddress | src/components/PvpSection/components/Leaderb.tsx:98 | a prefix of the id without '-', followed in the id by '-' unless it is the whole id |
| Leaderboard.PlayerAddressOfEntryId | src/components/PvpSection/components/Leaderb.tsx:98 | an id "player-token" whose player part has no '-' gives back that player |
| Leaderboard.EntryRows | src/components/PvpSection/components/Leaderb.tsx:97-109 | exactly one row per entry, each a player row and never the "No players found" row |
| Leaderboard.Rows | src/components/PvpSection/components/Leaderb.tsx:95-115 | missing or empty data gives exactly the one "No players found" row, and only then |
| Leaderboard.RowsOfEntries | src/components/PvpSection/components/Leaderb.tsx:97-109 | otherwise one row per entry: the shortened player address and the category's amount |
| Leaderboard.AmountCell | src/components/PvpSection/components/Leaderb.tsx:102-107 | the cell is converted exactly for "Bet" and empty exactly for a category other than Bet, Win and Payout |
| Leaderboard.AmountCellByCategory | src/components/PvpSection/components/Leaderb.tsx:102-107 | Bet shows the converted bet; Win and Payout show the raw amounts unchanged |

## Left out

- Converting wei to ether for display (`weiToEther`) goes through floating point. It is kept as an uninterpreted cell (`Leaderboard.EtherOf`) and never computed.
- `ethers.formatUnits` is not modelled. A provider read yields the balance already formatted.
- `parseFloat` and `parseInt` are parameters, text to a number or NaN. Only their result on non-empty digit strings of at most 15 digits is assumed (those values are below 2^53, so JavaScript reads them exactly), and only in `CreateGame.OfferedTimeoutsPass`. Infinity is not modelled.
- PastGames.PastGamesView.FetchGameStates: the counter read is taken to settle to a JavaScript number or `undefined`. A bigint counter (as an unconverted uint256 read would give) never equals `0` and makes `Array.from` throw, and a `null` counter would store an empty list; neither case is modelled, since the utils module that performs the read is not part of this model.
- JsValues.Slice, MyGame.FormatAddress and Leaderboard.PlayerAddress count characters as Unicode scalar values, whereas JavaScript's `slice` and `split` count UTF-16 code units. The two agree on the ASCII hex addresses and ids these functions receive.
- `Number(gameId)` on the indexer's id strings is taken as a natural number. A non-numeric id would make the sort comparator return NaN, and that case is not modelled.
- The contract calls and their on-chain effects are parameters: `createGame`, `joinGame`, `resolveGame`, `claimReward`, `getGameIdCounter`, `getGameState`, `getTimeLeftToExpire`, `balanceOf` and `symbol`. They live in a utils module that is not part of this model.
- The token registry that `CreateGame.tsx` imports comes from that same utils module. It is taken to equal the local copy in `MyGame.tsx`.
- `Promise.all` concurrency is not modelled. The batch of reads is evaluated in id order, and which rejection surfaces first is not modelled, because the stored message is the same either way.
- Async interleaving is modelled only for join and create, at their single `await`, through the started/settled method pairs. Resolve, claim, the token read (two awaits) and the past-games refresh are applied in one step once their calls settle.
- The `setTimeout` clears are the explicit events `ErrorTimerFired` and `SuccessTimerFired`, with no clock.
- The balance re-read after a successful creation, and the re-read when the wallet or token changes, are separate `FetchTokenBalance` calls made by the caller.
- AvailableGames.GameList.JoinSettled: with two joins in flight, the first to settle clears the row mark of the other one, as in the source. The model has one `loadingGameId` and does not track which join set it.
- AvailableGames.GameList: the fetched list is fixed for the object's life. An indexer refetch that shrinks it, and could leave the current page out of range, is not modelled.
- A winner is "set" when it is truthy: not missing and not the empty string. A zero address read from the contract would count as a winner. Whether the unseen `getGameState` maps it to a falsy value is not part of this model.
- The thrown value is assumed to be an object. `error.message` on a thrown `undefined` would itself throw, and that is not modelled.
- Apollo loading/error screens, all JSX rendering and styling, routing and providers, the home page, the modal state of the PvP page, and the query strings are not modelled.
- The commented-out earlier past-games component (`GetGameState.tsx:1-201`) is not modelled.
- The MyGame tab selection and its three queries only choose what is rendered, so they are not modelled. The same holds for the leaderboard's token select.
