/**
 * The leaderboard: the ranking category picks one of three indexer queries and the
 * matching dataset of the answer; each entry's id is "<player address>-<token address>".
 */
module Leaderboard {
  import opened JsValues
  import MyGame

  /** The three top-ten queries of the indexer. */
  datatype Query = TopByBet | TopByWins | TopByPayout

  /** One ranking entry; only the amount of the query that produced it is present. */
  datatype Entry = Entry(id: string, betAmount: Option<string>, winAmount: Option<string>, payoutAmount: Option<string>)

  /** The answer of a query: each dataset is absent unless its query was the one run. */
  datatype QueryData = QueryData(playerBets: Option<seq<Entry>>, playerWins: Option<seq<Entry>>, playerPayouts: Option<seq<Entry>>)

  /** What the amount column shows: the bet converted from wei, a raw amount, or nothing. */
  datatype Amount = EtherOf(wei: Option<string>) | Raw(value: Option<string>) | Blank

  datatype Row = PlayerRow(player: string, amount: Amount) | NoPlayersRow

  /** The category the select starts with. */
  const DefaultCategory: string := "Bet"

  /** The query run for a category: "Bet", then "Win", and anything else asks for payouts. */
  function QueryFor(category: string): (q: Query)
    ensures q == TopByBet <==> category == "Bet"
    ensures q == TopByWins <==> category == "Win"
  {
    if category == "Bet" then TopByBet
    else if category == "Win" then TopByWins
    else TopByPayout
  }

  /** The dataset read out of the answer for a category, chosen by its own test of the category. */
  function DatasetFor(category: string, data: QueryData): (r: Option<seq<Entry>>)
    ensures r == ResultOf(QueryFor(category), data)
  {
    if category == "Bet" then data.playerBets
    else if category == "Win" then data.playerWins
    else data.playerPayouts
  }

  /** The field of the answer that a query fills. */
  function ResultOf(q: Query, data: QueryData): Option<seq<Entry>>
  {
    match q
    case TopByBet => data.playerBets
    case TopByWins => data.playerWins
    case TopByPayout => data.playerPayouts
  }

  /** The leaderboard opens on the bet ranking: its query and its dataset. */
  lemma DefaultCategoryShowsBets(data: QueryData)
    ensures QueryFor(DefaultCategory) == TopByBet
    ensures DatasetFor(DefaultCategory, data) == data.playerBets
  {
  }

  /** The dataset shown is always the one the query that ran fills. */
  lemma DatasetMatchesQuery(category: string, data: QueryData)
    ensures DatasetFor(category, data) == ResultOf(QueryFor(category), data)
    ensures category == "Bet" ==> DatasetFor(category, data) == data.playerBets
    ensures category == "Win" ==> DatasetFor(category, data) == data.playerWins
    ensures category != "Bet" && category != "Win" ==> DatasetFor(category, data) == data.playerPayouts
  {
  }

  /** `id.split('-')[0]`: the part of the id before its first '-', or all of it. */
  function PlayerAddress(id: string): (r: string)
    ensures r <= id
    ensures '-' !in r
    ensures r == id || id[|r|] == '-'
  {
    if id == [] || id[0] == '-' then []
    else [id[0]] + PlayerAddress(id[1..])
  }

  /** An id made of an address without '-', a '-' and a token address yields that address. */
  lemma {:induction false} PlayerAddressOfEntryId(player: string, token: string)
    requires '-' !in player
    ensures PlayerAddress(player + "-" + token) == player
  {
    if player != [] {
      assert (player + "-" + token)[1..] == player[1..] + "-" + token;
      PlayerAddressOfEntryId(player[1..], token);
    }
  }

  /** The amount cell: only a bet is converted; wins and payouts are shown raw. */
  function AmountCell(category: string, e: Entry): (r: Amount)
    ensures r.Blank? <==> category != "Bet" && category != "Win" && category != "Payout"
    ensures r.EtherOf? <==> category == "Bet"
  {
    if category == "Bet" then EtherOf(e.betAmount)
    else if category == "Win" then Raw(e.winAmount)
    else if category == "Payout" then Raw(e.payoutAmount)
    else Blank
  }

  function EntryRows(category: string, entries: seq<Entry>): (r: seq<Row>)
    ensures |r| == |entries|
    ensures forall i :: 0 <= i < |r| ==> r[i].PlayerRow?
  {
    seq(|entries|, i requires 0 <= i < |entries| =>
      PlayerRow(MyGame.FormatAddress(PlayerAddress(entries[i].id)), AmountCell(category, entries[i])))
  }

  /** The table body: one row per entry, or the single "No players found" row. */
  function Rows(category: string, data: QueryData): (r: seq<Row>)
    ensures |r| >= 1
    ensures (DatasetFor(category, data).None? || DatasetFor(category, data).value == []) <==> r == [NoPlayersRow]
  {
    match DatasetFor(category, data)
    case Some(entries) =>
      if |entries| > 0 then
        var rows := EntryRows(category, entries);
        assert rows[0] != NoPlayersRow;
        rows
      else [NoPlayersRow]
    case None => [NoPlayersRow]
  }

  /** With data, each row shows its entry's shortened player address and the category's amount. */
  lemma RowsOfEntries(category: string, data: QueryData, i: nat)
    requires DatasetFor(category, data).Some?
    requires i < |DatasetFor(category, data).value|
    ensures var entries := DatasetFor(category, data).value;
      |Rows(category, data)| == |entries| &&
      Rows(category, data)[i] == PlayerRow(MyGame.FormatAddress(PlayerAddress(entries[i].id)), AmountCell(category, entries[i]))
  {
  }

  /** The offered categories show: bet converted, wins and payouts raw and unchanged. */
  lemma AmountCellByCategory(e: Entry)
    ensures AmountCell("Bet", e) == EtherOf(e.betAmount)
    ensures AmountCell("Win", e) == Raw(e.winAmount)
    ensures AmountCell("Payout", e) == Raw(e.payoutAmount)
  {
  }
}
