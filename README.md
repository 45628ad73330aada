# AutoLeague2 core, modelled in Dafny

AutoLeague2 runs a league of Rocket League bots. The league picks fair 3-versus-3 matches among
bots that have not played for a while, keeps a points ranking, and keeps every state as a
timestamped snapshot file so that a match can be undone. An alternative ordering, the
bubble-sort ladder, pairs neighbours on a ladder and lets the winner climb.

The model covers five parts of the code.

- **Bot identifiers** (`bots.dfy`, module `Bots`): a bot's display name becomes its id by
  replacing every space with an underscore, and the id becomes the name again the other way.
- **The ticket ledger** (`ticket_system.dfy`, module `Tickets`, class `TicketSystem`):
  - a balance per bot, created on first use with `newBotTicketCount` (4.0);
  - the weighted draw of six bots;
  - `choose`, which resets the chosen bots to 1.0 and multiplies every other listed bot's
    balance by `ticketIncreaseRate` (2.0).
- **The two match searches** (`match_maker.dfy`, module `MatchMaker`):
  - `decide_on_players` makes up to 400 draws, shuffles each, and accepts the first one whose
    TrueSkill quality reaches `min(tries_left / 400, 0.3)`;
  - `decide_on_players_2` makes 400 draws, ranks each draw's six bots by rating, tries four
    "likely balances" as the blue team, and keeps the split of strictly highest quality.

  Both apply `choose` once, to the six bots they return.
- **The ranking system** (`ranking_system.dfy`, module `Ranking`, class `RankingSystem`) and
  **the snapshot directory** (`snapshot_log.dfy`, module `SnapshotLog`):
  - integer ratings with a lazy default of 0;
  - the win/close/loss point rule of `update` and the sorted listing;
  - `load`, `all`, `latest` and `undo` over the timestamp-ordered snapshot files, modelled as a
    sequence of snapshots, oldest first.
- **The bubble ladder** (`bubble_ladder.dfy`, module `BubbleLadders`, class `BubbleLadder`):
  - a list of bots, a cursor and a direction;
  - `next_match`, `update` and `start_from_bottom`;
  - the tagged JSON encoding and decoding of a saved ladder.

Shared pieces live in their own modules:

- `Wrappers`: `Option` and `Result`, for the source's `None` returns and raised errors;
- `Lists`: distinctness, occurrence counts, Python's negative indices, and the "ensure"
  pattern (`WithDefaults`);
- `Sorting`: Python's stable `list.sort(key=..., reverse=True)`, as a function;
- `Matches`: the team lists of a match and the final score.

Randomness and TrueSkill are passed in as functions: the "oracles", bundled in
`MatchMaker.Oracles`.

- `numpy.random.choice` becomes a `Sampler`, which takes the round number and the probabilities
  and returns the positions drawn.
- `random.shuffle` becomes a `Shuffler`.
- `trueskill.quality` becomes a `Quality`, a function of the two teams' ratings.
- What the model assumes of them is stated as predicates:
  - `Tickets.SoundSampler`: when numpy does not raise, it draws six distinct positions of
    positive probability;
  - `MatchMaker.SoundShuffler`: a shuffle only rearranges.

Each search loop is specified by a function over the round numbers:

- `MatchMaker.Search` for `decide_on_players`;
- `MatchMaker.Decide2` and `MatchMaker.BestOfRounds` for `decide_on_players_2`.

The methods that run the loops are proved equal to those functions. The properties of the
searches are lemmas about the functions.

Some ghost functions are proof devices rather than models of the source:

- `ShuffledDraws`, `DrawnRounds` and `DrawnSteps` present every round's draw as one function
  of the round number;
- `RoundsFrom` and `ScanFrom` are the loops' sequences of rounds and the fold over them.

They keep the verifier from unfolding all 400 rounds at once, and no contract of a source
operation depends on their details.

## Model

| member | source | states |
|---|---|---|
| Bots.FmtBotName | autoleague/bots.py:15-16 | the id has the name's length; every space becomes `_` and every other character is kept |
| Bots.DefmtBotName | autoleague/bots.py:19-20 | the name has the id's length; every `_` becomes a space and every other character is kept |
| Bots.FmtHasNoSpace | autoleague/bots.py:15-16 | an id made from a name contains no space |
| Bots.DefmtHasNoUnderscore | autoleague/bots.py:19-20 | a name made from an id contains no underscore |
| Bots.DefmtFmtRoundTrip | autoleague/bots.py:15-20 | unformatting a formatted name gives the name back if and only if the name has no underscore |
| Bots.FmtDefmtRoundTrip | autoleague/bots.py:15-20 | formatting an unformatted id gives the id back if and only if the id has no space |
| Bots.FmtIdempotent | autoleague/bots.py:15-16 | formatting twice is formatting once |
| Bots.DefmtIdempotent | autoleague/bots.py:19-20 | unformatting twice is unformatting once |
| Lists.WithDefaults | autoleague/match_maker.py:29-36 | the "ensure" pattern: the keys become the old keys plus the listed ones; present keys keep their value, new keys get the default |
| Lists.WithDefaultsIdempotent | autoleague/match_maker.py:69 | ensuring the same bots a second time changes nothing, so each round's `pick_bots` leaves the balances as the first `ensure` made them |
| Lists.PyPos | autoleague/bubble_ladder.py:39 | the position Python reads for an index in `-len <= i < len` lies in the list and agrees with the index modulo the length |
| Tickets.TicketSystem.constructor | autoleague/match_maker.py:24-27 | no balances; a new bot gets 4.0; the increase rate is 2.0 |
| Tickets.TicketSystem.Ensure | autoleague/match_maker.py:29-36 | every listed bot without tickets gets the new-bot count; present balances and all other keys are unchanged |
| Tickets.TicketSystem.GetEnsured | autoleague/match_maker.py:38-45 | returns the stored balance of a present bot and changes nothing; otherwise it inserts the new-bot count for that bot only and returns it |
| Tickets.TicketSystem.Get | autoleague/match_maker.py:47-51 | reads only; `None` exactly when the bot has no tickets, the stored balance otherwise |
| Tickets.TicketSystem.Set | autoleague/match_maker.py:53-57 | only the given bot's balance changes, to the given value |
| Tickets.SumOverSet | autoleague/match_maker.py:53-63 | setting one balance moves the total by the difference, or by the new value for a new bot |
| Tickets.TicketSystem.Total | autoleague/match_maker.py:59-63 | the sum of all stored balances; the ledger is not changed |
| Tickets.PickFrom | autoleague/match_maker.py:65-77 | the draw succeeds exactly when the ticket total is non-zero and numpy accepts the probabilities; it then holds six roster bots, and otherwise it is `InsufficientPool` |
| Tickets.PickFromDraw | autoleague/match_maker.py:75 | from a roster without repeats the six drawn bots are pairwise distinct |
| Tickets.TicketSystem.PickBots | autoleague/match_maker.py:65-77 | the balances are those after `ensure(bots)`, and the result is the draw from them with each bot's share of the total as its probability |
| Tickets.TicketSystem.Choose | autoleague/match_maker.py:79-89 | the new balances are `choose` applied to the listed bots in order |
| Tickets.Chosen | autoleague/match_maker.py:79-89 | the loop of `choose` over the listed bots in order, as a value; its effect on each bot is `ChosenEffect` |
| Tickets.ChosenEffect | autoleague/match_maker.py:83-89 | a listed chosen bot ends at exactly 1.0; a listed other bot ends at its old balance times rate^(times listed); an unlisted bot keeps its balance; only chosen listed bots are added as keys |
| Tickets.ChosenReset | autoleague/match_maker.py:83-86 | which bots `choose` leaves with a balance; listed chosen bots are reset to 1.0 and unlisted bots are untouched |
| Tickets.ChosenGrowth | autoleague/match_maker.py:87-89 | a listed bot that is not chosen is multiplied by the rate once per listing |
| Tickets.ChosenScalesOnce | autoleague/match_maker.py:83-89 | with a roster listing every bot once, a listed bot that is not chosen ends at exactly old balance times rate |
| Tickets.ChosenNonNegative | autoleague/match_maker.py:86-89 | with non-negative balances and a non-negative rate, every balance stays non-negative |
| MatchMaker.LookupRatings | autoleague/match_maker.py:178 | the ratings read are the ratings before the lookup (0 for unknown bots); the ranking gains exactly a zero rating for each bot that had none |
| MatchMaker.OnlyZeroesAddedRatings | autoleague/match_maker.py:178 | ratings created by earlier lookups (zeros) do not change any rating `get` reports |
| MatchMaker.ZeroDefaultsAdded | autoleague/match_maker.py:178 | looking up more roster bots still only adds zero ratings of roster bots |
| MatchMaker.RoundRatings | autoleague/match_maker.py:178-181 | in every round the blue and orange ratings are those of the ranking as it was before the search |
| MatchMaker.RequiredFairness | autoleague/match_maker.py:184 | the demanded quality lies between 0 and 0.3 and never exceeds `tries_left / 400`; it is 0 exactly in the last round |
| MatchMaker.Shuffled | autoleague/match_maker.py:176-177 | a round's shuffled draw succeeds exactly when `pick_bots` does, and is then that draw rearranged: six roster bots |
| MatchMaker.Search | autoleague/match_maker.py:172-191 | the search of `decide_on_players` over the given rounds: a found draw holds six roster bots; `SearchFindsFirstFair`, `SearchFoundExplained`, `SearchExhaustedExplained` and `SearchErrorExplained` give its outcomes |
| MatchMaker.SearchStep | autoleague/match_maker.py:172-189 | one round of the loop: a numpy error ends the search, a fair draw is the result, an unfair draw passes on to the next round |
| MatchMaker.SearchFindsFirstFair | autoleague/match_maker.py:172-189 | if every round before round m was drawn and rejected and round m is fair, the search returns round m's draw |
| MatchMaker.SearchFoundExplained | autoleague/match_maker.py:172-189 | conversely, a returned draw belongs to a fair round all of whose predecessors were rejected |
| MatchMaker.AllRejectedExtend | autoleague/match_maker.py:172-189 | a rejected round followed by rejected rounds gives rejected rounds from the first one |
| MatchMaker.SearchExhaustedExplained | autoleague/match_maker.py:191 | failing for want of a fair match means every one of the 400 rounds drew six bots and rejected them |
| MatchMaker.SearchErrorExplained | autoleague/match_maker.py:176 | the search fails with `InsufficientPool` if and only if the roster cannot be drawn from, because the ensured balances are the same in every round |
| MatchMaker.SearchNeverExhausted | autoleague/match_maker.py:184-185 | since the last round demands quality 0, a quality that is never negative means the search never runs out of rounds |
| MatchMaker.SearchTeams | autoleague/match_maker.py:176-189 | a found match has six distinct roster bots when the roster has no repeats |
| MatchMaker.DecideOnPlayers | autoleague/match_maker.py:162-191 | the result is `picked[0:3]`, `picked[3:6]` of the search's draw, and the tickets are then `choose` of those six over the roster; on failure the error is returned and the tickets are only ensured; ratings gain only zero ratings of roster bots |
| MatchMaker.LikelyBalancesValid | autoleague/match_maker.py:204 | each of the four likely balances names three different positions among the six |
| MatchMaker.Ranked | autoleague/match_maker.py:223-224 | the candidates of a draw with their `get` ratings, a rearrangement of them, in non-increasing rating |
| MatchMaker.CandidatesRanked | autoleague/match_maker.py:223-224 | sorting the candidates built from the ratings read gives the ranking of the draw |
| MatchMaker.RankedOnlyZeroesAdded | autoleague/match_maker.py:223 | ratings created by earlier rounds do not change how a draw ranks |
| MatchMaker.RankedIds | autoleague/match_maker.py:222-224 | from a draw without repeats the ranked candidates have no repeats, and their ids are the draw rearranged |
| MatchMaker.Outside | autoleague/match_maker.py:228 | a candidate is kept exactly when it is among the candidates and not in the blue team |
| MatchMaker.OutsideCount | autoleague/match_maker.py:228 | the orange team keeps every candidate outside blue as often as it occurs, and none of blue |
| MatchMaker.SplitByPartition | autoleague/match_maker.py:227-228 | for six different candidates blue and orange have three each, share nobody, and together are the six |
| MatchMaker.ScanBalances | autoleague/match_maker.py:226-232 | the inner loop over the likely balances as a value; `ScanBalancesImproves`, `ScanBalancesMaximal` and `ScanBalancesFound` give its result |
| MatchMaker.ScanBalancesImproves | autoleague/match_maker.py:226-232 | the inner loop never lowers the best quality found |
| MatchMaker.ScanBalancesMaximal | autoleague/match_maker.py:226-232 | no balance the inner loop tries has a higher quality than its result |
| MatchMaker.ScanBalancesFound | autoleague/match_maker.py:226-232 | the result is the old best, or the split of one tried balance with its quality, strictly higher than the old best |
| MatchMaker.TryBalances | autoleague/match_maker.py:226-232 | the loop over the likely balances ends at the inner scan's best quality and match |
| MatchMaker.ScanRounds | autoleague/match_maker.py:218-232 | the outer loop from a given round on, as a value; `ScanRoundsImproves`, `ScanRoundsMaximal` and `ScanRoundsFound` give its result |
| MatchMaker.ScanRoundsImproves | autoleague/match_maker.py:218-232 | the outer loop never lowers the best quality found |
| MatchMaker.ScanRoundsMaximal | autoleague/match_maker.py:218-232 | no split of any remaining round and likely balance beats the outer loop's result |
| MatchMaker.ScanRoundsFound | autoleague/match_maker.py:218-232 | the result is the starting best or one round's split for one balance, of strictly higher quality |
| MatchMaker.ScanFromRounds | autoleague/match_maker.py:218-232 | stepping through the rounds, each trying the balances on its draw, is the scan of all those rounds |
| MatchMaker.RoundCandidates | autoleague/match_maker.py:222-224 | every round ranks six candidates |
| MatchMaker.TryRound | autoleague/match_maker.py:221-232 | one round: the balances are ensured; a numpy error is returned with the ratings unchanged; otherwise the result is the inner scan over the ranked draw, and the draw's unknown bots get zero ratings |
| MatchMaker.RoundAdvance | autoleague/match_maker.py:218-232 | a round that draws moves the outer scan on by one round, and only adds zero ratings |
| MatchMaker.PlayRound | autoleague/match_maker.py:219-232 | numpy refuses a round's draw exactly when the roster cannot be drawn from; otherwise the loop invariant holds for the next round |
| MatchMaker.PlayRounds | autoleague/match_maker.py:213-232 | the outer loop ends at the best split of all 400 rounds, or at `InsufficientPool` when the roster cannot be drawn from; the balances are those after `ensure` |
| MatchMaker.BestOfRounds | autoleague/match_maker.py:213-232 | the best split over all 400 rounds from quality 0 and no match; `Decide2Best` gives its properties |
| MatchMaker.Decide2 | autoleague/match_maker.py:194-239 | the outcome of `decide_on_players_2`; `Decide2Best`, `Decide2NoFairMatch` and `Decide2Teams` give its properties |
| MatchMaker.Decide2Best | autoleague/match_maker.py:218-234 | the returned split is one round's split for one likely balance; its quality is positive and no split of any round and balance is higher |
| MatchMaker.Decide2NoFairMatchSound | autoleague/match_maker.py:215-216 | when no match is found, no split of any round and balance had a positive quality |
| MatchMaker.Decide2FairMatchFound | autoleague/match_maker.py:230-232 | a split of positive quality in any round means a match is found |
| MatchMaker.Decide2NoFairMatch | autoleague/match_maker.py:215-234 | no match is found if and only if the roster can be drawn from but no split of any round has a positive quality |
| MatchMaker.Decide2NoFairMatchAll | autoleague/match_maker.py:215-234 | a failure for want of a fair match leaves no split of positive quality in any round |
| MatchMaker.Decide2Teams | autoleague/match_maker.py:227-235 | the two returned teams have three bots each, share none, together are the six bots of one round's draw, and blue is a likely balance of that draw ranked by rating |
| MatchMaker.DecideOnPlayers2 | autoleague/match_maker.py:193-239 | the result is the ids of the best split's blue and orange candidates, and the tickets are `choose` of blue+orange over the roster; on failure the tickets are only ensured; ratings gain only zero ratings of roster bots |
| Ranking.Points | autoleague/ranking_system.py:42-44 | each side gets 0, 1 or 2 points, and the two together get 2 or 3; `PointRule` gives each case and `PointsSymmetric` the exchange of sides |
| Ranking.AddPoints | autoleague/ranking_system.py:47-50 | the ratings keep the same bots; `AddPointsCount` gives each bot's new rating |
| Ranking.PointRule | autoleague/ranking_system.py:42-44 | the side with more goals gets 2; the other side gets 1 if it lost by one goal and 0 if it lost by more; a draw gives both sides 1 |
| Ranking.PointsSymmetric | autoleague/ranking_system.py:42-44 | exchanging the two sides' goals exchanges their points |
| Ranking.AddPointsCount | autoleague/ranking_system.py:47-50 | each listed bot gains the points once per occurrence in the team; unlisted bots keep their rating |
| Ranking.RankingSystem.constructor | autoleague/ranking_system.py:14-15 | the ratings are the given map |
| Ranking.RankingSystem.Get | autoleague/ranking_system.py:17-25 | an existing rating is returned and nothing changes; for an absent bot a 0 rating is inserted for that bot only and 0 returned |
| Ranking.RankingSystem.EnsureAll | autoleague/ranking_system.py:27-34 | every listed bot has a rating afterwards, the existing ones unchanged and the new ones 0; it returns the same object |
| Ranking.RankingSystem.Update | autoleague/ranking_system.py:36-50 | blue players gain the blue points and then orange players the orange points, once per place in the team; with `AddPointsCount`, nobody else changes |
| Ranking.RankingSystem.AddToTeam | autoleague/ranking_system.py:47-50 | one team loop adds the team's points to each listed bot, in team order |
| Ranking.RankingSystem.AsSortedList | autoleague/ranking_system.py:60-67 | every (bot, rating) entry appears exactly once with its current rating, in non-increasing rating order |
| Sorting.SortDesc | autoleague/ranking_system.py:66 | the sorted list is a permutation of the input |
| Sorting.SortDescSorted | autoleague/ranking_system.py:66 | the sorted list is in non-increasing key order |
| Sorting.InsertStable | autoleague/ranking_system.py:66 | an inserted element lands in front of the elements of its own key |
| Sorting.SortStable | autoleague/match_maker.py:224 | sorting keeps the input order among elements of equal key, as Python's stable sort does |
| SnapshotLog.Save | autoleague/ranking_system.py:69-71 | under a timestamp later than every existing file, a save adds one file, the newest, after all the others; `LoadAfterSave` and `UndoAfterSave` are its partners |
| SnapshotLog.Load | autoleague/ranking_system.py:73-83 | the newest file, or the empty state for an empty directory; `LoadAfterSave` and `LoadAfterUndo` relate it to `Save` and `Undo` |
| SnapshotLog.All | autoleague/ranking_system.py:105-110 | every state, oldest first; its shape is `AllShape` |
| SnapshotLog.Latest | autoleague/ranking_system.py:93-103 | the newest `count` states; its shape is `LatestShape`, `LatestIsTailOfAll` and `LatestZero` |
| SnapshotLog.Undo | autoleague/ranking_system.py:112-121 | the directory without its newest file, and whether there was one; its partners are `UndoRemovesNewest`, `UndoAfterSave` and `LoadAfterUndo` |
| SnapshotLog.AllShape | autoleague/ranking_system.py:105-110 | `all` is the empty state followed by every snapshot, oldest first |
| SnapshotLog.LatestShape | autoleague/ranking_system.py:93-103 | for count ≥ 1: the last `count` snapshots when that many exist, otherwise exactly one empty state followed by every snapshot |
| SnapshotLog.LatestIsTailOfAll | autoleague/ranking_system.py:93-110 | for count ≥ 1, `latest(count)` is the newest `min(count, snapshots + 1)` states of `all` |
| SnapshotLog.LatestZero | autoleague/ranking_system.py:98 | `latest(0)` is every snapshot, since Python's `[-0:]` is the whole list |
| SnapshotLog.UndoRemovesNewest | autoleague/ranking_system.py:112-121 | undo removes exactly the newest snapshot; on an empty directory it changes nothing and reports it |
| SnapshotLog.LoadAfterSave | autoleague/ranking_system.py:73-83 | after a save, `load` returns the saved snapshot |
| SnapshotLog.UndoAfterSave | autoleague/ranking_system.py:112-121 | a save followed by an undo restores the directory and what `load` returned before the save |
| SnapshotLog.LoadAfterUndo | autoleague/ranking_system.py:112-121 | undo makes the snapshot before the newest one current, or the empty state when none is left |
| BubbleLadders.Unknown | autoleague/bubble_ladder.py:22-25 | the appended bots are exactly the given bots not already on the ladder, and never more than were given; their order is fixed by the next two lemmas |
| BubbleLadders.UnknownConcat | autoleague/bubble_ladder.py:22-25 | the bots appended for a roster in two parts are those appended for the first part followed by those for the second, so roster order is kept |
| BubbleLadders.UnknownSingle | autoleague/bubble_ladder.py:23-25 | an empty roster appends nothing, and a single bot is appended exactly when it is not already on the ladder |
| BubbleLadders.UnknownNoDup | autoleague/bubble_ladder.py:22-25 | a roster without repeats appends no bot twice |
| BubbleLadders.NextMatchOf | autoleague/bubble_ladder.py:20-39 | `next_match` as a value: the new state and the proposal; its properties are `NextMatchAppends`, `NextMatchTooShort`, `NextMatchProposes` and `NextMatchValid` |
| BubbleLadders.NextMatchAppends | autoleague/bubble_ladder.py:20-25 | the old ladder is a prefix of the new one, the new ladder holds exactly the old bots and the given ones, and the cursor is unchanged |
| BubbleLadders.NextMatchNoDup | autoleague/bubble_ladder.py:20-25 | a ladder without repeats keeps none |
| BubbleLadders.NextMatchTooShort | autoleague/bubble_ladder.py:27-29 | no match exactly when the ladder, new bots included, has at most one bot; the direction is then unchanged |
| BubbleLadders.NextMatchProposes | autoleague/bubble_ladder.py:31-39 | from a valid state with two bots or more a match is proposed and both indices are valid; blue is two copies of the bot at the cursor and orange two copies of its neighbour in the turned direction |
| BubbleLadders.NextMatchValid | autoleague/bubble_ladder.py:20-35 | `next_match` keeps the direction ±1 and the cursor inside the ladder (or at 0 or -1) |
| BubbleLadders.Swapped | autoleague/bubble_ladder.py:55 | the tuple assignment keeps the ladder's length; `SwappedPermutes` gives its contents |
| BubbleLadders.Updated | autoleague/bubble_ladder.py:53-56 | `update` as a value: the new state and whether the swap was in range; its properties are `UpdatePermutes` (including the cursor step and the unchanged `IndexError` state), `DrawNeverSwaps` and `WinnerMovesUp` |
| BubbleLadders.SwappedPermutes | autoleague/bubble_ladder.py:55 | the tuple assignment exchanges the two positions, keeps every other position, and rearranges the ladder |
| BubbleLadders.UpdatePermutes | autoleague/bubble_ladder.py:53-56 | `update` rearranges the ladder, keeps the direction, and changes no position other than the two of the match; a successful update moves the cursor to `cur + direction`, and the `IndexError` outcome leaves the state unchanged |
| BubbleLadders.DrawNeverSwaps | autoleague/bubble_ladder.py:54-56 | a draw leaves the ladder as it is and moves the cursor one step |
| BubbleLadders.WinnerMovesUp | autoleague/bubble_ladder.py:54-55 | for a cursor inside the ladder (`cur >= 0`), after a decided match the winner is at the smaller of the two positions and the loser just below it |
| BubbleLadders.WinnerMovesDownFromEmptyBottom | autoleague/bubble_ladder.py:20-60 | with the cursor at -1 that `start_from_bottom` leaves on an empty ladder, two new bots `x`, `y` give the ladder `[x, y]` and the match of `y` (blue) against `x` (orange); when orange wins, the ladder becomes `[y, x]`, so the winner ends at the bottom |
| BubbleLadders.EmptyBottomProposes | autoleague/bubble_ladder.py:20-39 | from cursor -1 on an empty ladder, two new bots are appended in order, the direction turns up, and `ladder[-1]` is paired against `ladder[0]` |
| BubbleLadders.EmptyBottomSwaps | autoleague/bubble_ladder.py:53-56 | at cursor -1 heading up, an orange win exchanges `ladder[-1]` and `ladder[0]` and the cursor moves to 0 |
| BubbleLadders.UnknownTwoNew | autoleague/bubble_ladder.py:21-25 | two bots appended to an empty ladder keep their roster order |
| BubbleLadders.UpdateAfterProposal | autoleague/bubble_ladder.py:53-56 | after a proposed match, `update` succeeds and leaves the cursor inside the ladder |
| BubbleLadders.MatchThenUpdate | autoleague/bubble_ladder.py:20-56 | a valid ladder of two bots or more gets a proposed match, and the following `update` keeps it valid, the cursor inside it, and its bots |
| BubbleLadders.FromBottom | autoleague/bubble_ladder.py:58-60 | `start_from_bottom` as a value; `FromBottomValid` gives its properties |
| BubbleLadders.FromBottomValid | autoleague/bubble_ladder.py:58-60 | starting from the bottom gives a valid state from any state, and the next match pairs the last two bots |
| BubbleLadders.BubbleLadder.constructor | autoleague/bubble_ladder.py:14-18 | an empty ladder, cursor 0, direction -1 |
| BubbleLadders.DefaultsValid | autoleague/bubble_ladder.py:14-16 | the defaults of a new ladder form a valid state, the precondition `MatchThenUpdate` needs |
| BubbleLadders.BubbleLadder.NextMatch | autoleague/bubble_ladder.py:20-51 | the new fields and the returned proposal are those of `NextMatchOf` |
| BubbleLadders.BubbleLadder.AddUnknown | autoleague/bubble_ladder.py:21-25 | the loop appends exactly the bots that were not on the ladder before it, in order |
| BubbleLadders.BubbleLadder.Update | autoleague/bubble_ladder.py:53-56 | the new fields and the success flag are those of `Updated` |
| BubbleLadders.BubbleLadder.StartFromBottom | autoleague/bubble_ladder.py:58-60 | the cursor moves to the last position, the direction becomes -1, and the ladder is unchanged |
| BubbleLadders.Encode | autoleague/bubble_ladder.py:87-96 | the encoded object has the three fields plus the tag, and no other key |
| BubbleLadders.Decode | autoleague/bubble_ladder.py:101-109 | `as_bubble_ladder` as a value; `DecodeTagHandling` and `DecodeEncode` give its properties |
| BubbleLadders.DecodeTagHandling | autoleague/bubble_ladder.py:101-109 | an object is returned unchanged if and only if its tag is missing or falsy; a tagged object becomes a ladder with every other key and its value, and without the tag |
| BubbleLadders.StringsOfBotIds | autoleague/bubble_ladder.py:92 | the encoded list of bot ids reads back as the same ids |
| BubbleLadders.DecodeEncode | autoleague/bubble_ladder.py:87-109 | decoding an encoded ladder gives a ladder with exactly its three fields, holding their values |
| BubbleLadders.SaveLadder | autoleague/bubble_ladder.py:67-70 | a ladder saved as its encoded object, the newest file of the ladder log |
| BubbleLadders.LoadLadder | autoleague/bubble_ladder.py:72-77 | the newest ladder file decoded, or a new ladder; `LoadSavedLadder` relates it to `SaveLadder` |
| BubbleLadders.LoadSavedLadder | autoleague/bubble_ladder.py:67-77 | loading after a save gives the saved ladder back, and an empty directory gives the defaults |

## Left out

- File I/O is not modelled: file paths, `iterdir` order, `json.dump` and `json.load`.
  - The timestamp-ordered directory is a sequence, newest last.
  - Ratings and tickets are stored and loaded as values.
  - Only the ladder's JSON form is modelled, with numbers as integers.
- SnapshotLog.Save: the `time_stamp` argument is dropped, and every save is taken to carry a timestamp later than every existing file, as the comment at `autoleague/ranking_system.py:79` assumes. `make_timestamp` (`autoleague/match_maker.py:249-250`) has one-second resolution, and `open(..., 'w')` on an existing name overwrites it. So a second save within the same second replaces the newest file instead of adding one. `LoadAfterSave` still holds then, but `UndoAfterSave`'s restored directory does not.
- BubbleLadders.SaveLadder: relies on the same assumption for the ladder files.
- `TicketSystem.load` and `TicketSystem.read` take `new_bot_ticket_count` and `ticket_increase_rate` from the league settings. Here they are plain fields, and the settings file is not part of this model.
  - The ticket directory's `load`, `all` and `undo` follow the same `SnapshotLog` functions as the rankings'.
- `print` output, `print_ranks` and `print_ladder` are not modelled, and neither is the `tickets_consumed` sum of the two searches, which only feeds a print.
  - That sum reads `get_ensured` of bots that are already ensured, so it changes no balance.
- `make_next`, `make_test_match` and `make_timestamp` are not modelled. They need the wall clock, the random arena choice and rlbot's bot configuration. For the same reason `load_all_bots` and the Psyonix skill table of `bots.py` are left out.
- `numpy.random.choice`, `random.shuffle` and `trueskill.quality` are oracles. The sampling distribution is not modelled.
  - numpy's refusal is modelled as: a probability below zero, or fewer than six positive probabilities.
  - Its check that the probabilities sum to 1 within a floating-point tolerance is not modelled, because an exact real total makes them sum to 1 exactly.
  - The sampler and the shuffler receive the round number, which stands in for the random generators' hidden state; the quality oracle depends only on the two teams' ratings.
- Ticket balances and match qualities are exact reals. Floating-point rounding is not modelled.
- TrueSkill `Rating` objects are the integers `RankingSystem.get` returns in this code.
  - The `trueskill` library's `quality` expects `Rating` objects and reads each one's `mu`, but `autoleague/match_maker.py:185` and `:229` pass it these plain integers, so the call as written would raise `AttributeError`. The model treats `quality` as an oracle on the integer ratings and does not model that failure.
  - The rating update is the integer point rule of `autoleague/ranking_system.py:42-50`. It takes the place of any TrueSkill update; TrueSkill appears only as the match-quality oracle.
- Raised exceptions are modelled as `Err` outcomes:
  - numpy's `ValueError` and the `ZeroDivisionError` of a zero ticket total are `InsufficientPool`;
  - the exception raised after 400 unfair draws in `decide_on_players` is `NoFairMatch`;
  - so is the failure of `decide_on_players_2` on `best_match = None` when no split ever had a positive quality.
- Tickets.TicketSystem.Choose: requires every listed bot that is not chosen to have tickets already. The source raises `KeyError` otherwise; both searches call it only after `pick_bots` has ensured the roster.
- Ranking.RankingSystem.Update: requires every player of both teams to have a rating, where the source raises `KeyError`.
- Ranking.RankingSystem.AsSortedList: the sort is given as the `Sorting.SortDesc` function, a stable insertion sort, rather than as an in-place sort of a list. A stable sort's result depends only on its input order, so for the same input list Timsort gives the same result.
- Ranking.RankingSystem.AsSortedList: the order among bots with equal ratings is not modelled. The source builds its list from `self.ratings.keys()` in dict insertion order (`autoleague/ranking_system.py:65`): after `load` that is the JSON file's sorted key order, then bots in the order `get` and `ensure_all` added them. The ratings here are a `map`, whose keys have no order, so the entries are taken in an arbitrary order. The contract promises every entry once with its rating and a non-increasing order, but not which of two equally rated bots comes first.
- SnapshotLog.Latest: when fewer than `count` files exist, `latest` puts exactly one empty state in front, under the comment "Prepend empty rankings if more were requested" (`autoleague/ranking_system.py:99-100`). The list is not padded to `count` entries.
- Tickets.ChosenNonNegative: the docstring of `choose` (`autoleague/match_maker.py:81`) says it will "reset their number of tickets and double every else's". The code resets a chosen bot to exactly 1.0 and multiplies any other listed bot by `ticket_increase_rate`, which need not be 2. No lower bound holds for bots that are not chosen, so the lemma states only that balances stay non-negative when the rate and the old balances are.
- BubbleLadders.BubbleLadder.Update: the unused `match` parameter of `update` is dropped.
- `next_match` builds a `MatchDetails` with a timestamp, a name and a random arena. The model keeps only the two teams.
- `as_bubble_ladder` is a `json.load` object hook that sees every nested object. Only the top-level object is decoded, because an encoded ladder holds no other object.
  - The `TypeError` of `BubbleLadderEncoder.default` for objects that are not ladders is not modelled.
- `start_from_bottom` on an empty ladder sets the cursor to -1. A later `next_match` with two new bots then turns up and pairs `ladder[-1]` with `ladder[0]`, as Python's negative index does. If orange (the first bot) wins, the swap moves the winner to the bottom of the ladder, and the cursor moves to 0. `WinnerMovesDownFromEmptyBottom` shows this, so `WinnerMovesUp` is stated only for a cursor inside the ladder. The model keeps this behaviour, and an index outside the ladder is the `IndexError` outcome.
- Several methods are pieces of one source function: `AddUnknown`, `AddToTeam`, `LookupRatings`, `TryBalances`, `TryRound`, `PlayRound` and `PlayRounds`. They stand for loops and comprehensions, not separate source functions.
