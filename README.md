# Chiv PUG bot: a verified model of its match bookkeeping

The Chiv PUG bot runs pick-up games (PUGs) on Discord. A PUG is drafted with
/create_pug: mentions are parsed, team members and captains are picked through
select menus, and the draft is kept in Redis under `temp_pug:<id>`. Confirming
the captains moves each captain to the head of their team and creates the live
PUG under `pug:<token>`, together with a row in the Postgres `pugs` table. A
winner button then settles the PUG. There are two settlements. The TrueSkill
one credits wins, losses and captain counters, logs rating history from the
pre-match snapshots, and moves the record to `finished_pugs:<token>`. The
older flat one moves MMR by ±25 inside one transaction. A finished PUG can be
reverted, which restores the snapshot ratings and takes back the counters.
Before a match the bot previews each player's rating stakes. A /leaderboard
command pages through the players table.

The model keeps the Redis keys and SQL tables as map and sequence fields of
one `Store` class (`store.dfy`). Each handler is a method on that store whose
`modifies` clause names exactly the keys and tables it writes. Pure logic,
such as the custom-id codecs, mention parsing, validation, the ratings and
the page arithmetic, is written as functions with lemmas. Four things are
parameters rather than modelled:

- clock readings;
- fresh tokens;
- guild member lookups;
- the `rate` function of the ts-trueskill library.

Files:

| file | contents |
|---|---|
| `wrappers.dfy` | `Option` |
| `text.dfy` | the JavaScript string operations the codecs use |
| `tables.dfy` | keyed tables and the read-modify-write fold |
| `trueskill.dfy` | conservative and shown ratings, rank vectors |
| `records.dfy` | records, snapshots and table rows |
| `store.dfy` | the store |
| `stakes.dfy` | the stake preview |
| `finish_backend.dfy` | the TrueSkill settlement |
| `revert.dfy` | the revert |
| `roundtrip.dfy` | settlement followed by revert |
| `flat_settlement.dfy` | the flat ±25 settlement |
| `validation.dfy` | team validation |
| `create_backend.dfy` | live record and pug row creation |
| `mentions.dfy` | mention parsing |
| `custom_ids.dfy` | component-id encoders and decoders |
| `create_pug.dfy` | the /create_pug command |
| `draft_handlers.dfy` | team-member and captain selection |
| `confirm.dfy` | the captain confirmation and swap |
| `finish_buttons.dfy` | the two winner-button handlers |
| `leaderboard.dfy` | the leaderboard |

## Model

| member | source | states |
|---|---|---|
| TrueSkill.Conservative | discord_bot/src/utils/trueskill.ts:4 | the conservative rating is never negative, is at least mu − 3σ, and is one of the two |
| TrueSkill.ConservativeCases | discord_bot/src/utils/trueskill.ts:4 | it is mu − 3σ exactly when mu ≥ 3σ, and 0 otherwise |
| TrueSkill.ShownMMR | discord_bot/src/utils/trueskill.ts:8-9 | the shown rating is the integer n ≥ 0 with n ≤ max(mu − 3σ, 0) < n + 1 |
| TrueSkill.ShownZeroWhenUncertain | discord_bot/src/utils/trueskill.ts:8-9 | a player with mu ≤ 3σ shows 0 |
| TrueSkill.FloorMonotone | discord_bot/src/utils/trueskill.ts:9 | rounding down preserves order |
| TrueSkill.ShownMonotone | discord_bot/src/utils/trueskill.ts:8-9 | a higher mu never lowers the shown rating; a higher σ never raises it |
| TrueSkill.RankVector | discord_bot/src/utils/trueskill.ts:14-18 | the ranks are a permutation of {1, 2}; team 1 ranks first exactly when it won |
| TrueSkill.ComputeNewRatings | discord_bot/src/utils/trueskill.ts:13-18 | `rate` gets the teams as [team1, team2] with ranks [1, 2] when team 1 won and [2, 1] otherwise |
| TrueSkill.OutcomesDifferOnlyInRanks | discord_bot/src/utils/trueskill.ts:13-18 | both outcomes call `rate` on [team1, team2]; they differ only in [1,2] versus [2,1] |
| Records.RecordOf | discord_bot/src/utils/finish_pug_backend.ts:29-33 | a stored user keeps id, username and globalName; a missing discriminator becomes "" |
| Records.OrZero | discord_bot/src/utils/update_mmr_after_finish.ts:107-108 | a NULL integer column counts as 0 and any other value is itself; the flat settlement's `null + 25` and the leaderboard's `?? 0` (leaderboard.ts:62-65) both read it this way |
| Records.Ids | discord_bot/src/types/create_pug_data.ts:6-17 | the ids of a team, position by position |
| Records.IdsOfInit | discord_bot/src/utils/update_mmr_after_finish.ts:33-55 | dropping the last member of a list keeps every other id, and the last id is the last member's |
| Records.IndexOf | discord_bot/src/interacctions/create_pug_confirm_button.ts:28-29 | `findIndex`/`indexOf` gives the first position holding the id, or −1 when it is absent |
| Records.SnapshotIds | discord_bot/src/types/snapshots.ts:1-18 | the ids of a snapshot list, position by position |
| Records.TeamOf | discord_bot/src/interacctions/revert_pug_select.ts:49-53 | team 1 when the id is on team 1; otherwise team 2 when it is on team 2; otherwise none |
| Records.IsCaptain | discord_bot/src/utils/update_mmr_after_finish.ts:126 | the id is the id of a present captain; this is the value of the captain check whenever it does not throw (stated by `Records.CaptainCheck`) |
| Records.CaptainCheckThrows | discord_bot/src/interacctions/revert_pug_select.ts:62-64 | the captain check reads `.id` of a missing captain: captain 1 is missing, or captain 1 is another player and captain 2 is missing |
| Records.CaptainCheck | discord_bot/src/interacctions/revert_pug_select.ts:62-64 | the check `captain1.id === id`, then (only when that is false) `captain2.id === id`, throws exactly when `CaptainCheckThrows` holds, and otherwise is true exactly when `IsCaptain` holds |
| Records.Winners | discord_bot/src/utils/finish_pug_backend.ts:68 | team 1 wins exactly for winner 1; any other value, 2 included, makes team 2 the winners |
| Records.Losers | discord_bot/src/utils/finish_pug_backend.ts:69 | the other team: team 2 for winner 1, team 1 for any other value |
| Records.NewRow | discord_bot/src/utils/calculate_mmr_stakes.ts:29-34 | a new player row has zero counters and the default mu 25 and σ 3.333 |
| Tables.Get | discord_bot/src/utils/calculate_mmr_stakes.ts:21 | a lookup finds a row exactly when the key is stored, and that row is the stored one |
| Tables.Put | discord_bot/src/utils/finish_pug_backend.ts:110-132 | an upsert sets one key and leaves every other key's row as it was |
| Tables.ApplyEach | discord_bot/src/utils/finish_pug_backend.ts:72-99 | the per-player upsert loop computes the fold `ApplyAll` |
| Tables.ApplyAllPrefix | discord_bot/src/utils/finish_pug_backend.ts:72-99 | one more loop pass extends the fold by exactly one upsert of the next element |
| Tables.ApplyAllElsewhere | discord_bot/src/utils/finish_pug_backend.ts:72-99 | a loop leaves alone every row that no element names |
| Tables.ApplyAllOnce | discord_bot/src/utils/finish_pug_backend.ts:72-99 | a row named by exactly one element is updated exactly once |
| Text.Split | discord_bot/src/interacctions/finish_pug_buttons.ts:8 | `split` gives at least one piece, none holding the separator, and joining them gives the string back |
| Text.SplitJoin | discord_bot/src/interacctions/create_pug_select_captains.ts:10-14 | `split` undoes `join` when no piece holds the separator |
| Text.Field | discord_bot/src/interacctions/create_pug_confirm_button.ts:8-9 | field i of a split exists exactly when there are more than i pieces |
| Text.IndexOfFrom | discord_bot/src/interacctions/create_pug_team_members.ts:37 | `indexOf` gives the first occurrence at or after k, or −1 when there is none |
| Text.IncludesIff | discord_bot/src/interacctions/create_pug_team_members.ts:37 | `includes` holds exactly when the substring occurs somewhere |
| Text.ReplaceFirst | discord_bot/src/interacctions/finish_pug_buttons.ts:9 | `replace` with a string pattern changes nothing without an occurrence and otherwise replaces only the first one |
| Text.ParseNatText | discord_bot/src/interacctions/finish_pug_button_handler.ts:11 | `parseInt(·, 10)` reads back the decimal text of any natural number |
| Text.ParseInt | discord_bot/src/interacctions/finish_pug_button_handler.ts:11 | `parseInt(·, 10)`: NaN exactly when no digit follows the leading white space (every ECMAScript white-space and line-terminator code point) and optional sign; otherwise the digits' value, negated after a '-' |
| Text.ParseIntSkipsSpace | discord_bot/src/interacctions/finish_pug_button_handler.ts:11 | any white-space or line-terminator character in front of the text, ASCII or not, leaves the parsed value unchanged |
| Text.ParseIntAfterNbsp | discord_bot/src/interacctions/finish_pug_button_handler.ts:11 | a no-break space before "5" still reads as 5 |
| Text.ParseAllDigits | discord_bot/src/interacctions/finish_pug_button_handler.ts:11 | `parseInt(·, 10)` of a non-empty digit string is the value of its digits |
| Stakes.LoadedRating | discord_bot/src/utils/calculate_mmr_stakes.ts:22-26 | a player without a row is rated (25, 3.333); a stored NULL mu or σ falls back to the same default |
| Stakes.LoadStep | discord_bot/src/utils/calculate_mmr_stakes.ts:20-38 | one pass of the loading loop reads the stored rating (or the default) and only adds a default row |
| Stakes.InsertMissing | discord_bot/src/utils/calculate_mmr_stakes.ts:27-35 | a stored row is kept as it is (ON CONFLICT DO NOTHING); a missing player is inserted with the name, the default mu/σ and zero counters |
| Stakes.LoadRatings | discord_bot/src/utils/calculate_mmr_stakes.ts:20-38 | the loading loop inserts rows only for missing players, never changes a stored row, and gives each player the loaded rating |
| Stakes.TeamRatings | discord_bot/src/utils/calculate_mmr_stakes.ts:40-41 | a team's rating list holds each member's loaded rating in team order |
| Stakes.StoredTeamRatings | discord_bot/src/utils/calculate_mmr_stakes.ts:20-41 | the same list, read from the table before loading |
| Stakes.StakeOf | discord_bot/src/utils/calculate_mmr_stakes.ts:81-106 | a preview line carries the current mu/σ unchanged; the deltas are shown(win) − shown(current) and shown(lose) − shown(current) |
| Stakes.ComputeStakes | discord_bot/src/utils/calculate_mmr_stakes.ts:67-107 | one line per player in input order; team-1 players take the team-1-wins and team-1-loses results at their team-1 index, everyone else the reversed results at their team-2 index |
| Stakes.GetPlayerMMRsWithStakes | discord_bot/src/utils/calculate_mmr_stakes.ts:5-107 | the preview: loads and inserts as above, calls `rate` once per outcome on the same two lists, routes each player's win and lose rating |
| FinishBackend.HistoryRows | discord_bot/src/utils/finish_pug_backend.ts:137-161 | one history row per snapshot, in order; before is `current`; after is `win` for a winner and `loss` otherwise |
| FinishBackend.Finish | discord_bot/src/utils/finish_pug_backend.ts:9-170 | no live record gives failure with nothing changed; otherwise the live record moves to the finished record and the match index, and the command is logged; the pug row gets winner and verifier; winners and losers are credited; with both captains present, captain counters and history follow; mu/σ are never written |
| FinishBackend.CreditTeams | discord_bot/src/utils/finish_pug_backend.ts:67-99 | the win and loss upsert loops compute `CreditResults`: winners first, then losers, in team order |
| FinishBackend.BuildHistory | discord_bot/src/utils/finish_pug_backend.ts:137-161 | the history loop produces one row per snapshot, in snapshot order |
| FinishBackend.HistoryRowOf | discord_bot/src/utils/finish_pug_backend.ts:137-161 | a history row carries the snapshot's id and current mu/σ as before, its win figures as after for a winner and its loss figures otherwise, and the given pug id |
| FinishBackend.MarkVerified | discord_bot/src/utils/finish_pug_backend.ts:55-64 | only the token's pug row changes, and only its winner and verifier; a token without a row changes nothing |
| FinishBackend.CreditWin | discord_bot/src/utils/finish_pug_backend.ts:71-83 | an existing row gains exactly one win; an unseen player is inserted with one win, no loss and the default rating |
| FinishBackend.CreditLoss | discord_bot/src/utils/finish_pug_backend.ts:86-98 | an existing row gains exactly one loss; an unseen player is inserted with one loss, no win and the default rating |
| FinishBackend.CreditCaptainWin | discord_bot/src/utils/finish_pug_backend.ts:110-120 | an existing row gains exactly one captain win and nothing else changes; an unseen player is inserted with one captain win, no captain loss, no wins or losses and the default rating |
| FinishBackend.CreditCaptainLoss | discord_bot/src/utils/finish_pug_backend.ts:122-132 | an existing row gains exactly one captain loss and nothing else changes; an unseen player is inserted with one captain loss, no captain win, no wins or losses and the default rating |
| FinishBackend.CreditResults | discord_bot/src/utils/finish_pug_backend.ts:67-99 | the win loop then the loss loop; a player on neither team keeps their row (the credited rows are stated by `CreditResultsAt`) |
| FinishBackend.CreditLoopsElsewhere | discord_bot/src/utils/finish_pug_backend.ts:72-99 | neither upsert loop touches the row of a player on neither team |
| FinishBackend.WinningCaptain | discord_bot/src/utils/finish_pug_backend.ts:103-105 | one of the two captains: captain 1 for winner 1, captain 2 for any other value |
| FinishBackend.LosingCaptain | discord_bot/src/utils/finish_pug_backend.ts:103-106 | one of the two captains, and not the winning one whenever the two captains differ |
| FinishBackend.CreditCaptains | discord_bot/src/utils/finish_pug_backend.ts:108-132 | with two different captains the winner's captain wins and the loser's captain losses each go up by one, from the defaults for an unseen player; one id in both roles gets both; every other row is unchanged |
| FinishBackend.SettledPlayers | discord_bot/src/utils/finish_pug_backend.ts:67-132 | the result and captain upserts in order; a player on neither team and not a captain keeps their row (per player, `SettledAt`) |
| FinishBackend.DistinctConcat | discord_bot/src/utils/finish_pug_backend.ts:68-69 | distinct ids across both teams means each team is distinct and they share no id |
| FinishBackend.OnlyPosition | discord_bot/src/utils/finish_pug_backend.ts:72-84 | in a distinct team, a member's id names no other member |
| FinishBackend.NotInTeam | discord_bot/src/utils/finish_pug_backend.ts:72-99 | a team without the id leaves its row alone |
| FinishBackend.CreditCaptainsAt | discord_bot/src/utils/finish_pug_backend.ts:103-132 | the captain upserts touch only the two captains' rows |
| FinishBackend.WinCreditedOnce | discord_bot/src/utils/finish_pug_backend.ts:72-84 | a distinct team credits each member exactly one win |
| FinishBackend.LossCreditedOnce | discord_bot/src/utils/finish_pug_backend.ts:87-99 | a distinct team credits each member exactly one loss |
| FinishBackend.TeamAvoids | discord_bot/src/utils/finish_pug_backend.ts:72-99 | a team loop leaves the rows of non-members alone |
| FinishBackend.SidesOfRoster | discord_bot/src/utils/finish_pug_backend.ts:68-69 | in a well-formed roster, winners and losers are each distinct, disjoint, and together the roster |
| FinishBackend.CreditResultsAt | discord_bot/src/utils/finish_pug_backend.ts:72-99 | each rostered player is credited exactly once, with a win or a loss by side; unseen players start at (1,0) or (0,1) |
| FinishBackend.CaptainsAreHeads | discord_bot/src/utils/finish_pug_backend.ts:103-106 | the winning and losing captains are the heads of the winning and losing teams; captain 1 belongs to team 1 |
| FinishBackend.SettledAt | discord_bot/src/utils/finish_pug_backend.ts:68-132 | per player: winners gain a win, losers a loss, the winning captain a captain win and the losing captain a captain loss; mu/σ and other rows are unchanged |
| RevertPug.RevertRow | discord_bot/src/interacctions/revert_pug_select.ts:56-85 | an id on neither team is skipped; otherwise mu/σ become the snapshot's `current`, a winner's wins drop by one and a loser's losses drop by one, the other counter unchanged; a captain's captain wins (winner) or captain losses (loser) drop by one, and a non-captain's captain counters are unchanged |
| RevertPug.Throws | discord_bot/src/interacctions/revert_pug_select.ts:57-64 | a snapshot reaches the captain check only when its player is on a team (:59 skips the others), and then throws when the check throws |
| RevertPug.IsWinner | discord_bot/src/interacctions/revert_pug_select.ts:61 | the player's team number equals the recorded winner |
| RevertPug.RevertUpdate | discord_bot/src/interacctions/revert_pug_select.ts:56-85 | the revert loop's step is `RevertRow` for the reverted PUG and winner, on every row and snapshot |
| RevertPug.FirstThrow | discord_bot/src/interacctions/revert_pug_select.ts:62-64 | how many snapshots are applied before the captain check throws |
| RevertPug.FirstThrowIs | discord_bot/src/interacctions/revert_pug_select.ts:56-64 | the number of snapshots applied is the only count with no throw before it and a throw (or the end) at it |
| RevertPug.RevertRows | discord_bot/src/interacctions/revert_pug_select.ts:56-86 | the snapshot loop applies exactly the snapshots before the first throw, in order |
| RevertPug.DropToken | discord_bot/src/interacctions/revert_pug_select.ts:89 | the DELETE keeps exactly the history rows not tagged with the token, in order |
| RevertPug.DropTokenAppend | discord_bot/src/interacctions/revert_pug_select.ts:89 | the DELETE distributes over appended history |
| RevertPug.MarkReverted | discord_bot/src/interacctions/revert_pug_select.ts:90 | only the token's pug row is flagged reverted; no row is added or removed |
| RevertPug.Revert | discord_bot/src/interacctions/revert_pug_select.ts:12-98 | no finished record means nothing changes; otherwise the command is logged and the snapshots are applied up to the first throw; only without a throw are history deleted, the pug flagged and the finished record and index entry removed |
| RevertPug.RevertTwice | discord_bot/src/interacctions/revert_pug_select.ts:92-93 | after a completed revert, a second revert of the same token takes the not-found branch |
| SettleRevert.NoThrowOnWellFormed | discord_bot/src/interacctions/revert_pug_select.ts:62-64 | on a roster built from a validated draft, the revert loop never throws |
| SettleRevert.OnlySnapshot | discord_bot/src/interacctions/revert_pug_select.ts:56-57 | in a distinct snapshot list, a snapshot's id names no other snapshot |
| SettleRevert.RevertSeesSettlementRoles | discord_bot/src/interacctions/revert_pug_select.ts:61-64 | revert's winner and captain tests agree with the sides and captains settlement used |
| SettleRevert.RevertUndoesSettleRow | discord_bot/src/interacctions/revert_pug_select.ts:66-85 | reverting a settled row gives the row before settlement, with the snapshot's mu/σ |
| SettleRevert.RevertUndoesWin | discord_bot/src/interacctions/revert_pug_select.ts:66-85 | reverting a winner's row that gained a win (and, for a captain, a captain win) gives back the row before it, with the snapshot's mu/σ |
| SettleRevert.RevertUndoesLoss | discord_bot/src/interacctions/revert_pug_select.ts:66-85 | reverting a loser's row that gained a loss (and, for a captain, a captain loss) gives back the row before it, with the snapshot's mu/σ |
| SettleRevert.FinishThenRevertRestores | discord_bot/src/interacctions/revert_pug_select.ts:56-85 | counter round trip: after finish then revert every rostered player's counters are as before, with mu/σ from the snapshot; other rows are untouched |
| SettleRevert.FinishThenRevertIsIdentity | discord_bot/src/utils/finish_pug_backend.ts:72-132 | when the stored ratings equal the snapshots, finish then revert leaves the players table exactly as it was |
| SettleRevert.RevertAfterFinish | discord_bot/src/interacctions/revert_pug_select.ts:56-86 | after a finish of a well-formed PUG no snapshot throws and undoing all snapshots restores the stored table |
| SettleRevert.HistoryAfterRevert | discord_bot/src/interacctions/revert_pug_select.ts:89 | after the finish's history rows, the DELETE restores the history when they carry the token and removes nothing when they carry no token |
| SettleRevert.HistorySurvivesRevertAsWritten | discord_bot/src/utils/finish_pug_backend.ts:135 | history rows tagged with the record's missing `pugId` survive the revert's DELETE |
| SettleRevert.HistoryRestoredWithToken | discord_bot/src/interacctions/revert_pug_select.ts:89 | tagged with the token, exactly the settlement's history rows are deleted by the revert |
| SettleRevert.FinishThenRevert | discord_bot/src/interacctions/revert_pug_select.ts:12-93 | the two handlers in sequence restore the players table, remove the token from the finished and match-index keys (which gives them back as they were only when the token was not there before), remove the live record (which the source deletes rather than restores), and (with token-tagged rows) restore the history |
| FlatSettlement.SettleTeam | discord_bot/src/utils/update_mmr_after_finish.ts:101-174 | a settlement loop gives the fold of the per-player step, or reports the throw of the first captain check that fails |
| FlatSettlement.FlatSettle | discord_bot/src/utils/update_mmr_after_finish.ts:10-198 | no Redis record means failure and nothing changes; any failure rolls every SQL write back, except a used serial value; on commit the tables hold the settlement, the pug row is reused or created and then marked, and the Redis record is deleted |
| FlatSettlement.PrepareRows | discord_bot/src/utils/update_mmr_after_finish.ts:30-92 | steps 1 to 3 succeed exactly without a verifier conflict and without a captainless pug insert; the serial advances exactly when the insert runs; on success the table, pug rows and match number are the prepared ones |
| FlatSettlement.SettleBoth | discord_bot/src/utils/update_mmr_after_finish.ts:94-174 | the two loops throw exactly when some player of either team fails the captain check; otherwise they give `FlatResult` |
| FlatSettlement.EnsuredRows | discord_bot/src/utils/update_mmr_after_finish.ts:33-55 | after step 1 every roster player has a row, stored rows are untouched, and new rows start at MMR 1500 |
| FlatSettlement.EnsureRow | discord_bot/src/utils/update_mmr_after_finish.ts:33-55 | an existing player row is kept; a missing one is inserted with the name and MMR 1500 |
| FlatSettlement.EnsuredKeys | discord_bot/src/utils/update_mmr_after_finish.ts:33-68 | step 1 adds only roster ids |
| FlatSettlement.PreparedRows | discord_bot/src/utils/update_mmr_after_finish.ts:33-68 | every roster player and the verifier end up with a row; new rows start at 1500 with zero counters |
| FlatSettlement.WithPugRow | discord_bot/src/utils/update_mmr_after_finish.ts:70-92 | an existing pug row is kept; otherwise one row is added under the token, with the next match number, the captains' ids and no winner; no other row changes |
| FlatSettlement.VerifierConflict | discord_bot/src/utils/update_mmr_after_finish.ts:57-68 | the verifier insert hits the unique key exactly when the verifier did not play and already has a row |
| FlatSettlement.PugInsertThrows | discord_bot/src/utils/update_mmr_after_finish.ts:78-88 | building the pug insert throws exactly when the token has no pug row and a captain is missing |
| FlatSettlement.SerialUsed | discord_bot/src/utils/update_mmr_after_finish.ts:57-92 | the pug insert runs, and takes a serial value, exactly when the verifier step succeeds, the token has no row and both captains are present |
| FlatSettlement.FlatRow | discord_bot/src/utils/update_mmr_after_finish.ts:107-116 | the MMR becomes the old MMR (NULL read as 0) plus the change; a win adds one win, a loss one loss; nothing else in the row changes |
| FlatSettlement.FlatStep | discord_bot/src/utils/update_mmr_after_finish.ts:101-137 | one loop iteration; what it does is stated by `FlatStepEffect` |
| FlatSettlement.FlatResult | discord_bot/src/utils/update_mmr_after_finish.ts:94-174 | the winners' loop, with the winner's team number and +25, then the losers' loop, with the other team number and −25 |
| FlatSettlement.FoldRows | discord_bot/src/utils/update_mmr_after_finish.ts:119-137 | each loop appends one pug_players row and one history row per player, in order; the MMR after is the MMR before ± 25, the change is the delta, and `is_captain` is the captain test |
| FlatSettlement.FlatStepEffect | discord_bot/src/utils/update_mmr_after_finish.ts:101-137 | one loop iteration: a player without a row is skipped; otherwise only that player's row changes (MMR by the delta, one win or one loss), and one pug_players row and one mmr_history row with the old and new MMR are appended |
| FlatSettlement.FoldPlayers | discord_bot/src/utils/update_mmr_after_finish.ts:101-116 | a loop changes the players table as the per-row fold does |
| FlatSettlement.FlatPlayerResult | discord_bot/src/utils/update_mmr_after_finish.ts:95-154 | on commit each winner gains a win and 25 MMR and each loser a loss and −25; other rows are as step 2 left them |
| FlatSettlement.FlatPlayersAsFolds | discord_bot/src/utils/update_mmr_after_finish.ts:101-174 | the two loops change the players table as two per-row folds, winners first |
| FlatSettlement.RosterSides | discord_bot/src/utils/update_mmr_after_finish.ts:96-97 | an id is in the roster exactly when it is a winner or a loser |
| FlatSettlement.IdsOfConcat | discord_bot/src/utils/update_mmr_after_finish.ts:24 | an id is in the roster exactly when it is on one of the two teams |
| Validation.ElemSetBound | discord_bot/src/utils/create_pug_team_validation.ts:27 | the `Set` of a list is no larger than the list |
| Validation.DistinctIffSetSize | discord_bot/src/utils/create_pug_team_validation.ts:26-27 | the set-size test detects exactly the lists with a repeated id |
| Validation.Validate | discord_bot/src/utils/create_pug_team_validation.ts:22-55 | the checks run duplicate, then uneven, then empty, and the first failure is reported; no error iff ids are distinct, sizes are equal and teams are non-empty |
| Validation.ValidateIgnoresOrder | discord_bot/src/utils/create_pug_team_validation.ts:22-55 | reordering either team never changes the outcome |
| Validation.DistinctMultiset | discord_bot/src/utils/create_pug_team_validation.ts:26-27 | distinctness depends only on the multiset of ids |
| CreateBackend.LiveRecord | discord_bot/src/utils/create_pug_backend.ts:15-23 | the record is exactly token = pug id, date, both teams, the captains as the team heads (missing for an empty team), and the user |
| CreateBackend.Head | discord_bot/src/utils/create_pug_backend.ts:20-21 | nothing exactly for an empty team; otherwise the first member |
| CreateBackend.ErrorText | discord_bot/src/utils/create_pug_backend.ts:61 | `error.message` or "Database/Redis error": never empty, and the message when that is non-empty |
| CreateBackend.CreatePug | discord_bot/src/utils/create_pug_backend.ts:9-65 | Redis writes always happen; an empty team fails before any SQL change; a duplicate token fails after using up a match number (the serial advances) and leaves the rows; otherwise the pug row carries the same head ids and the next match number; success returns the key "pug:" + id and that number |
| CreateBackend.ValidatedTeamsAreWellFormed | discord_bot/src/utils/create_pug_backend.ts:15-23 | teams that pass validation give a well-formed live record with both captains |
| CreateBackend.DuplicateTeamsAreNotWellFormed | discord_bot/src/utils/create_pug_team_validation.ts:26-34 | teams that fail the duplicate check never give a well-formed record |
| MentionParsing.MentionAt | discord_bot/src/commands/create_pug.ts:43 | a match is "<@", an optional "!", one or more digits and ">"; it yields the digits |
| MentionParsing.Exec | discord_bot/src/commands/create_pug.ts:45 | `regex.exec` finds the leftmost match, a non-empty digit string |
| MentionParsing.Mentions | discord_bot/src/commands/create_pug.ts:42-48 | all matches, each search resuming after the previous match; every match uses at least four characters, so there are at most |s|/4 |
| MentionParsing.MentionsAreDigits | discord_bot/src/commands/create_pug.ts:42-48 | every match, left to right, is a non-empty digit string |
| MentionParsing.PushMatch | discord_bot/src/commands/create_pug.ts:45-47 | one `exec` step: the pushed ids followed by the matches after `lastIndex` are still all the matches |
| MentionParsing.ParseMentions | discord_bot/src/commands/create_pug.ts:42-48 | the `while` loop with `lastIndex` returns exactly `Mentions` |
| MentionParsing.DigitPrefixStops | discord_bot/src/commands/create_pug.ts:43 | `\d+` stops at the first non-digit |
| MentionParsing.SkipChar | discord_bot/src/commands/create_pug.ts:43 | a character that cannot start a match is skipped |
| MentionParsing.MentionAtForm | discord_bot/src/commands/create_pug.ts:43 | `<@id>` and `<@!id>` at the start of the text match, with their digits and length |
| MentionParsing.MentionsForm | discord_bot/src/commands/create_pug.ts:42-48 | the matches of a text starting with a mention are its digits followed by the matches of the rest |
| MentionParsing.MentionsOfRender | discord_bot/src/commands/create_pug.ts:42-48 | typed mentions are read back in order |
| MentionParsing.DuplicatesKept | discord_bot/src/commands/create_pug.ts:42-48 | a repeated mention is kept, not deduplicated |
| MentionParsing.NoAngleNoMentions | discord_bot/src/commands/create_pug.ts:42-48 | text without a mention yields [] |
| MentionParsing.NicknameMention | discord_bot/src/commands/create_pug.ts:43 | the `<@!id>` form gives the same id |
| CustomIds.FinishButtons | discord_bot/src/interacctions/finish_pug_select.ts:12-21 | exactly two buttons, "finish_team1_" + id and "finish_team2_" + id, with different ids |
| CustomIds.SelectCaptainId | discord_bot/src/commands/create_pug.ts:100-105 | for a team and draft id without '_', the id's '_' fields are "select", "captain", the team and the draft id |
| CustomIds.ConfirmCaptainsId | discord_bot/src/commands/create_pug.ts:114 | for a draft id without ':', the id's ':' fields are "pug", the draft id and "confirm_captains" |
| CustomIds.FinishButtonId | discord_bot/src/interacctions/finish_pug_select.ts:12-17 | for a team and pug id without '_', the id's '_' fields are "finish", the team and the pug id |
| CustomIds.DecodeSelectCaptain | discord_bot/src/interacctions/create_pug_select_captains.ts:10-14 | the team is the third '_' field and the draft id the fourth ("undefined" when missing) |
| CustomIds.DecodeConfirm | discord_bot/src/interacctions/create_pug_confirm_button.ts:8-9 | the draft id is the second ':' field |
| CustomIds.DecodeTeamMembers | discord_bot/src/interacctions/create_pug_team_members.ts:35-37 | the draft id is the second ':' field; the team is "team1" iff the id contains "team1", else "team2" |
| CustomIds.DecodeFinishButton | discord_bot/src/interacctions/finish_pug_buttons.ts:8-14 | a missing third '_' field throws; otherwise the pug id is that field minus its first "pug:", and the winner is 1 iff the second field is "team1", else 2 |
| CustomIds.DecodeFlatButtonAsWritten | discord_bot/src/interacctions/finish_pug_button_handler.ts:8-11 | as written: ignored unless the first field is "finish"; the pug id is field 2 and the winner is `parseInt` of field 3 |
| CustomIds.DecodeFlatButton | discord_bot/src/interacctions/finish_pug_select.ts:12-17 | corrected: the pug id is field 3 and the winner is 1 or 2 as field 2 is "team1" or "team2" |
| CustomIds.SplitThree | discord_bot/src/interacctions/finish_pug_buttons.ts:8 | splitting three separator-free parts joined by the separator gives them back |
| CustomIds.NoTeam1 | discord_bot/src/interacctions/create_pug_team_members.ts:37 | a string with no 't' four places before a '1' contains no "team1" |
| CustomIds.SelectCaptainRoundTrip | discord_bot/src/commands/create_pug.ts:100-105 | decoding "select_captain_team<n>_<id>" gives back the team and the draft id when the id has no '_' |
| CustomIds.ConfirmRoundTrip | discord_bot/src/commands/create_pug.ts:114 | decoding "pug:<id>:confirm_captains" gives back the draft id when it has no ':' |
| CustomIds.Team2IdLacksTeam1 | discord_bot/src/interacctions/create_pug_team_members.ts:37 | the team-2 members id contains no "team1" |
| CustomIds.ColonFields | discord_bot/src/interacctions/create_pug_team_members.ts:35 | the second ':' field of "pug:<id>:<tail>" is the id |
| CustomIds.Team1IdHasTeam1 | discord_bot/src/interacctions/create_pug_team_members.ts:37 | the team-1 members id contains "team1" |
| CustomIds.TeamMembersRoundTrip | discord_bot/src/interacctions/create_pug_team_members.ts:35-37 | "pug:<id>:team<n>_select_members" decodes to the draft id and team n |
| CustomIds.PromptIdsReadUndefinedDraft | discord_bot/src/interacctions/prompt_team_members.ts:9-21 | the prompt's "team<n>_select" ids decode to draft "undefined" |
| CustomIds.ReplaceAbsent | discord_bot/src/interacctions/finish_pug_buttons.ts:9 | a raw id without "pug:" is kept |
| CustomIds.ReplaceLeading | discord_bot/src/interacctions/finish_pug_buttons.ts:9 | a leading "pug:" is removed |
| CustomIds.FinishButtonRoundTrip | discord_bot/src/interacctions/finish_pug_buttons.ts:8-14 | a winner button decodes to winner n and the token, whether the token is bare or prefixed "pug:" |
| CustomIds.FinishButtonFields | discord_bot/src/interacctions/finish_pug_buttons.ts:8-14 | a winner button decodes to its team number and its third field with the first "pug:" removed |
| CustomIds.FlatButtonMisreadAsWritten | discord_bot/src/interacctions/finish_pug_button_handler.ts:8-11 | as written, a winner button is read as pug "team<n>" with `parseInt(token)` as the winner, never as its own pug |
| CustomIds.FlatButtonMisreadExample | discord_bot/src/interacctions/finish_pug_button_handler.ts:8-11 | "finish_team1_abc" is read as pug "team1" with no winner |
| CustomIds.WinnerButtonReadAsTeam | discord_bot/src/interacctions/finish_pug_button_handler.ts:8-11 | as written, every winner button is read as a "finish" id whose pug id is "team1" or "team2" |
| CustomIds.FlatButtonRoundTrip | discord_bot/src/interacctions/finish_pug_select.ts:12-17 | the corrected decoder reads back the token and winner n |
| CreateCommand.ResolveAll | discord_bot/src/commands/create_pug.ts:60-74 | `Promise.all` over the fetches yields every member in order, or fails when any fetch fails |
| CreateCommand.Execute | discord_bot/src/commands/create_pug.ts:29-125 | outside a guild, without mentions for a team, or when a fetch fails, nothing is stored; otherwise the draft holds both teams, null captains and the user, and the menu and confirm ids decode back to the draft id |
| DraftHandlers.ResolveSome | discord_bot/src/interacctions/create_pug_team_members.ts:66-84 | a member is kept iff some selected id resolves to it; never longer than the selection; the all-resolve case equals `Promise.all`'s list |
| DraftHandlers.ResolveSomeSingle | discord_bot/src/interacctions/create_pug_team_members.ts:66-84 | one selected id contributes its member when the fetch succeeds and nothing otherwise |
| DraftHandlers.ResolveSomeAppend | discord_bot/src/interacctions/create_pug_team_members.ts:66-84 | members are pushed in selection order: resolving a concatenation is resolving each part in turn, so no survivor is dropped, repeated or reordered |
| DraftHandlers.LoadDraft | discord_bot/src/interacctions/create_pug_team_members.ts:42-52 | the stored draft when there is one; otherwise empty teams, both captains null, no pug id and no requester |
| DraftHandlers.SelectTeamMembers | discord_bot/src/interacctions/create_pug_team_members.ts:25-110 | with no resolvable member nothing is saved; otherwise only the chosen team is replaced, `user_requested` is set only when missing, the rest is kept, and "both selected" iff both lists are non-empty |
| DraftHandlers.SetCaptain | discord_bot/src/interacctions/create_pug_select_captains.ts:42-43 | only the chosen team's captain changes, to the first value; with no value the key is dropped, as JSON drops `undefined` |
| DraftHandlers.SelectCaptain | discord_bot/src/interacctions/create_pug_select_captains.ts:4-50 | a missing draft gives the error and no write; a missing captains object starts as both null; only that captain changes |
| ConfirmCaptains.CaptainFirst | discord_bot/src/interacctions/create_pug_confirm_button.ts:24-32 | the result is a permutation with the captain at the head when a member; positions 0 and k swap and all others stay; at index 0 or absent, nothing moves |
| ConfirmCaptains.MoveCaptainToHead | discord_bot/src/interacctions/create_pug_confirm_button.ts:28-32 | the in-place swap on the copied array produces `CaptainFirst` |
| ConfirmCaptains.SwappedCopy | discord_bot/src/interacctions/create_pug_confirm_button.ts:24-32 | copying a team and swapping its captain to the head gives `CaptainFirst` |
| ConfirmCaptains.CaptainFirstIds | discord_bot/src/interacctions/create_pug_confirm_button.ts:31-32 | the swap keeps the multiset of ids |
| ConfirmCaptains.SwapKeepsValidation | discord_bot/src/interacctions/create_pug_confirm_button.ts:24-32 | moving captains forward never changes the validation outcome |
| ConfirmCaptains.ConfirmedRosterWellFormed | discord_bot/src/interacctions/create_pug_confirm_button.ts:24-42 | a validated draft with member captains gives a well-formed record whose captains are the chosen ones |
| ConfirmCaptains.CaptainChoice | discord_bot/src/interacctions/create_pug_confirm_button.ts:18-19 | a captain is chosen exactly when the slot is present, non-null and non-empty |
| ConfirmCaptains.Confirm | discord_bot/src/interacctions/create_pug_confirm_button.ts:7-53 | a missing draft or captain creates nothing; otherwise the live record and its by-date entry are written from the swapped copies, and then the backend's outcomes carry through: an empty team leaves the SQL tables alone; a token already in `pugs` uses a serial value and leaves the rows; otherwise the pug row gets the next match number and the head ids, and the command row is written iff the requester is known. The pug row's captains are the chosen ones, and the draft is deleted only on success |
| FinishButtons.Invoker | discord_bot/src/interacctions/finish_pug_buttons.ts:15-18 | the handlers pass only id and username, so the stored user has discriminator "" and no globalName |
| FinishButtons.FinishPugButton | discord_bot/src/interacctions/finish_pug_buttons.ts:4-38 | an undecodable id crashes and changes nothing; a decoded pug that is not live fails and changes nothing; a live one is moved to the finished records with its match index, the command is logged and the pug row marked; then the players table is settled and the history appended when both captains are present, or only the win/loss credits are kept when one is missing; success reply iff the captains are present |
| FinishButtons.SettleChoice | discord_bot/src/interacctions/finish_pug_button_handler.ts:15-32 | the flat settlement's three outcomes (not live: nothing changes; rolled back: only the serial may advance; committed: the settled rows, the marked pug row and the deleted live record) become the reply |
| FinishButtons.FlatFinishButton | discord_bot/src/interacctions/finish_pug_button_handler.ts:5-33 | as written: non-buttons and ids whose first field is not "finish" are ignored with nothing changed; otherwise the flat settlement runs on field 2 as the pug id and `parseInt` of field 3 as the winner; with no live PUG keyed "team1" or "team2", a real winner button fails as not found and changes nothing |
| FinishButtons.FlatFinishButtonCorrected | discord_bot/src/interacctions/finish_pug_select.ts:12-17 | corrected: the same handler reading the fields in the order the buttons write them, so it settles the PUG the button was built for |
| Leaderboard.SortOf | discord_bot/src/commands/leaderboard.ts:31 | the sort option defaults to "mmr" |
| Leaderboard.ColumnOf | discord_bot/src/commands/leaderboard.ts:35-40 | "wins" sorts by wins, "captain_wins" by captain wins, and anything else by mu − 3σ |
| Leaderboard.Offset | discord_bot/src/commands/leaderboard.ts:43 | never negative from page 1 on, and zero exactly on page 1 |
| Leaderboard.Rank | discord_bot/src/commands/leaderboard.ts:60 | ranks start at 1, and row i of a page of ten is ranked after the offset and within the page's ten |
| Leaderboard.MissingRating | discord_bot/src/commands/leaderboard.ts:67-70 | mu or σ is NULL, so `toFixed` on it throws |
| Leaderboard.KeyOf | discord_bot/src/commands/leaderboard.ts:35-49 | the sort key is the column value; mu − 3σ is NULL when either part is |
| Leaderboard.Page | discord_bot/src/commands/leaderboard.ts:42-53 | LIMIT 10 OFFSET (p − 1)·10: at most ten rows; row i is the row ranked (p − 1)·10 + i + 1; empty iff the offset reaches the end; short iff it is the last page |
| Leaderboard.PagesTileBoard | discord_bot/src/commands/leaderboard.ts:43-50 | pages 1..n together are the first 10n rows: no row is skipped or repeated |
| Leaderboard.EarlierPagesSortFirst | discord_bot/src/commands/leaderboard.ts:49 | on an ordered board, a row on an earlier page sorts at or before every row on a later page |
| Leaderboard.EmptyStaysEmpty | discord_bot/src/commands/leaderboard.ts:132 | once a page is empty, every later page is empty |
| Leaderboard.ShortPageIsLast | discord_bot/src/commands/leaderboard.ts:105 | a short page (Next disabled) has an empty next page; a full page followed by an empty one ends the board exactly |
| Leaderboard.ShownName | discord_bot/src/commands/leaderboard.ts:61 | a missing name shows as "Unknown Player" |
| Leaderboard.Lines | discord_bot/src/commands/leaderboard.ts:56-77 | on the "mmr" sort a row with a NULL mu or σ makes `toFixed` throw and there are no lines, exactly then; otherwise one line per row, ranked from the page offset; the "mmr" and "wins" sorts show wins/losses, every other sort the captain counters |
| Leaderboard.LeaderboardView.constructor | discord_bot/src/commands/leaderboard.ts:32 | the view starts on page 1 |
| Leaderboard.LeaderboardView.Render | discord_bot/src/commands/leaderboard.ts:92-105 | no view exactly when the page's lines throw; otherwise Prev is disabled iff page = 1 and Next is disabled iff fewer than 10 rows are returned |
| Leaderboard.LeaderboardView.Click | discord_bot/src/commands/leaderboard.ts:119-148 | another user's click changes nothing; Prev decrements only above page 1 and Next increments; an empty new page gets "no more players" and a Next is undone; when rendering the new page throws, no reply is sent but the page has moved; page stays ≥ 1, and a shown page always holds rows |

## Left out

- The internals of `rate` (ts-trueskill) are not modelled. It is a function parameter, and only its result shape (one rating per player) is assumed.
- Floating point is not modelled. Ratings are reals, and shown ratings use `.Floor`. `toFixed`, SQL `ROUND` and IEEE rounding are left out.
- The Discord API is out of scope: embeds, reply wording, builders, deferral, collectors and their 60-second timeout. Guild member fetches are a partial lookup parameter.
- Clocks, uuid generation and Redis TTLs (600 s, 86400 s) are not modelled. Timestamps and tokens are parameters.
- Transactions are not modelled as such. Each handler is one atomic step over the store.
- finish_pug_backend.ts opens its transaction only at :108. The model keeps what is committed before a captain crash (win/loss credits, Redis moves), but not the ROLLBACK of the captain updates on later SQL errors.
- The only database errors the model generates are a duplicate token on insert, a verifier unique-key conflict and a NaN winner. Other database errors and Redis I/O errors are not modelled.
- revert_pug_select.ts:16 never releases its DB client. Connection pools are not modelled.
- The revert takes the token and match number directly. The option that revert_pug.ts builds is a bare token, which the JSON parse at revert_pug_select.ts:13 would reject. Listing commands are not part of this model.
- The Redis-listing commands (cancel_pug.ts, finish_pug.ts, revert_pug.ts, cancel_pug_select_pug.ts), match_lookup.ts, player_lookup.ts, ping.ts and dateFormater.ts are not part of this model.
- prompt_team_members.ts is not part of this model, except for how its select ids decode (`CustomIds.PromptIdsReadUndefinedDraft`).
- database/init_db.ts is not part of this model. Its schema lacks columns that the queries use (`mmr`, `reverted`, `pug_token`). The model follows the queries.
- The default σ is 3.333 (calculate_mmr_stakes.ts:23).
- `validatePugTeams` is modelled (`Validation.Validate`), but no handler calls it. `CreateBackend.ValidatedTeamsAreWellFormed` and `ConfirmCaptains.ConfirmedRosterWellFormed` state what would hold if it were called.
- Finish takes the snapshots, the history pug id and the match id as inputs. The record that finish_pug_backend.ts:134-135 reads was written by create_pug_backend.ts:15-23, which stores none of them. On records as those writers create them, `playerSnapshots` is undefined, so the `for … of` loops at finish_pug_backend.ts:137 and revert_pug_select.ts:56 would throw a TypeError. The model does not capture that throw: its snapshot input stands for a record that carries them.
- Players' serial ids in the flat settlement are identified with their Discord ids.
- Leaderboard.Page: the board is taken as the query's ordered result. That it is a permutation of the players table is not modelled, and neither is the unspecified order of ties.
- Leaderboard.Lines does not model the "mmr" line's rating figures, which are float formatting; only whether `toFixed` throws is modelled.
- Stakes.GetPlayerMMRsWithStakes requires that every id in `team1` and `team2` is one of `players`, and that every player is on one of the teams; the source checks neither. A missing id hands `undefined` to ts-trueskill's `rate`, whose behaviour on it is library internals. A player on neither team makes `indexOf` return −1 and reading `.mu` of the resulting `undefined` throws. The callers of the preview are not part of this model.
- The title lookup for an unknown sort is not modelled.
- FinishButtons.FlatFinishButton and FinishButtons.FlatFinishButtonCorrected report a rolled-back settlement as a failure value, not as the database's error text.
- CreateCommand.Execute does not model the 600-second TTL of the draft key or the menus' option labels.

## Findings

| source | as written | input that shows it | evidently intended | confidence | as-written member | corrected member |
|---|---|---|---|---|---|---|
| discord_bot/src/utils/finish_pug_backend.ts:135 | history rows are tagged with `pug.pugId`, which the live record never has, so the revert's `DELETE ... WHERE pug_token = token` matches none of them | finish then revert of any PUG with at least one snapshot: the settlement's history rows remain | tag the rows with the record's token so the revert removes them | high (not executed) | SettleRevert.HistorySurvivesRevertAsWritten | SettleRevert.HistoryRestoredWithToken |
| discord_bot/src/interacctions/finish_pug_button_handler.ts:8-11 | `[prefix, pug_id, team]` reads the team name as the pug id and `parseInt` of the token as the winner | "finish_team1_abc" is read as pug "team1" with a NaN winner | read `[prefix, team, pug_id]` in the order finish_pug_select.ts:12,17 writes them | high (not executed) | FinishButtons.FlatFinishButton | FinishButtons.FlatFinishButtonCorrected |
