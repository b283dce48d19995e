/**
 * Settlement of a live PUG with the TrueSkill snapshots
 * (discord_bot/src/utils/finish_pug_backend.ts).
 *
 * The live record as create_pug_backend writes it has neither `playerSnapshots`
 * nor `pugId` nor `match_id`; the handler reads all three from it. Here they are
 * explicit inputs: `snapshots` (carried into the finished record), `recordPugId`
 * (written as the history rows' pug token) and `matchId` (the sorted-set score).
 * Stored mu/sigma are never written by this handler.
 */
module FinishBackend {
  import opened Wrappers
  import opened Tables
  import opened Records
  import opened StoreState

  /** Upsert "wins + 1", inserting (wins 1, losses 0) for an unseen player. */
  function CreditWin(row: Option<PlayerRow>, m: Member): (r: Option<PlayerRow>)
    ensures r.Some?
    ensures row.Some? ==> r.value == row.value.(wins := row.value.wins + 1)
    ensures row.None? ==> r.value.wins == 1 && r.value.losses == 0 && r.value.captainWins == 0 && r.value.captainLosses == 0
    ensures row.None? ==> r.value.mu == Some(DefaultMu) && r.value.sigma == Some(DefaultSigma)
  {
    var r := row.GetOr(NewRow(None, None));
    Some(r.(wins := r.wins + 1))
  }

  /** Upsert "losses + 1", inserting (wins 0, losses 1) for an unseen player. */
  function CreditLoss(row: Option<PlayerRow>, m: Member): (r: Option<PlayerRow>)
    ensures r.Some?
    ensures row.Some? ==> r.value == row.value.(losses := row.value.losses + 1)
    ensures row.None? ==> r.value.wins == 0 && r.value.losses == 1 && r.value.captainWins == 0 && r.value.captainLosses == 0
    ensures row.None? ==> r.value.mu == Some(DefaultMu) && r.value.sigma == Some(DefaultSigma)
  {
    var r := row.GetOr(NewRow(None, None));
    Some(r.(losses := r.losses + 1))
  }

  /** Upsert "captain_wins + 1", inserting (captain wins 1, captain losses 0) for an unseen player. */
  function CreditCaptainWin(row: Option<PlayerRow>): (r: Option<PlayerRow>)
    ensures r.Some?
    ensures row.Some? ==> r.value == row.value.(captainWins := row.value.captainWins + 1)
    ensures row.None? ==> r.value.captainWins == 1 && r.value.captainLosses == 0 && r.value.wins == 0 && r.value.losses == 0
    ensures row.None? ==> r.value.mu == Some(DefaultMu) && r.value.sigma == Some(DefaultSigma)
  {
    var r := row.GetOr(NewRow(None, None));
    Some(r.(captainWins := r.captainWins + 1))
  }

  /** Upsert "captain_losses + 1", inserting (captain wins 0, captain losses 1) for an unseen player. */
  function CreditCaptainLoss(row: Option<PlayerRow>): (r: Option<PlayerRow>)
    ensures r.Some?
    ensures row.Some? ==> r.value == row.value.(captainLosses := row.value.captainLosses + 1)
    ensures row.None? ==> r.value.captainWins == 0 && r.value.captainLosses == 1 && r.value.wins == 0 && r.value.losses == 0
    ensures row.None? ==> r.value.mu == Some(DefaultMu) && r.value.sigma == Some(DefaultSigma)
  {
    var r := row.GetOr(NewRow(None, None));
    Some(r.(captainLosses := r.captainLosses + 1))
  }

  /** The win and loss loops: every winner credited a win, then every loser a loss. */
  function CreditResults(t: map<PlayerId, PlayerRow>, pug: LivePug, winner: int): (r: map<PlayerId, PlayerRow>)
    ensures forall id :: id !in Ids(pug.team1) && id !in Ids(pug.team2) ==> Get(r, id) == Get(t, id)
  {
    CreditLoopsElsewhere(t, pug, winner);
    ApplyAll(ApplyAll(t, Winners(pug, winner), MemberId, CreditWin), Losers(pug, winner), MemberId, CreditLoss)
  }

  /** Neither loop touches the row of a player on neither team. */
  lemma CreditLoopsElsewhere(t: map<PlayerId, PlayerRow>, pug: LivePug, winner: int)
    ensures forall id :: id !in Ids(pug.team1) && id !in Ids(pug.team2) ==>
      Get(ApplyAll(ApplyAll(t, Winners(pug, winner), MemberId, CreditWin), Losers(pug, winner), MemberId, CreditLoss), id) == Get(t, id)
  {
    var t1 := ApplyAll(t, Winners(pug, winner), MemberId, CreditWin);
    forall id | id !in Ids(pug.team1) && id !in Ids(pug.team2)
      ensures Get(ApplyAll(t1, Losers(pug, winner), MemberId, CreditLoss), id) == Get(t, id)
    {
      TeamAvoids(t, Winners(pug, winner), CreditWin, id);
      TeamAvoids(t1, Losers(pug, winner), CreditLoss, id);
    }
  }

  predicate CaptainsPresent(pug: LivePug) {
    pug.captain1.Some? && pug.captain2.Some?
  }

  /** The captain of the winning team; captain 1 belongs to team 1. */
  function WinningCaptain(pug: LivePug, winner: int): (c: PlayerId)
    requires CaptainsPresent(pug)
    ensures IsCaptain(pug, c)
    ensures winner == 1 ==> c == pug.captain1.value.id
    ensures winner != 1 ==> c == pug.captain2.value.id
  {
    if winner == 1 then pug.captain1.value.id else pug.captain2.value.id
  }

  /** The other captain: together with the winning one they are the two captains. */
  function LosingCaptain(pug: LivePug, winner: int): (c: PlayerId)
    requires CaptainsPresent(pug)
    ensures IsCaptain(pug, c)
    ensures pug.captain1.value.id != pug.captain2.value.id ==> c != WinningCaptain(pug, winner)
  {
    if winner == 1 then pug.captain2.value.id else pug.captain1.value.id
  }

  /** The captain upserts: captain_wins + 1 for the winning captain, then captain_losses + 1 for the losing one. */
  function CreditCaptains(t: map<PlayerId, PlayerRow>, winCaptain: PlayerId, loseCaptain: PlayerId): (r: map<PlayerId, PlayerRow>)
    ensures winCaptain != loseCaptain ==>
      var b := Base(t, winCaptain); Get(r, winCaptain) == Some(b.(captainWins := b.captainWins + 1))
    ensures winCaptain != loseCaptain ==>
      var b := Base(t, loseCaptain); Get(r, loseCaptain) == Some(b.(captainLosses := b.captainLosses + 1))
    ensures winCaptain == loseCaptain ==>
      var b := Base(t, winCaptain);
      Get(r, winCaptain) == Some(b.(captainWins := b.captainWins + 1, captainLosses := b.captainLosses + 1))
    ensures forall id :: id != winCaptain && id != loseCaptain ==> Get(r, id) == Get(t, id)
  {
    var t1 := Put(t, winCaptain, CreditCaptainWin(Get(t, winCaptain)));
    Put(t1, loseCaptain, CreditCaptainLoss(Get(t1, loseCaptain)))
  }

  /** The players table after a completed settlement. */
  function SettledPlayers(t: map<PlayerId, PlayerRow>, pug: LivePug, winner: int): (r: map<PlayerId, PlayerRow>)
    requires CaptainsPresent(pug)
    ensures forall id :: id !in Ids(pug.team1) && id !in Ids(pug.team2) && !IsCaptain(pug, id) ==> Get(r, id) == Get(t, id)
  {
    CreditCaptains(CreditResults(t, pug, winner), WinningCaptain(pug, winner), LosingCaptain(pug, winner))
  }

  /** The history row for one snapshot: before is `current`, after is `win` for a winner and `loss` otherwise. */
  function HistoryRowOf(snap: PlayerSnapshot, winners: seq<Member>, pugToken: Option<Token>): (h: HistoryRow)
    ensures h.RatingHistory? && h.discordId == snap.id && h.pugToken == pugToken
    ensures h.muBefore == snap.current.mu && h.sigmaBefore == snap.current.sigma
    ensures snap.id in Ids(winners) ==> h.muAfter == snap.win.mu && h.sigmaAfter == snap.win.sigma
    ensures snap.id !in Ids(winners) ==> h.muAfter == snap.loss.mu && h.sigmaAfter == snap.loss.sigma
  {
    var isWinner := snap.id in Ids(winners);
    RatingHistory(snap.id, snap.current.mu, if isWinner then snap.win.mu else snap.loss.mu,
                  snap.current.sigma, if isWinner then snap.win.sigma else snap.loss.sigma, pugToken)
  }

  function HistoryRows(snaps: seq<PlayerSnapshot>, winners: seq<Member>, pugToken: Option<Token>): (rows: seq<HistoryRow>)
    ensures |rows| == |snaps|
  {
    seq(|snaps|, i requires 0 <= i < |snaps| => HistoryRowOf(snaps[i], winners, pugToken))
  }

  /** `UPDATE pugs SET winner_team, verified_by WHERE token`: no row, no change. */
  function MarkVerified(pugs: map<Token, PugRow>, token: Token, winner: int, verifier: PlayerId): (r: map<Token, PugRow>)
    ensures r.Keys == pugs.Keys
    ensures token in pugs ==> r[token] == pugs[token].(winner := Some(winner), verifiedBy := Some(verifier))
    ensures forall k :: k in pugs && k != token ==> r[k] == pugs[k]
  {
    if token in pugs then pugs[token := pugs[token].(winner := Some(winner), verifiedBy := Some(verifier))] else pugs
  }

  datatype FinishError = PugNotFound | Crashed

  /** Success carries what the summary message shows: the winner and both rosters. */
  datatype FinishOutcome = FinishOk(winner: int, team1: seq<PlayerId>, team2: seq<PlayerId>) | FinishFailed(error: FinishError)

  /** The win and loss upserts: every winner's row, then every loser's, in team order. */
  method CreditTeams(t: map<PlayerId, PlayerRow>, pug: LivePug, winner: int) returns (table: map<PlayerId, PlayerRow>)
    ensures table == CreditResults(t, pug, winner)
  {
    table := ApplyEach(t, Winners(pug, winner), MemberId, CreditWin);
    table := ApplyEach(table, Losers(pug, winner), MemberId, CreditLoss);
  }

  /** The history loop: one row per snapshot, in snapshot order. */
  method BuildHistory(snapshots: seq<PlayerSnapshot>, winners: seq<Member>, pugToken: Option<Token>) returns (rows: seq<HistoryRow>)
    ensures rows == HistoryRows(snapshots, winners, pugToken)
  {
    rows := [];
    var i := 0;
    while i < |snapshots|
      invariant 0 <= i <= |snapshots|
      invariant rows == HistoryRows(snapshots[..i], winners, pugToken)
    {
      rows := rows + [HistoryRowOf(snapshots[i], winners, pugToken)];
      i := i + 1;
    }
    assert snapshots[..|snapshots|] == snapshots;
  }

  /**
   * finish_pug_backend: moves the live record to the finished records, logs the
   * command, marks the pug row, credits wins and losses, then (inside the only
   * transaction) the captains and one history row per snapshot. A missing captain
   * makes the handler throw after the win/loss credits, which are not rolled back.
   */
  method Finish(s: Store, token: Token, winner: int, user: User, date: Timestamp,
                snapshots: seq<PlayerSnapshot>, recordPugId: Option<Token>, matchId: int)
    returns (outcome: FinishOutcome)
    modifies s`live, s`finished, s`finishedByMatch, s`commands, s`pugs, s`players, s`history
    ensures token !in old(s.live) ==>
      && outcome == FinishFailed(PugNotFound)
      && s.live == old(s.live) && s.finished == old(s.finished) && s.finishedByMatch == old(s.finishedByMatch)
      && s.commands == old(s.commands) && s.pugs == old(s.pugs)
      && s.players == old(s.players) && s.history == old(s.history)
    ensures token in old(s.live) ==>
      var pug := old(s.live)[token];
      && s.live == old(s.live) - {token}
      && s.finished == old(s.finished)[token := FinishedPug(pug, snapshots, winner, date, RecordOf(user))]
      && s.finishedByMatch == old(s.finishedByMatch)[token := matchId]
      && s.commands == old(s.commands) + [CommandRow(user.id, user.username, token, Finished)]
      && s.pugs == MarkVerified(old(s.pugs), token, winner, user.id)
    ensures token in old(s.live) && CaptainsPresent(old(s.live)[token]) ==>
      var pug := old(s.live)[token];
      && outcome == FinishOk(winner, Ids(pug.team1), Ids(pug.team2))
      && s.players == SettledPlayers(old(s.players), pug, winner)
      && s.history == old(s.history) + HistoryRows(snapshots, Winners(pug, winner), recordPugId)
    ensures token in old(s.live) && !CaptainsPresent(old(s.live)[token]) ==>
      var pug := old(s.live)[token];
      && outcome == FinishFailed(Crashed)
      && s.players == CreditResults(old(s.players), pug, winner)
      && s.history == old(s.history)
  {
    if token !in s.live {
      return FinishFailed(PugNotFound);
    }
    var pug := s.live[token];
    s.finishedByMatch := s.finishedByMatch[token := matchId];
    s.finished := s.finished[token := FinishedPug(pug, snapshots, winner, date, RecordOf(user))];
    s.live := s.live - {token};
    s.commands := s.commands + [CommandRow(user.id, user.username, token, Finished)];
    s.pugs := MarkVerified(s.pugs, token, winner, user.id);

    var table := CreditTeams(s.players, pug, winner);
    s.players := table;

    if !CaptainsPresent(pug) {
      return FinishFailed(Crashed);
    }
    var winCaptain := WinningCaptain(pug, winner);
    var loseCaptain := LosingCaptain(pug, winner);
    table := Put(table, winCaptain, CreditCaptainWin(Get(table, winCaptain)));
    table := Put(table, loseCaptain, CreditCaptainLoss(Get(table, loseCaptain)));

    var rows := BuildHistory(snapshots, Winners(pug, winner), recordPugId);
    s.players := table;
    s.history := s.history + rows;
    outcome := FinishOk(winner, Ids(pug.team1), Ids(pug.team2));
  }

  /**
   * The roster create_pug_backend builds from a validated draft: two non-empty
   * teams, no id twice across both, the captains the team heads.
   */
  predicate WellFormedRoster(pug: LivePug) {
    && |pug.team1| > 0 && |pug.team2| > 0
    && Distinct(Ids(pug.team1) + Ids(pug.team2))
    && pug.captain1 == Some(pug.team1[0]) && pug.captain2 == Some(pug.team2[0])
  }

  /** The row an upsert starts from: the stored row, or the schema defaults for an unseen player. */
  function Base(t: map<PlayerId, PlayerRow>, id: PlayerId): PlayerRow {
    Get(t, id).GetOr(NewRow(None, None))
  }

  /** Distinct ids across two lists: each list distinct and no id in both. */
  lemma DistinctConcat(a: seq<PlayerId>, b: seq<PlayerId>)
    requires Distinct(a + b)
    ensures Distinct(a) && Distinct(b) && Distinct(b + a)
    ensures forall x :: x in a ==> x !in b
  {
    forall i, j | 0 <= i < |a| && 0 <= j < |b|
      ensures a[i] != b[j]
    {
      assert (a + b)[i] == a[i] && (a + b)[|a| + j] == b[j];
    }
    forall i, j | 0 <= i < j < |b + a|
      ensures (b + a)[i] != (b + a)[j]
    {
      if j < |b| {
        assert (a + b)[|a| + i] == b[i] && (a + b)[|a| + j] == b[j];
      } else if i >= |b| {
        assert (a + b)[i - |b|] == a[i - |b|] && (a + b)[j - |b|] == a[j - |b|];
      }
    }
    forall i, j | 0 <= i < j < |a| ensures a[i] != a[j] {
      assert (a + b)[i] == a[i] && (a + b)[j] == a[j];
    }
    forall i, j | 0 <= i < j < |b| ensures b[i] != b[j] {
      assert (a + b)[|a| + i] == b[i] && (a + b)[|a| + j] == b[j];
    }
  }

  /** In a team with distinct ids, a member's id names no other member. */
  lemma OnlyPosition(team: seq<Member>, j: nat)
    requires Distinct(Ids(team)) && j < |team|
    ensures forall i :: 0 <= i < |team| && i != j ==> MemberId(team[i]) != MemberId(team[j])
  {
    forall i | 0 <= i < |team| && i != j
      ensures MemberId(team[i]) != MemberId(team[j])
    {
      if i < j { assert Ids(team)[i] != Ids(team)[j]; } else { assert Ids(team)[j] != Ids(team)[i]; }
    }
  }

  /** A team whose ids avoid `id` leaves its row alone. */
  lemma NotInTeam(team: seq<Member>, id: PlayerId)
    requires id !in Ids(team)
    ensures forall i :: 0 <= i < |team| ==> MemberId(team[i]) != id
  {
    forall i | 0 <= i < |team| ensures MemberId(team[i]) != id {
      assert Ids(team)[i] == team[i].id;
    }
  }

  /** The captain upserts touch the two captains' rows and nothing else. */
  lemma CreditCaptainsAt(t: map<PlayerId, PlayerRow>, wc: PlayerId, lc: PlayerId, id: PlayerId)
    requires wc != lc
    ensures Get(CreditCaptains(t, wc, lc), id) ==
      if id == wc then CreditCaptainWin(Get(t, id))
      else if id == lc then CreditCaptainLoss(Get(t, id))
      else Get(t, id)
  {
  }

  /** A team with distinct ids credits each member's row with exactly one win. */
  lemma WinCreditedOnce(t: map<PlayerId, PlayerRow>, team: seq<Member>, id: PlayerId)
    requires Distinct(Ids(team)) && id in Ids(team)
    ensures Get(ApplyAll(t, team, MemberId, CreditWin), id) == Some(Base(t, id).(wins := Base(t, id).wins + 1))
  {
    var j :| 0 <= j < |team| && Ids(team)[j] == id;
    OnlyPosition(team, j);
    ApplyAllOnce(t, team, MemberId, CreditWin, id, j);
  }

  /** A team with distinct ids credits each member's row with exactly one loss. */
  lemma LossCreditedOnce(t: map<PlayerId, PlayerRow>, team: seq<Member>, id: PlayerId)
    requires Distinct(Ids(team)) && id in Ids(team)
    ensures Get(ApplyAll(t, team, MemberId, CreditLoss), id) == Some(Base(t, id).(losses := Base(t, id).losses + 1))
  {
    var j :| 0 <= j < |team| && Ids(team)[j] == id;
    OnlyPosition(team, j);
    ApplyAllOnce(t, team, MemberId, CreditLoss, id, j);
  }

  /** A loop over a team leaves the rows of non-members alone. */
  lemma TeamAvoids(t: map<PlayerId, PlayerRow>, team: seq<Member>, upd: (Option<PlayerRow>, Member) -> Option<PlayerRow>, id: PlayerId)
    requires id !in Ids(team)
    ensures Get(ApplyAll(t, team, MemberId, upd), id) == Get(t, id)
  {
    NotInTeam(team, id);
    ApplyAllElsewhere(t, team, MemberId, upd, id);
  }

  /** Winners and losers of a well-formed roster are each distinct and share no id; together they are the roster. */
  lemma SidesOfRoster(pug: LivePug, winner: int)
    requires Distinct(Ids(pug.team1) + Ids(pug.team2))
    ensures Distinct(Ids(Winners(pug, winner))) && Distinct(Ids(Losers(pug, winner)))
    ensures forall x :: x in Ids(Winners(pug, winner)) ==> x !in Ids(Losers(pug, winner))
    ensures forall x :: x in Ids(pug.team1) || x in Ids(pug.team2) <==>
      x in Ids(Winners(pug, winner)) || x in Ids(Losers(pug, winner))
  {
    DistinctConcat(Ids(pug.team1), Ids(pug.team2));
  }

  /** The win and loss loops credit each rostered player exactly once. */
  lemma CreditResultsAt(t: map<PlayerId, PlayerRow>, pug: LivePug, winner: int, id: PlayerId)
    requires WellFormedRoster(pug)
    ensures id in Ids(Winners(pug, winner)) ==>
      Get(CreditResults(t, pug, winner), id) == Some(Base(t, id).(wins := Base(t, id).wins + 1))
    ensures id in Ids(Losers(pug, winner)) ==>
      Get(CreditResults(t, pug, winner), id) == Some(Base(t, id).(losses := Base(t, id).losses + 1))
    ensures id !in Ids(pug.team1) && id !in Ids(pug.team2) ==>
      Get(CreditResults(t, pug, winner), id) == Get(t, id)
  {
    var w, l := Winners(pug, winner), Losers(pug, winner);
    SidesOfRoster(pug, winner);
    var t1 := ApplyAll(t, w, MemberId, CreditWin);
    if id in Ids(w) {
      WinCreditedOnce(t, w, id);
      TeamAvoids(t1, l, CreditLoss, id);
    } else if id in Ids(l) {
      TeamAvoids(t, w, CreditWin, id);
      LossCreditedOnce(t1, l, id);
      assert Base(t1, id) == Base(t, id);
    } else {
      TeamAvoids(t, w, CreditWin, id);
      TeamAvoids(t1, l, CreditLoss, id);
    }
  }

  /** The captains of a well-formed roster are the heads of the winning and losing teams. */
  lemma CaptainsAreHeads(pug: LivePug, winner: int)
    requires WellFormedRoster(pug)
    ensures WinningCaptain(pug, winner) == Ids(Winners(pug, winner))[0]
    ensures LosingCaptain(pug, winner) == Ids(Losers(pug, winner))[0]
    ensures WinningCaptain(pug, winner) in Ids(pug.team1) + Ids(pug.team2)
    ensures LosingCaptain(pug, winner) in Ids(pug.team1) + Ids(pug.team2)
    ensures WinningCaptain(pug, winner) != LosingCaptain(pug, winner)
  {
    DistinctConcat(Ids(pug.team1), Ids(pug.team2));
    assert Ids(pug.team1)[0] in Ids(pug.team1);
    assert Ids(pug.team2)[0] in Ids(pug.team2);
  }

  /**
   * What settlement does to one player of a well-formed roster: a winner gains a
   * win, a loser a loss, the winning captain also a captain win and the losing
   * captain a captain loss; unseen players start from the defaults; mu, sigma
   * and every other row are left as they were.
   */
  lemma SettledAt(t: map<PlayerId, PlayerRow>, pug: LivePug, winner: int, id: PlayerId)
    requires WellFormedRoster(pug)
    ensures id in Ids(Winners(pug, winner)) ==>
      var b := Base(t, id);
      Get(SettledPlayers(t, pug, winner), id) ==
        Some(b.(wins := b.wins + 1,
                captainWins := b.captainWins + if id == WinningCaptain(pug, winner) then 1 else 0))
    ensures id in Ids(Losers(pug, winner)) ==>
      var b := Base(t, id);
      Get(SettledPlayers(t, pug, winner), id) ==
        Some(b.(losses := b.losses + 1,
                captainLosses := b.captainLosses + if id == LosingCaptain(pug, winner) then 1 else 0))
    ensures id !in Ids(pug.team1) && id !in Ids(pug.team2) ==>
      Get(SettledPlayers(t, pug, winner), id) == Get(t, id)
  {
    CaptainsAreHeads(pug, winner);
    CreditResultsAt(t, pug, winner, id);
    DistinctConcat(Ids(pug.team1), Ids(pug.team2));
    CreditCaptainsAt(CreditResults(t, pug, winner), WinningCaptain(pug, winner), LosingCaptain(pug, winner), id);
  }
}
