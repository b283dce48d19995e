/**
 * The older flat settlement (discord_bot/src/utils/update_mmr_after_finish.ts):
 * every winner gains 25 MMR and a win, every loser loses 25 MMR and gains a
 * loss, with one pug_players row and one mmr_history row per player, all in
 * one transaction.
 *
 * Players' serial ids are identified with their discord ids (the handler's
 * `playerMap` is a bijection between the two). A NULL stored MMR reads as
 * JavaScript `null`, which arithmetic treats as 0.
 */
module FlatSettlement {
  import opened Wrappers
  import opened Tables
  import opened Records
  import opened StoreState
  import opened FinishBackend

  /** The flat MMR step. */
  const MmrChange := 25

  /** "Ensure the player exists": a missing player gets a row at the starting MMR. */
  function EnsureRow(row: Option<PlayerRow>, m: Member): (r: Option<PlayerRow>)
    ensures row.Some? ==> r == row
    ensures row.None? ==> r.Some? && r.value.username == Some(m.username) && r.value.mmr == Some(StartingMmr)
    ensures row.None? ==> r.value.wins == 0 && r.value.losses == 0
  {
    if row.Some? then row else Some(NewRow(Some(m.username), Some(StartingMmr)))
  }

  function Roster(pug: LivePug): seq<Member> {
    pug.team1 + pug.team2
  }

  /** Step 1: every roster player ensured, in roster order. */
  function EnsuredPlayers(t: map<PlayerId, PlayerRow>, pug: LivePug): map<PlayerId, PlayerRow> {
    ApplyAll(t, Roster(pug), MemberId, EnsureRow)
  }

  /** Step 2 fails: a verifier who did not play but already has a row hits the unique key on insert. */
  predicate VerifierConflict(t: map<PlayerId, PlayerRow>, pug: LivePug, verifier: User) {
    verifier.id !in Ids(Roster(pug)) && verifier.id in t
  }

  /** Steps 1 and 2: roster ensured, then a non-playing verifier inserted. */
  function PreparedPlayers(t: map<PlayerId, PlayerRow>, pug: LivePug, verifier: User): map<PlayerId, PlayerRow> {
    var e := EnsuredPlayers(t, pug);
    if verifier.id in Ids(Roster(pug)) then e
    else e[verifier.id := NewRow(Some(verifier.username), Some(StartingMmr))]
  }

  /** Step 3 throws while building the insert when the pug has no row and a captain is missing. */
  predicate PugInsertThrows(pugs: map<Token, PugRow>, token: Token, pug: LivePug) {
    token !in pugs && !CaptainsPresent(pug)
  }

  /** The insert runs (and takes a serial value, which a rollback does not give back). */
  predicate SerialUsed(t: map<PlayerId, PlayerRow>, pugs: map<Token, PugRow>, token: Token, pug: LivePug, verifier: User) {
    !VerifierConflict(t, pug, verifier) && token !in pugs && CaptainsPresent(pug)
  }

  /** Step 3: the pug row reused when the token has one, inserted with the captains otherwise. */
  function WithPugRow(pugs: map<Token, PugRow>, token: Token, pug: LivePug, next: int): (r: map<Token, PugRow>)
    requires token in pugs || CaptainsPresent(pug)
    ensures r.Keys == pugs.Keys + {token}
    ensures forall k :: k in pugs ==> r[k] == pugs[k]
    ensures token !in pugs ==>
      && r[token].matchNumber == next && !r[token].reverted
      && r[token].captain1 == Some(pug.captain1.value.id) && r[token].captain2 == Some(pug.captain2.value.id)
      && r[token].winner.None? && r[token].verifiedBy.None?
  {
    if token in pugs then pugs
    else pugs[token := PugRow(next, Some(pug.captain1.value.id), Some(pug.captain2.value.id), None, None, false)]
  }

  /** The match number the settlement rows carry. */
  function MatchNumberFor(pugs: map<Token, PugRow>, token: Token, next: int): int {
    if token in pugs then pugs[token].matchNumber else next
  }

  /** Some player of `team` reaches a captain check that throws. */
  predicate SomeoneThrows(pug: LivePug, team: seq<Member>) {
    exists i :: 0 <= i < |team| && CaptainCheckThrows(pug, team[i].id)
  }

  /** Everything the loops touch: the players table and the two appended tables. */
  datatype FlatState = FlatState(players: map<PlayerId, PlayerRow>, pugPlayers: seq<PugPlayerRow>, history: seq<HistoryRow>)

  /** The counter and MMR update for one player. */
  function FlatRow(row: PlayerRow, delta: int, isWin: bool): (r: PlayerRow)
    ensures r.mmr == Some(OrZero(row.mmr) + delta)
    ensures isWin ==> r.wins == row.wins + 1 && r.losses == row.losses
    ensures !isWin ==> r.losses == row.losses + 1 && r.wins == row.wins
    ensures r.(wins := row.wins, losses := row.losses, mmr := row.mmr) == row
  {
    var after := OrZero(row.mmr) + delta;
    if isWin then row.(wins := row.wins + 1, mmr := Some(after))
    else row.(losses := row.losses + 1, mmr := Some(after))
  }

  function FlatRowUpdate(delta: int, isWin: bool): (Option<PlayerRow>, Member) -> Option<PlayerRow> {
    (row: Option<PlayerRow>, m: Member) => if row.Some? then Some(FlatRow(row.value, delta, isWin)) else row
  }

  /**
   * One iteration of a settlement loop: read the player's MMR, write the new
   * MMR and counter, append the pug_players and mmr_history rows. Every roster
   * player has a row by then, so the missing-row case does not arise.
   */
  function FlatStep(pug: LivePug, matchNumber: int, teamNumber: int, delta: int, isWin: bool): (FlatState, Member) -> FlatState
  {
    (st: FlatState, m: Member) =>
      if m.id !in st.players then st
      else
        var before := st.players[m.id].mmr;
        var after := OrZero(before) + delta;
        FlatState(st.players[m.id := FlatRow(st.players[m.id], delta, isWin)],
                  st.pugPlayers + [PugPlayerRow(matchNumber, m.id, teamNumber, IsCaptain(pug, m.id), before, after)],
                  st.history + [MmrHistory(m.id, matchNumber, before, after, delta)])
  }

  /**
   * What one iteration does: a player without a row is skipped; otherwise only
   * that player's row changes, by the MMR delta and one counter, and exactly one
   * pug_players row and one mmr_history row, both carrying the old and new MMR,
   * are appended.
   */
  lemma FlatStepEffect(pug: LivePug, matchNumber: int, teamNumber: int, delta: int, isWin: bool, st: FlatState, m: Member)
    ensures m.id !in st.players ==> FlatStep(pug, matchNumber, teamNumber, delta, isWin)(st, m) == st
    ensures m.id in st.players ==>
      var r := FlatStep(pug, matchNumber, teamNumber, delta, isWin)(st, m);
      var before := st.players[m.id].mmr;
      && r.players.Keys == st.players.Keys
      && (forall k :: k in st.players && k != m.id ==> r.players[k] == st.players[k])
      && r.players[m.id].mmr == Some(OrZero(before) + delta)
      && (isWin ==> r.players[m.id].wins == st.players[m.id].wins + 1 && r.players[m.id].losses == st.players[m.id].losses)
      && (!isWin ==> r.players[m.id].losses == st.players[m.id].losses + 1 && r.players[m.id].wins == st.players[m.id].wins)
      && r.pugPlayers == st.pugPlayers + [PugPlayerRow(matchNumber, m.id, teamNumber, IsCaptain(pug, m.id), before, OrZero(before) + delta)]
      && r.history == st.history + [MmrHistory(m.id, matchNumber, before, OrZero(before) + delta, delta)]
  {
  }

  /** Steps 4 and 5: the winners' loop, then the losers' loop. */
  function FlatResult(st: FlatState, pug: LivePug, matchNumber: int, winner: int): FlatState {
    var winNum, loseNum := winner, if winner == 1 then 2 else 1;
    var afterWins := Fold(st, Winners(pug, winner), FlatStep(pug, matchNumber, winNum, MmrChange, true));
    Fold(afterWins, Losers(pug, winner), FlatStep(pug, matchNumber, loseNum, -MmrChange, false))
  }

  /** The transaction commits: no conflict, no throw, and a numeric winner. */
  predicate FlatSucceeds(t: map<PlayerId, PlayerRow>, pugs: map<Token, PugRow>, token: Token, pug: LivePug,
                         winner: Option<int>, verifier: User) {
    && !VerifierConflict(t, pug, verifier)
    && !PugInsertThrows(pugs, token, pug)
    && winner.Some?
    && !SomeoneThrows(pug, pug.team1) && !SomeoneThrows(pug, pug.team2)
  }

  datatype FlatFailure = NotInRedis | RolledBack
  datatype FlatOutcome = FlatOk | FlatFailed(failure: FlatFailure)

  /** A settlement loop with its captain check: the fold, or the first throw. */
  method SettleTeam(st0: FlatState, pug: LivePug, team: seq<Member>, matchNumber: int, teamNumber: int, delta: int, isWin: bool)
    returns (st: FlatState, threw: bool)
    ensures threw <==> SomeoneThrows(pug, team)
    ensures !threw ==> st == Fold(st0, team, FlatStep(pug, matchNumber, teamNumber, delta, isWin))
  {
    var step := FlatStep(pug, matchNumber, teamNumber, delta, isWin);
    st := st0;
    var i := 0;
    while i < |team|
      invariant 0 <= i <= |team|
      invariant forall j :: 0 <= j < i ==> !CaptainCheckThrows(pug, team[j].id)
      invariant st == Fold(st0, team[..i], step)
    {
      if CaptainCheckThrows(pug, team[i].id) {
        return st, true;
      }
      assert team[..i + 1][..i] == team[..i];
      st := step(st, team[i]);
      i := i + 1;
    }
    assert team[..|team|] == team;
    threw := false;
  }

  /**
   * Steps 1 to 3 inside the transaction: every roster player ensured, the
   * verifier inserted when they did not play, then the pug row found or
   * inserted. `ok` is false when a step fails; the insert of a new pug row
   * takes a serial value whether or not the transaction later commits.
   */
  method PrepareRows(s: Store, token: Token, pug: LivePug, verifier: User)
    returns (table: map<PlayerId, PlayerRow>, pugs: map<Token, PugRow>, matchNumber: int, ok: bool)
    modifies s`nextMatchNumber
    ensures ok <==> !VerifierConflict(s.players, pug, verifier) && !PugInsertThrows(s.pugs, token, pug)
    ensures s.nextMatchNumber ==
      old(s.nextMatchNumber) + if SerialUsed(s.players, s.pugs, token, pug, verifier) then 1 else 0
    ensures ok ==>
      && table == PreparedPlayers(s.players, pug, verifier)
      && pugs == WithPugRow(s.pugs, token, pug, old(s.nextMatchNumber))
      && matchNumber == MatchNumberFor(s.pugs, token, old(s.nextMatchNumber))
  {
    var all := pug.team1 + pug.team2;

    // 1. ensure every roster player has a row
    table := ApplyEach(s.players, all, MemberId, EnsureRow);
    EnsuredKeys(s.players, pug);

    // 2. ensure the verifier has a row
    if verifier.id !in Ids(all) {
      if verifier.id in table {
        return table, s.pugs, 0, false;
      }
      table := table[verifier.id := NewRow(Some(verifier.username), Some(StartingMmr))];
    }

    // 3. find or create the pug row
    pugs := s.pugs;
    if token in pugs {
      matchNumber := pugs[token].matchNumber;
    } else {
      if !CaptainsPresent(pug) {
        return table, pugs, 0, false;
      }
      matchNumber := s.nextMatchNumber;
      s.nextMatchNumber := s.nextMatchNumber + 1;
      pugs := pugs[token := PugRow(matchNumber, Some(pug.captain1.value.id), Some(pug.captain2.value.id), None, None, false)];
    }
    ok := true;
  }

  /** A throw in either loop is a throw on one of the two teams. */
  lemma SidesThrow(pug: LivePug, w: int)
    ensures SomeoneThrows(pug, Winners(pug, w)) || SomeoneThrows(pug, Losers(pug, w)) <==>
            SomeoneThrows(pug, pug.team1) || SomeoneThrows(pug, pug.team2)
  {
  }

  /** Steps 4 and 5: the winners' loop, then the losers' loop, each stopping at its first throw. */
  method SettleBoth(st0: FlatState, pug: LivePug, w: int, matchNumber: int) returns (st: FlatState, threw: bool)
    ensures threw <==> SomeoneThrows(pug, pug.team1) || SomeoneThrows(pug, pug.team2)
    ensures !threw ==> st == FlatResult(st0, pug, matchNumber, w)
  {
    SidesThrow(pug, w);
    st, threw := SettleTeam(st0, pug, Winners(pug, w), matchNumber, w, MmrChange, true);
    if threw {
      return;
    }
    st, threw := SettleTeam(st, pug, Losers(pug, w), matchNumber, if w == 1 then 2 else 1, -MmrChange, false);
  }

  /**
   * update_mmr_after_finish. Without the Redis record nothing changes. A failure
   * inside the transaction rolls back every SQL write (a serial value the pug
   * insert took stays taken); on commit the players, pug_players, mmr_history
   * and pugs tables hold the settlement and the Redis record is deleted.
   */
  method FlatSettle(s: Store, token: Token, winner: Option<int>, verifier: User) returns (outcome: FlatOutcome)
    modifies s`players, s`pugs, s`nextMatchNumber, s`pugPlayers, s`history, s`live
    ensures token !in old(s.live) ==>
      && outcome == FlatFailed(NotInRedis)
      && s.players == old(s.players) && s.pugs == old(s.pugs) && s.nextMatchNumber == old(s.nextMatchNumber)
      && s.pugPlayers == old(s.pugPlayers) && s.history == old(s.history) && s.live == old(s.live)
    ensures token in old(s.live) && !FlatSucceeds(old(s.players), old(s.pugs), token, old(s.live)[token], winner, verifier) ==>
      && outcome == FlatFailed(RolledBack)
      && s.players == old(s.players) && s.pugs == old(s.pugs)
      && s.pugPlayers == old(s.pugPlayers) && s.history == old(s.history) && s.live == old(s.live)
      && s.nextMatchNumber ==
           old(s.nextMatchNumber) + if SerialUsed(old(s.players), old(s.pugs), token, old(s.live)[token], verifier) then 1 else 0
    ensures token in old(s.live) && FlatSucceeds(old(s.players), old(s.pugs), token, old(s.live)[token], winner, verifier) ==>
      var pug := old(s.live)[token];
      var mn := MatchNumberFor(old(s.pugs), token, old(s.nextMatchNumber));
      var r := FlatResult(FlatState(PreparedPlayers(old(s.players), pug, verifier), old(s.pugPlayers), old(s.history)),
                          pug, mn, winner.value);
      && outcome == FlatOk
      && s.players == r.players && s.pugPlayers == r.pugPlayers && s.history == r.history
      && s.pugs == MarkVerified(WithPugRow(old(s.pugs), token, pug, old(s.nextMatchNumber)), token, winner.value, verifier.id)
      && s.nextMatchNumber == old(s.nextMatchNumber) + (if token in old(s.pugs) then 0 else 1)
      && s.live == old(s.live) - {token}
  {
    if token !in s.live {
      return FlatFailed(NotInRedis);
    }
    var pug := s.live[token];

    // 1. to 3.
    var table, pugs, matchNumber, ok := PrepareRows(s, token, pug, verifier);
    if !ok {
      return FlatFailed(RolledBack);
    }

    // 4. and 5. the two loops; a NaN winner fails the first team-number write at the latest
    if winner.None? {
      return FlatFailed(RolledBack);
    }
    var st, threw := SettleBoth(FlatState(table, s.pugPlayers, s.history), pug, winner.value, matchNumber);
    if threw {
      return FlatFailed(RolledBack);
    }

    // 6. mark the pug verified, commit, drop the Redis record
    s.players, s.pugPlayers, s.history := st.players, st.pugPlayers, st.history;
    s.pugs := MarkVerified(pugs, token, winner.value, verifier.id);
    s.live := s.live - {token};
    outcome := FlatOk;
  }

  /**
   * After step 1 every roster player has a row, stored rows are untouched,
   * and each new row is a default row at the starting MMR.
   */
  lemma {:induction false} EnsuredRows(t: map<PlayerId, PlayerRow>, xs: seq<Member>)
    ensures var r := ApplyAll(t, xs, MemberId, EnsureRow);
      && (forall i :: 0 <= i < |xs| ==> xs[i].id in r)
      && (forall k :: k in t ==> k in r && r[k] == t[k])
      && (forall k :: k in r && k !in t ==> k in Ids(xs) && r[k] == NewRow(r[k].username, Some(StartingMmr)))
    decreases |xs|
  {
    if xs != [] {
      var init, x := xs[..|xs| - 1], xs[|xs| - 1];
      EnsuredRows(t, init);
      assert forall i :: 0 <= i < |init| ==> init[i] == xs[i];
      IdsOfInit(xs);
    }
  }

  /** Step 1 adds only roster ids, so the verifier check sees the same answer before and after it. */
  lemma EnsuredKeys(t: map<PlayerId, PlayerRow>, pug: LivePug)
    ensures forall k :: k !in Ids(Roster(pug)) ==> (k in EnsuredPlayers(t, pug) <==> k in t)
  {
    EnsuredRows(t, Roster(pug));
  }

  /**
   * Every roster player and the verifier end step 2 with a row; stored rows
   * are kept; every new row starts at the starting MMR with zero counters.
   */
  lemma PreparedRows(t: map<PlayerId, PlayerRow>, pug: LivePug, verifier: User)
    requires !VerifierConflict(t, pug, verifier)
    ensures var p := PreparedPlayers(t, pug, verifier);
      && (forall i :: 0 <= i < |Roster(pug)| ==> Roster(pug)[i].id in p)
      && verifier.id in p
      && (forall k :: k in t ==> k in p && p[k] == t[k])
      && (forall k :: k in p && k !in t ==> p[k] == NewRow(p[k].username, Some(StartingMmr)))
  {
    EnsuredRows(t, Roster(pug));
    if verifier.id in Ids(Roster(pug)) {
      var i :| 0 <= i < |Roster(pug)| && Ids(Roster(pug))[i] == verifier.id;
      assert Roster(pug)[i].id == verifier.id;
    }
  }

  /**
   * The k-th rows a loop appended (after `pp0` pug_players rows and `h0` history
   * rows) log player `m`: the MMR after is the MMR before (NULL as 0) plus the
   * delta, the history change is that delta, and `is_captain` is the captain test.
   */
  predicate LoggedAt(r: FlatState, pp0: nat, h0: nat, k: nat, m: Member, pug: LivePug, mn: int, num: int, delta: int) {
    && pp0 + k < |r.pugPlayers| && h0 + k < |r.history|
    && var pp := r.pugPlayers[pp0 + k];
       && pp.matchNumber == mn && pp.playerId == m.id && pp.teamNumber == num
       && pp.isCaptain == IsCaptain(pug, m.id)
       && pp.mmrAfter == OrZero(pp.mmrBefore) + delta
       && r.history[h0 + k] == MmrHistory(m.id, mn, pp.mmrBefore, pp.mmrAfter, delta)
  }

  /**
   * A settlement loop appends exactly one pug_players row and one mmr_history
   * row per player, in order, each logging that player, and creates or deletes
   * no row of the players table.
   */
  lemma {:induction false} FoldRows(st: FlatState, team: seq<Member>, pug: LivePug, mn: int, num: int, delta: int, isWin: bool)
    requires forall i :: 0 <= i < |team| ==> team[i].id in st.players
    ensures var r := Fold(st, team, FlatStep(pug, mn, num, delta, isWin));
      && r.players.Keys == st.players.Keys
      && |r.pugPlayers| == |st.pugPlayers| + |team| && r.pugPlayers[..|st.pugPlayers|] == st.pugPlayers
      && |r.history| == |st.history| + |team| && r.history[..|st.history|] == st.history
      && forall k :: 0 <= k < |team| ==> LoggedAt(r, |st.pugPlayers|, |st.history|, k, team[k], pug, mn, num, delta)
    decreases |team|
  {
    var step := FlatStep(pug, mn, num, delta, isWin);
    if team != [] {
      var init, x := team[..|team| - 1], team[|team| - 1];
      FoldRows(st, init, pug, mn, num, delta, isWin);
      var prev := Fold(st, init, step);
      var r := Fold(st, team, step);
      assert r == step(prev, x);
      assert x.id in prev.players;
      assert r.pugPlayers == prev.pugPlayers + [r.pugPlayers[|prev.pugPlayers|]];
      assert r.history == prev.history + [r.history[|prev.history|]];
      forall k | 0 <= k < |team|
        ensures LoggedAt(r, |st.pugPlayers|, |st.history|, k, team[k], pug, mn, num, delta)
      {
        if k < |init| {
          assert init[k] == team[k];
          assert LoggedAt(prev, |st.pugPlayers|, |st.history|, k, init[k], pug, mn, num, delta);
          assert r.pugPlayers[|st.pugPlayers| + k] == prev.pugPlayers[|st.pugPlayers| + k];
          assert r.history[|st.history| + k] == prev.history[|st.history| + k];
        }
      }
    }
  }

  /** A settlement loop does to the players table what `ApplyAll` with `FlatRow` does. */
  lemma {:induction false} FoldPlayers(st: FlatState, team: seq<Member>, pug: LivePug, mn: int, num: int, delta: int, isWin: bool)
    ensures Fold(st, team, FlatStep(pug, mn, num, delta, isWin)).players ==
            ApplyAll(st.players, team, MemberId, FlatRowUpdate(delta, isWin))
    decreases |team|
  {
    if team != [] {
      FoldPlayers(st, team[..|team| - 1], pug, mn, num, delta, isWin);
    }
  }

  /**
   * With a distinct roster, a committed settlement gives each winner one win
   * and 25 more MMR and each loser one loss and 25 less, counted from the row
   * after step 2 (NULL MMR as 0); every other row is as step 2 left it.
   */
  lemma FlatPlayerResult(st: FlatState, pug: LivePug, mn: int, winner: int, id: PlayerId)
    requires Distinct(Ids(pug.team1) + Ids(pug.team2))
    requires forall i :: 0 <= i < |Roster(pug)| ==> Roster(pug)[i].id in st.players
    ensures var r := FlatResult(st, pug, mn, winner).players;
      && (id in Ids(Winners(pug, winner)) ==>
            id in st.players && Get(r, id) == Some(FlatRow(st.players[id], MmrChange, true)))
      && (id in Ids(Losers(pug, winner)) ==>
            id in st.players && Get(r, id) == Some(FlatRow(st.players[id], -MmrChange, false)))
      && (id !in Ids(Roster(pug)) ==> Get(r, id) == Get(st.players, id))
  {
    var w, l := Winners(pug, winner), Losers(pug, winner);
    var upW, upL := FlatRowUpdate(MmrChange, true), FlatRowUpdate(-MmrChange, false);
    var t1 := ApplyAll(st.players, w, MemberId, upW);
    FlatPlayersAsFolds(st, pug, mn, winner);
    SidesOfRoster(pug, winner);
    RosterSides(pug, winner, id);
    if id in Ids(w) || id in Ids(l) {
      var i :| 0 <= i < |Roster(pug)| && Ids(Roster(pug))[i] == id;
      assert Roster(pug)[i].id == id;
    }
    if id in Ids(w) {
      var j :| 0 <= j < |w| && Ids(w)[j] == id;
      OnlyPosition(w, j);
      ApplyAllOnce(st.players, w, MemberId, upW, id, j);
      TeamAvoids(t1, l, upL, id);
    } else if id in Ids(l) {
      var j :| 0 <= j < |l| && Ids(l)[j] == id;
      OnlyPosition(l, j);
      TeamAvoids(st.players, w, upW, id);
      ApplyAllOnce(t1, l, MemberId, upL, id, j);
    } else {
      TeamAvoids(st.players, w, upW, id);
      TeamAvoids(t1, l, upL, id);
    }
  }

  /** Both loops together change the players table as two per-row folds, winners first. */
  lemma FlatPlayersAsFolds(st: FlatState, pug: LivePug, mn: int, winner: int)
    ensures FlatResult(st, pug, mn, winner).players ==
            ApplyAll(ApplyAll(st.players, Winners(pug, winner), MemberId, FlatRowUpdate(MmrChange, true)),
                     Losers(pug, winner), MemberId, FlatRowUpdate(-MmrChange, false))
  {
    var winNum, loseNum := winner, if winner == 1 then 2 else 1;
    var st1 := Fold(st, Winners(pug, winner), FlatStep(pug, mn, winNum, MmrChange, true));
    FoldPlayers(st, Winners(pug, winner), pug, mn, winNum, MmrChange, true);
    FoldPlayers(st1, Losers(pug, winner), pug, mn, loseNum, -MmrChange, false);
  }

  /** An id is in the roster exactly when it is a winner or a loser. */
  lemma RosterSides(pug: LivePug, winner: int, x: PlayerId)
    ensures x in Ids(Roster(pug)) <==> x in Ids(Winners(pug, winner)) || x in Ids(Losers(pug, winner))
  {
    IdsOfConcat(pug.team1, pug.team2, x);
  }

  /** An id is in the roster exactly when it is on one of the two teams. */
  lemma IdsOfConcat(a: seq<Member>, b: seq<Member>, x: PlayerId)
    ensures x in Ids(a + b) <==> x in Ids(a) || x in Ids(b)
  {
    assert Ids(a + b) == Ids(a) + Ids(b);
  }
}
