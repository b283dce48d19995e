/**
 * The stake preview shown before a match
 * (discord_bot/src/utils/calculate_mmr_stakes.ts): every player's current
 * shown rating and how much it would move on a win and on a loss.
 */
module Stakes {
  import opened Wrappers
  import opened Tables
  import opened Records
  import opened StoreState
  import opened TrueSkill

  /** A player as the preview receives them. */
  datatype StakePlayer = StakePlayer(id: PlayerId, username: string)

  function StakePlayerId(p: StakePlayer): PlayerId {
    p.id
  }

  /** One line of the preview. */
  datatype Stake = Stake(id: PlayerId, username: string, mu: real, sigma: real,
                         currentMMR: int, potentialWin: int, potentialLoss: int,
                         winRating: Rating, loseRating: Rating)

  /** The rating a player is previewed with: the stored one, NULL parts and missing rows defaulted. */
  function LoadedRating(row: Option<PlayerRow>): (r: Rating)
    ensures row.None? ==> r == Rating(DefaultMu, DefaultSigma)
    ensures row.Some? ==> r.mu == row.value.mu.GetOr(DefaultMu) && r.sigma == row.value.sigma.GetOr(DefaultSigma)
  {
    if row.Some? then Rating(row.value.mu.GetOr(DefaultMu), row.value.sigma.GetOr(DefaultSigma))
    else Rating(DefaultMu, DefaultSigma)
  }

  /** `INSERT ... (mu 25, sigma 3.333) ON CONFLICT DO NOTHING` for a player without a row. */
  function InsertMissing(row: Option<PlayerRow>, p: StakePlayer): (r: Option<PlayerRow>)
    ensures row.Some? ==> r == row
    ensures row.None? ==> r.Some? && r.value.username == Some(p.username) && r.value.mmr.None?
    ensures row.None? ==> r.value.mu == Some(DefaultMu) && r.value.sigma == Some(DefaultSigma)
    ensures row.None? ==> r.value.wins == 0 && r.value.losses == 0 && r.value.captainWins == 0 && r.value.captainLosses == 0
  {
    if row.Some? then row else Some(NewRow(Some(p.username), None))
  }

  /**
   * `cur` is `stored` with rows added: every stored row is unchanged and every
   * added row holds the default rating.
   */
  ghost predicate OnlyDefaultsAdded(stored: map<PlayerId, PlayerRow>, cur: map<PlayerId, PlayerRow>) {
    && (forall k :: k in stored ==> k in cur && cur[k] == stored[k])
    && (forall k :: k in cur && k !in stored ==> LoadedRating(Get(cur, k)) == Rating(DefaultMu, DefaultSigma))
  }

  /** One pass of the loading loop reads the stored rating and adds at most a default row. */
  lemma LoadStep(stored: map<PlayerId, PlayerRow>, cur: map<PlayerId, PlayerRow>, p: StakePlayer)
    requires OnlyDefaultsAdded(stored, cur)
    ensures LoadedRating(Get(cur, p.id)) == LoadedRating(Get(stored, p.id))
    ensures OnlyDefaultsAdded(stored, Put(cur, p.id, InsertMissing(Get(cur, p.id), p)))
  {
    var next := Put(cur, p.id, InsertMissing(Get(cur, p.id), p));
    forall k | k in next && k !in stored
      ensures LoadedRating(Get(next, k)) == Rating(DefaultMu, DefaultSigma)
    {
      if k != p.id {
        assert Get(next, k) == Get(cur, k);
      }
    }
  }

  /** Every player in `ps` has their loaded rating in `ratings`. */
  ghost predicate RatingsLoaded(ratings: map<PlayerId, Rating>, stored: map<PlayerId, PlayerRow>, ps: seq<StakePlayer>) {
    forall j :: 0 <= j < |ps| ==> ps[j].id in ratings && ratings[ps[j].id] == LoadedRating(Get(stored, ps[j].id))
  }

  lemma RatingsLoadedStep(ratings: map<PlayerId, Rating>, stored: map<PlayerId, PlayerRow>, ps: seq<StakePlayer>, i: nat)
    requires i < |ps| && RatingsLoaded(ratings, stored, ps[..i])
    ensures RatingsLoaded(ratings[ps[i].id := LoadedRating(Get(stored, ps[i].id))], stored, ps[..i + 1])
  {
  }

  /**
   * The loading loop: a player without a row gets one with the default rating;
   * stored rows are never written; every player's rating is the stored rating
   * with NULLs defaulted, or the default rating for a player without a row.
   */
  method LoadRatings(s: Store, players: seq<StakePlayer>) returns (ratings: map<PlayerId, Rating>)
    modifies s`players
    ensures s.players == ApplyAll(old(s.players), players, StakePlayerId, InsertMissing)
    ensures forall k :: k in old(s.players) ==> k in s.players && s.players[k] == old(s.players)[k]
    ensures forall i :: 0 <= i < |players| ==>
      players[i].id in ratings && ratings[players[i].id] == LoadedRating(Get(old(s.players), players[i].id))
  {
    ratings := map[];
    var stored := s.players;
    var table := stored;
    var i := 0;
    while i < |players|
      invariant 0 <= i <= |players|
      invariant table == ApplyAll(stored, players[..i], StakePlayerId, InsertMissing)
      invariant OnlyDefaultsAdded(stored, table)
      invariant RatingsLoaded(ratings, stored, players[..i])
    {
      var p := players[i];
      ApplyAllPrefix(stored, players, i, StakePlayerId, InsertMissing);
      LoadStep(stored, table, p);
      var rating := LoadedRating(Get(table, p.id));
      table := Put(table, p.id, InsertMissing(Get(table, p.id), p));
      RatingsLoadedStep(ratings, stored, players, i);
      ratings := ratings[p.id := rating];
      i := i + 1;
    }
    assert players[..|players|] == players;
    s.players := table;
  }

  /** `team.map(id => ratingMap[id])`. */
  function TeamRatings(ratings: map<PlayerId, Rating>, team: seq<PlayerId>): (rs: seq<Rating>)
    requires forall i :: 0 <= i < |team| ==> team[i] in ratings
    ensures |rs| == |team| && forall i :: 0 <= i < |team| ==> rs[i] == ratings[team[i]]
  {
    seq(|team|, i requires 0 <= i < |team| => ratings[team[i]])
  }

  /** The team's rating list as loaded from the players table before the preview. */
  function StoredTeamRatings(t: map<PlayerId, PlayerRow>, team: seq<PlayerId>): (rs: seq<Rating>)
    ensures |rs| == |team| && forall i :: 0 <= i < |team| ==> rs[i] == LoadedRating(Get(t, team[i]))
  {
    seq(|team|, i requires 0 <= i < |team| => LoadedRating(Get(t, team[i])))
  }

  /** `rate` returns two teams of new ratings, one per player passed in. */
  ghost predicate RatesOnePerPlayer(rate: RateFn) {
    forall a: seq<Rating>, b: seq<Rating>, team1Wins: bool ::
      var out := ComputeNewRatings(rate, a, b, team1Wins);
      |out| == 2 && |out[0]| == |a| && |out[1]| == |b|
  }

  /** The preview line for one player from their rating and the two ratings the outcomes would give. */
  function StakeOf(p: StakePlayer, current: Rating, winR: Rating, loseR: Rating): (st: Stake)
    ensures st.id == p.id && st.username == p.username && st.mu == current.mu && st.sigma == current.sigma
    ensures st.potentialWin == ShownMMR(winR) - st.currentMMR && st.potentialLoss == ShownMMR(loseR) - st.currentMMR
    ensures st.currentMMR == ShownMMR(current) && st.winRating == winR && st.loseRating == loseR
  {
    var cur := ShownMMR(current);
    Stake(p.id, p.username, current.mu, current.sigma, cur, ShownMMR(winR) - cur, ShownMMR(loseR) - cur, winR, loseR)
  }

  /**
   * The per-player loop. A team-1 player wins with the team-1-wins result and
   * loses with the team-1-loses result at their team-1 index; any other player
   * is looked up in team 2, winning with the team-1-loses result and losing with
   * the team-1-wins result at their team-2 index.
   */
  method ComputeStakes(players: seq<StakePlayer>, ratings: map<PlayerId, Rating>, team1: seq<PlayerId>, team2: seq<PlayerId>,
                       t1Win: seq<seq<Rating>>, t1Lose: seq<seq<Rating>>)
    returns (results: seq<Stake>)
    requires forall i :: 0 <= i < |players| ==> players[i].id in ratings
    requires forall i :: 0 <= i < |players| ==> players[i].id in team1 || players[i].id in team2
    requires |t1Win| == 2 && |t1Lose| == 2
    requires |t1Win[0]| == |t1Lose[0]| == |team1| && |t1Win[1]| == |t1Lose[1]| == |team2|
    ensures |results| == |players|
    ensures forall i :: 0 <= i < |players| ==>
      var p := players[i];
      if p.id in team1 then
        results[i] == StakeOf(p, ratings[p.id], t1Win[0][IndexOf(team1, p.id)], t1Lose[0][IndexOf(team1, p.id)])
      else
        results[i] == StakeOf(p, ratings[p.id], t1Lose[1][IndexOf(team2, p.id)], t1Win[1][IndexOf(team2, p.id)])
  {
    results := [];
    var i := 0;
    while i < |players|
      invariant 0 <= i <= |players| && |results| == i
      invariant forall k :: 0 <= k < i ==>
        var p := players[k];
        if p.id in team1 then
          results[k] == StakeOf(p, ratings[p.id], t1Win[0][IndexOf(team1, p.id)], t1Lose[0][IndexOf(team1, p.id)])
        else
          results[k] == StakeOf(p, ratings[p.id], t1Lose[1][IndexOf(team2, p.id)], t1Win[1][IndexOf(team2, p.id)])
    {
      var p := players[i];
      var rating := ratings[p.id];
      var winR: Rating, loseR: Rating;
      if p.id in team1 {
        var at := IndexOf(team1, p.id);
        winR, loseR := t1Win[0][at], t1Lose[0][at];
      } else {
        var at := IndexOf(team2, p.id);
        winR, loseR := t1Lose[1][at], t1Win[1][at];
      }
      results := results + [StakeOf(p, rating, winR, loseR)];
      i := i + 1;
    }
  }

  /**
   * getPlayerMMRsWithStakes: load (and create) the players' ratings, run the
   * rating function once per outcome on the same two team rating lists, and
   * build one preview line per player in input order.
   */
  method GetPlayerMMRsWithStakes(s: Store, rate: RateFn, players: seq<StakePlayer>, team1: seq<PlayerId>, team2: seq<PlayerId>)
    returns (results: seq<Stake>)
    requires RatesOnePerPlayer(rate)
    requires forall i :: 0 <= i < |players| ==> players[i].id in team1 || players[i].id in team2
    requires forall x :: x in team1 + team2 ==> exists i :: 0 <= i < |players| && players[i].id == x
    modifies s`players
    ensures s.players == ApplyAll(old(s.players), players, StakePlayerId, InsertMissing)
    ensures |results| == |players|
    ensures
      var t1Win := ComputeNewRatings(rate, StoredTeamRatings(old(s.players), team1), StoredTeamRatings(old(s.players), team2), true);
      var t1Lose := ComputeNewRatings(rate, StoredTeamRatings(old(s.players), team1), StoredTeamRatings(old(s.players), team2), false);
      forall i :: 0 <= i < |players| ==>
        var p := players[i];
        var current := LoadedRating(Get(old(s.players), p.id));
        if p.id in team1 then
          results[i] == StakeOf(p, current, t1Win[0][IndexOf(team1, p.id)], t1Lose[0][IndexOf(team1, p.id)])
        else
          results[i] == StakeOf(p, current, t1Lose[1][IndexOf(team2, p.id)], t1Win[1][IndexOf(team2, p.id)])
  {
    var ratings := LoadRatings(s, players);
    forall x | x in team1 + team2 ensures x in ratings {
      var i :| 0 <= i < |players| && players[i].id == x;
    }
    assert forall i :: 0 <= i < |team1| ==> team1[i] in team1 + team2;
    assert forall i :: 0 <= i < |team2| ==> team2[i] in team1 + team2;
    var team1Ratings := TeamRatings(ratings, team1);
    var team2Ratings := TeamRatings(ratings, team2);
    assert team1Ratings == StoredTeamRatings(old(s.players), team1);
    assert team2Ratings == StoredTeamRatings(old(s.players), team2);
    var t1Win := ComputeNewRatings(rate, team1Ratings, team2Ratings, true);
    var t1Lose := ComputeNewRatings(rate, team1Ratings, team2Ratings, false);
    results := ComputeStakes(players, ratings, team1, team2, t1Win, t1Lose);
  }
}
