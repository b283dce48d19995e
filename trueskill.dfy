/**
 * Rating presentation over TrueSkill ratings (discord_bot/src/utils/trueskill.ts).
 * The Bayesian update `rate` of the ts-trueskill library is not part of this
 * model: it is passed in as a function value of type `RateFn`.
 */
module TrueSkill {

  /** A TrueSkill rating: mean skill `mu` and uncertainty `sigma`. */
  datatype Rating = Rating(mu: real, sigma: real)

  /**
   * ts-trueskill's `rate(ratingGroups, ranks)`: one list of ratings per team
   * in, one list of new ratings per team out; a lower rank is a better place.
   */
  type RateFn = (seq<seq<Rating>>, seq<int>) -> seq<seq<Rating>>

  /** The conservative rating `max(mu - 3 sigma, 0)`. */
  function Conservative(mu: real, sigma: real): (c: real)
    ensures c >= 0.0 && c >= mu - 3.0 * sigma
    ensures c == mu - 3.0 * sigma || c == 0.0
  {
    if mu - 3.0 * sigma > 0.0 then mu - 3.0 * sigma else 0.0
  }

  /** The shown rating: the conservative rating rounded down. */
  function ShownMMR(r: Rating): (n: int)
    ensures n >= 0
    ensures n as real <= Conservative(r.mu, r.sigma) < n as real + 1.0
  {
    Conservative(r.mu, r.sigma).Floor
  }

  /** The conservative rating is `mu - 3 sigma` exactly when that is not negative. */
  lemma ConservativeCases(mu: real, sigma: real)
    ensures mu >= 3.0 * sigma ==> Conservative(mu, sigma) == mu - 3.0 * sigma
    ensures mu < 3.0 * sigma ==> Conservative(mu, sigma) == 0.0
  {
  }

  /** Nobody whose mean is within three deviations of zero shows a rating. */
  lemma ShownZeroWhenUncertain(r: Rating)
    requires r.mu <= 3.0 * r.sigma
    ensures ShownMMR(r) == 0
  {
  }

  /** Two reals with the same floor bracket: the floor is monotone. */
  lemma FloorMonotone(a: real, b: real)
    requires a <= b
    ensures a.Floor <= b.Floor
  {
  }

  /** A higher mean never lowers the shown rating; a higher deviation never raises it. */
  lemma ShownMonotone(r: Rating, r': Rating)
    requires r.mu <= r'.mu && r'.sigma <= r.sigma
    ensures ShownMMR(r) <= ShownMMR(r')
  {
    FloorMonotone(Conservative(r.mu, r.sigma), Conservative(r'.mu, r'.sigma));
  }

  /** The rank vector: the winning team takes place 1 and the other place 2. */
  function RankVector(winnerIsTeam1: bool): (ranks: seq<int>)
    ensures |ranks| == 2 && multiset(ranks) == multiset{1, 2}
    ensures winnerIsTeam1 <==> ranks[0] < ranks[1]
  {
    if winnerIsTeam1 then [1, 2] else [2, 1]
  }

  /**
   * `computeNewRatings`: `rate` always sees the teams as [team1, team2]; the
   * outcome only chooses the rank vector.
   */
  function ComputeNewRatings(rate: RateFn, team1: seq<Rating>, team2: seq<Rating>, winnerIsTeam1: bool): (r: seq<seq<Rating>>)
    ensures r == rate([team1, team2], if winnerIsTeam1 then [1, 2] else [2, 1])
  {
    rate([team1, team2], RankVector(winnerIsTeam1))
  }

  /** The two outcomes pass the same teams and differ only in which team ranks first. */
  lemma OutcomesDifferOnlyInRanks(rate: RateFn, team1: seq<Rating>, team2: seq<Rating>)
    ensures ComputeNewRatings(rate, team1, team2, true) == rate([team1, team2], [1, 2])
    ensures ComputeNewRatings(rate, team1, team2, false) == rate([team1, team2], [2, 1])
  {
  }
}
