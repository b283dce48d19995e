/**
 * The records the bot keeps: team members and users (types/create_pug_data.ts),
 * rating snapshots (types/snapshots.ts), the live and finished PUG records kept
 * in Redis, the draft of a PUG being assembled, and the rows of the SQL tables.
 */
module Records {
  import opened Wrappers

  /** A Discord user id (a snowflake, kept as text). */
  type PlayerId = string
  /** A PUG's token (a v4 UUID, or the draft id of a PUG being assembled). */
  type Token = string
  /** A clock reading; clocks are not modelled, so time only ever arrives as a parameter. */
  type Timestamp = int

  /** Schema defaults of the players table and the default rating of a new player. */
  const DefaultMu: real := 25.0
  const DefaultSigma: real := 3.333
  /** The starting `mmr` of the flat-delta settlement. */
  const StartingMmr: int := 1500

  /**
   * A nullable integer column as the handlers read it: a NULL counts as 0,
   * both in arithmetic (`null + n`) and under `?? 0`.
   */
  function OrZero(v: Option<int>): (n: int)
    ensures v.Some? ==> n == v.value
    ensures v.None? ==> n == 0
  {
    v.GetOr(0)
  }

  /** A team member as resolved from the guild. */
  datatype Member = Member(id: PlayerId, username: string, displayName: string, globalName: Option<string>)

  /** The user behind an interaction; `discriminator` and `globalName` may be missing. */
  datatype User = User(id: PlayerId, username: string, discriminator: Option<string>, globalName: Option<string>)

  /** A user as stored in a record: `discriminator` defaults to "" and `globalName` to null. */
  datatype UserRecord = UserRecord(id: PlayerId, username: string, discriminator: string, globalName: Option<string>)

  function RecordOf(u: User): (r: UserRecord)
    ensures r.id == u.id && r.username == u.username && r.globalName == u.globalName
    ensures u.discriminator.Some? ==> r.discriminator == u.discriminator.value
    ensures u.discriminator.None? ==> r.discriminator == ""
  {
    UserRecord(u.id, u.username, u.discriminator.GetOr(""), u.globalName)
  }

  /** The ids of a team, in order. */
  function Ids(team: seq<Member>): (ids: seq<PlayerId>)
    ensures |ids| == |team| && forall i :: 0 <= i < |team| ==> ids[i] == team[i].id
  {
    seq(|team|, i requires 0 <= i < |team| => team[i].id)
  }

  /** Dropping the last member keeps every other id in the list. */
  lemma IdsOfInit(xs: seq<Member>)
    requires |xs| > 0
    ensures forall k :: k in Ids(xs[..|xs| - 1]) ==> k in Ids(xs)
    ensures Ids(xs)[|xs| - 1] == xs[|xs| - 1].id
  {
    forall k | k in Ids(xs[..|xs| - 1]) ensures k in Ids(xs) {
      var i :| 0 <= i < |xs| - 1 && Ids(xs[..|xs| - 1])[i] == k;
      assert Ids(xs)[i] == k;
    }
  }

  function MemberId(m: Member): PlayerId {
    m.id
  }

  /** No id occurs twice. */
  predicate Distinct(ids: seq<PlayerId>) {
    forall i, j :: 0 <= i < j < |ids| ==> ids[i] != ids[j]
  }

  /** `xs.indexOf(x)`, or `findIndex` by id: the first position of `x`, or -1. */
  function IndexOf(xs: seq<PlayerId>, x: PlayerId): (i: int)
    ensures x in xs ==> 0 <= i < |xs| && xs[i] == x && forall j :: 0 <= j < i ==> xs[j] != x
    ensures x !in xs ==> i == -1
  {
    if |xs| == 0 then -1
    else if xs[0] == x then 0
    else
      var k := IndexOf(xs[1..], x);
      if k < 0 then -1 else k + 1
  }

  /** A player's rating before the match and under each outcome, with shown ratings and deltas. */
  datatype RatingPoint = RatingPoint(mu: real, sigma: real, shown: int)
  datatype OutcomePoint = OutcomePoint(mu: real, sigma: real, shown: int, delta: int)
  datatype PlayerSnapshot = PlayerSnapshot(id: PlayerId, username: string, current: RatingPoint,
                                           win: OutcomePoint, loss: OutcomePoint)

  function SnapshotId(s: PlayerSnapshot): PlayerId {
    s.id
  }

  function SnapshotIds(snaps: seq<PlayerSnapshot>): (ids: seq<PlayerId>)
    ensures |ids| == |snaps| && forall i :: 0 <= i < |snaps| ==> ids[i] == snaps[i].id
  {
    seq(|snaps|, i requires 0 <= i < |snaps| => snaps[i].id)
  }

  /**
   * The live PUG record stored under "pug:<token>": exactly the fields
   * create_pug_backend writes. The captains are the team heads, missing
   * (JavaScript `undefined`) when a team is empty.
   */
  datatype LivePug = LivePug(token: Token, date: Timestamp, team1: seq<Member>, team2: seq<Member>,
                             captain1: Option<Member>, captain2: Option<Member>,
                             userCreated: Option<UserRecord>)

  /**
   * The finished PUG record stored under "finished_pugs:<token>": the live
   * record plus the winner, the finishing time and user, and the rating
   * snapshots the record is read for (`playerSnapshots`).
   */
  datatype FinishedPug = FinishedPug(pug: LivePug, snapshots: seq<PlayerSnapshot>, winner: int,
                                     finishedAt: Timestamp, userFinished: UserRecord)

  /** The team (1 or 2) a player is on, team 1 first; `None` for neither. */
  function TeamOf(pug: LivePug, id: PlayerId): (t: Option<int>)
    ensures t == Some(1) <==> id in Ids(pug.team1)
    ensures t == Some(2) <==> id !in Ids(pug.team1) && id in Ids(pug.team2)
    ensures t.None? <==> id !in Ids(pug.team1) && id !in Ids(pug.team2)
  {
    if id in Ids(pug.team1) then Some(1) else if id in Ids(pug.team2) then Some(2) else None
  }

  /** Captain membership, `captain1.id === id || captain2.id === id`, where that does not throw. */
  predicate IsCaptain(pug: LivePug, id: PlayerId) {
    || (pug.captain1.Some? && pug.captain1.value.id == id)
    || (pug.captain2.Some? && pug.captain2.value.id == id)
  }

  /**
   * `captain1.id === id || captain2.id === id` throws when `captain1` is
   * missing, or when it is present with another id and `captain2` is missing.
   */
  predicate CaptainCheckThrows(pug: LivePug, id: PlayerId) {
    pug.captain1.None? || (pug.captain1.value.id != id && pug.captain2.None?)
  }

  /**
   * `pug.captain1.id === id || pug.captain2.id === id` evaluated left to right
   * with short-circuit `||`: reading `.id` of a missing captain throws (`None`).
   */
  function CaptainCheck(pug: LivePug, id: PlayerId): (r: Option<bool>)
    ensures r.None? <==> CaptainCheckThrows(pug, id)
    ensures r.Some? ==> (r.value <==> IsCaptain(pug, id))
  {
    match pug.captain1
    case None => None
    case Some(c1) =>
      if c1.id == id then Some(true)
      else match pug.captain2
        case None => None
        case Some(c2) => Some(c2.id == id)
  }

  /** The team that won: team 1 for winner 1, team 2 for any other value. */
  function Winners(pug: LivePug, winner: int): (w: seq<Member>)
    ensures winner == 1 ==> w == pug.team1
    ensures winner != 1 ==> w == pug.team2
  {
    if winner == 1 then pug.team1 else pug.team2
  }

  /** The other team. */
  function Losers(pug: LivePug, winner: int): (l: seq<Member>)
    ensures winner == 1 ==> l == pug.team2
    ensures winner != 1 ==> l == pug.team1
  {
    if winner == 1 then pug.team2 else pug.team1
  }

  /** A draft's captain choices: "team1"/"team2" to a chosen id or null. */
  type Captains = map<string, Option<PlayerId>>

  /** The draft of a PUG being assembled, stored under "temp_pug:<id>". */
  datatype Draft = Draft(pugId: Option<Token>, team1: seq<Member>, team2: seq<Member>,
                         captains: Option<Captains>, userRequested: Option<UserRecord>)

  /** Both captain slots empty: `{ team1: null, team2: null }`. */
  const NoCaptains: Captains := map["team1" := None, "team2" := None]

  /** A row of the players table; `mu`, `sigma`, `username` and `mmr` may be NULL. */
  datatype PlayerRow = PlayerRow(username: Option<string>, mu: Option<real>, sigma: Option<real>,
                                 wins: int, losses: int, captainWins: int, captainLosses: int,
                                 mmr: Option<int>)

  /** A freshly inserted row: schema defaults for everything not given. */
  function NewRow(username: Option<string>, mmr: Option<int>): (r: PlayerRow)
    ensures r.wins == r.losses == r.captainWins == r.captainLosses == 0
    ensures r.mu == Some(DefaultMu) && r.sigma == Some(DefaultSigma)
    ensures r.username == username && r.mmr == mmr
  {
    PlayerRow(username, Some(DefaultMu), Some(DefaultSigma), 0, 0, 0, 0, mmr)
  }

  /** A row of the pugs table, keyed by token. */
  datatype PugRow = PugRow(matchNumber: int, captain1: Option<PlayerId>, captain2: Option<PlayerId>,
                           winner: Option<int>, verifiedBy: Option<PlayerId>, reverted: bool)

  /**
   * A row of mmr_history. The rating settlement writes mu/sigma before and after
   * with a pug token; the flat settlement writes mmr before/after and the change.
   */
  datatype HistoryRow =
    | RatingHistory(discordId: PlayerId, muBefore: real, muAfter: real,
                    sigmaBefore: real, sigmaAfter: real, pugToken: Option<Token>)
    | MmrHistory(playerId: PlayerId, matchNumber: int, oldMmr: Option<int>, newMmr: int, change: int)

  /** A row of pug_players (flat settlement only). */
  datatype PugPlayerRow = PugPlayerRow(matchNumber: int, playerId: PlayerId, teamNumber: int,
                                       isCaptain: bool, mmrBefore: Option<int>, mmrAfter: int)

  datatype Action = Created | Finished | Reverted

  /** A row of the commands audit table. */
  datatype CommandRow = CommandRow(discordId: PlayerId, username: string, pugToken: Token, action: Action)
}
