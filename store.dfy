/**
 * The bot's shared state: the Redis key spaces and the Postgres tables its
 * handlers read and write. Every handler is one atomic step over this object.
 */
module StoreState {
  import opened Records

  class Store {
    // Redis
    /** "temp_pug:<id>": drafts being assembled. */
    var drafts: map<Token, Draft>
    /** "pug:<token>": created, not yet finished PUGs. */
    var live: map<Token, LivePug>
    /** Sorted set "pugs:by_date": token to creation time. */
    var pugsByDate: map<Token, Timestamp>
    /** "finished_pugs:<token>": finished PUGs that can still be reverted. */
    var finished: map<Token, FinishedPug>
    /** Sorted set "finished_pugs:by_match": token to match number. */
    var finishedByMatch: map<Token, int>

    // Postgres
    /** players, keyed by discord_id. */
    var players: map<PlayerId, PlayerRow>
    /** pugs, keyed by token. */
    var pugs: map<Token, PugRow>
    /** The next value of the pugs.pug_id serial. */
    var nextMatchNumber: int
    var pugPlayers: seq<PugPlayerRow>
    var history: seq<HistoryRow>
    var commands: seq<CommandRow>

    /** Empty stores and tables. */
    constructor ()
      ensures drafts == map[] && live == map[] && pugsByDate == map[]
      ensures finished == map[] && finishedByMatch == map[]
      ensures players == map[] && pugs == map[] && nextMatchNumber == 1
      ensures pugPlayers == [] && history == [] && commands == []
    {
      drafts, live, pugsByDate := map[], map[], map[];
      finished, finishedByMatch := map[], map[];
      players, pugs, nextMatchNumber := map[], map[], 1;
      pugPlayers, history, commands := [], [], [];
    }
  }
}
