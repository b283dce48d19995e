/**
 * Creating a PUG from a confirmed draft (discord_bot/src/utils/create_pug_backend.ts).
 *
 * The live record goes to Redis first, then the pugs row and the command row
 * to Postgres. There is no transaction: a statement that throws leaves every
 * earlier write in place, and a pugs insert that ran keeps its serial value.
 */
module CreateBackend {
  import opened Wrappers
  import opened Records
  import opened StoreState
  import opened Validation
  import opened FinishBackend

  /** `team[0]`, which is `undefined` (dropped from the stored JSON) for an empty team. */
  function Head(team: seq<Member>): (h: Option<Member>)
    ensures h.None? <==> team == []
    ensures h.Some? ==> h.value in team && team == [h.value] + team[1..]
  {
    if |team| > 0 then Some(team[0]) else None
  }

  /** The Redis key of a live PUG. */
  function LiveKey(pugId: Token): string {
    "pug:" + pugId
  }

  /**
   * The live record: the token is the draft's id, the captains are the team
   * heads and the requesting user is kept as given.
   */
  function LiveRecord(pugId: Token, date: Timestamp, team1: seq<Member>, team2: seq<Member>,
                      userRequested: Option<UserRecord>): (r: LivePug)
    ensures r.token == pugId && r.date == date && r.team1 == team1 && r.team2 == team2
    ensures r.userCreated == userRequested
    ensures r.captain1.Some? <==> |team1| > 0
    ensures r.captain2.Some? <==> |team2| > 0
    ensures |team1| > 0 ==> r.captain1 == Some(team1[0])
    ensures |team2| > 0 ==> r.captain2 == Some(team2[0])
  {
    LivePug(pugId, date, team1, team2, Head(team1), Head(team2), userRequested)
  }

  /** The message a TypeError carries when `.id` is read from `undefined`. */
  const ReadIdError: string := "Cannot read properties of undefined (reading 'id')"
  /** The message Postgres gives for a second pugs row with the same token. */
  const DuplicateTokenError: string := "duplicate key value violates unique constraint \"pugs_token_key\""

  /** `error.message || "Database/Redis error"`. */
  function ErrorText(message: string): (t: string)
    ensures t != ""
    ensures message != "" ==> t == message
  {
    if message == "" then "Database/Redis error" else message
  }

  datatype CreateResult =
    | CreateOk(key: string, matchNumber: int)
    | CreateFailed(error: string)

  /**
   * create_pug_backend. The live record and its "pugs:by_date" entry are
   * written whatever happens next. An empty team throws while the insert's
   * parameters are built, so no SQL runs; an existing token makes the insert
   * fail after taking a serial value; a missing requesting user throws after
   * the pugs row is in, so no command row is written.
   */
  method CreatePug(s: Store, pugId: Token, date: Timestamp, team1: seq<Member>, team2: seq<Member>,
                   userRequested: Option<UserRecord>, now: Timestamp)
    returns (result: CreateResult)
    modifies s`live, s`pugsByDate, s`pugs, s`nextMatchNumber, s`commands
    ensures s.live == old(s.live)[pugId := LiveRecord(pugId, date, team1, team2, userRequested)]
    ensures s.pugsByDate == old(s.pugsByDate)[pugId := now]
    ensures result.CreateFailed? ==> result.error != ""
    ensures (|team1| == 0 || |team2| == 0) ==>
      && result == CreateFailed(ErrorText(ReadIdError))
      && s.pugs == old(s.pugs) && s.nextMatchNumber == old(s.nextMatchNumber) && s.commands == old(s.commands)
    ensures |team1| > 0 && |team2| > 0 && pugId in old(s.pugs) ==>
      && result == CreateFailed(ErrorText(DuplicateTokenError))
      && s.pugs == old(s.pugs) && s.nextMatchNumber == old(s.nextMatchNumber) + 1 && s.commands == old(s.commands)
    ensures |team1| > 0 && |team2| > 0 && pugId !in old(s.pugs) ==>
      && s.pugs == old(s.pugs)[pugId := PugRow(old(s.nextMatchNumber), Some(team1[0].id), Some(team2[0].id), None, None, false)]
      && s.nextMatchNumber == old(s.nextMatchNumber) + 1
      && (userRequested.None? ==> result == CreateFailed(ErrorText(ReadIdError)) && s.commands == old(s.commands))
      && (userRequested.Some? ==>
            && result == CreateOk(LiveKey(pugId), old(s.nextMatchNumber))
            && s.commands == old(s.commands) + [CommandRow(userRequested.value.id, userRequested.value.username, pugId, Created)])
    ensures result.CreateOk? ==>
      && result.key == LiveKey(pugId)
      && s.live[pugId].captain1.Some? && s.live[pugId].captain2.Some?
      && s.pugs[pugId].captain1 == Some(s.live[pugId].captain1.value.id)
      && s.pugs[pugId].captain2 == Some(s.live[pugId].captain2.value.id)
      && s.pugs[pugId].matchNumber == result.matchNumber
  {
    s.live := s.live[pugId := LiveRecord(pugId, date, team1, team2, userRequested)];
    s.pugsByDate := s.pugsByDate[pugId := now];

    if |team1| == 0 || |team2| == 0 {
      return CreateFailed(ErrorText(ReadIdError));
    }
    var matchNumber := s.nextMatchNumber;
    s.nextMatchNumber := s.nextMatchNumber + 1;
    if pugId in s.pugs {
      return CreateFailed(ErrorText(DuplicateTokenError));
    }
    s.pugs := s.pugs[pugId := PugRow(matchNumber, Some(team1[0].id), Some(team2[0].id), None, None, false)];

    if userRequested.None? {
      return CreateFailed(ErrorText(ReadIdError));
    }
    var user := userRequested.value;
    s.commands := s.commands + [CommandRow(user.id, user.username, pugId, Created)];
    result := CreateOk(LiveKey(pugId), matchNumber);
  }

  /**
   * Teams that pass validation give a live record that settlement and revert
   * accept: both teams non-empty, no player twice, each captain its team's head.
   */
  lemma ValidatedTeamsAreWellFormed(pugId: Token, date: Timestamp, team1: seq<Member>, team2: seq<Member>,
                                    userRequested: Option<UserRecord>)
    requires Validate(Ids(team1), Ids(team2)).None?
    ensures WellFormedRoster(LiveRecord(pugId, date, team1, team2, userRequested))
    ensures CaptainsPresent(LiveRecord(pugId, date, team1, team2, userRequested))
  {
  }

  /**
   * Conversely, any list that fails validation for duplicates gives a record
   * whose roster repeats a player.
   */
  lemma DuplicateTeamsAreNotWellFormed(pugId: Token, date: Timestamp, team1: seq<Member>, team2: seq<Member>,
                                       userRequested: Option<UserRecord>)
    requires Validate(Ids(team1), Ids(team2)) == Some(Duplicate)
    ensures !WellFormedRoster(LiveRecord(pugId, date, team1, team2, userRequested))
  {
  }
}
