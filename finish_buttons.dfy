/**
 * The two handlers behind the winner buttons that /finish_pug offers:
 * discord_bot/src/interacctions/finish_pug_buttons.ts, which runs
 * finish_pug_backend, and discord_bot/src/interacctions/finish_pug_button_handler.ts,
 * which runs the flat settlement update_mmr_after_finish.
 */
module FinishButtons {
  import opened Wrappers
  import opened Records
  import opened StoreState
  import opened CustomIds
  import opened FinishBackend
  import opened FlatSettlement

  /** The interacting user as both handlers pass it on: only the id and the username. */
  function Invoker(id: PlayerId, username: string): (u: User)
    ensures u.id == id && u.username == username
    ensures RecordOf(u) == UserRecord(id, username, "", None)
  {
    User(id, username, None, None)
  }

  datatype FinishReply =
    | FinishButtonCrashed          // "Failed to finish pug." from the catch block
    | FinishFailedReply            // "Failed to finish PUG. Check logs."
    | PugMarkedFinished(pugId: string)  // "PUG <id> marked as finished!"

  /**
   * handleFinishPugButton. An id without a third '_' field throws before the
   * backend runs and nothing changes. Otherwise the backend finishes the
   * decoded pug with the decoded winner, and the reply is the success message
   * exactly when the backend reports success.
   */
  method FinishPugButton(s: Store, customId: string, userId: PlayerId, username: string, date: Timestamp,
                         snapshots: seq<PlayerSnapshot>, recordPugId: Option<Token>, matchId: int)
    returns (reply: FinishReply)
    modifies s`live, s`finished, s`finishedByMatch, s`commands, s`pugs, s`players, s`history
    ensures DecodeFinishButton(customId).None? ==>
      && reply == FinishButtonCrashed
      && s.live == old(s.live) && s.finished == old(s.finished) && s.finishedByMatch == old(s.finishedByMatch)
      && s.commands == old(s.commands) && s.pugs == old(s.pugs)
      && s.players == old(s.players) && s.history == old(s.history)
    ensures DecodeFinishButton(customId).Some? ==>
      var c := DecodeFinishButton(customId).value;
      && (reply == PugMarkedFinished(c.pugId) <==> c.pugId in old(s.live) && CaptainsPresent(old(s.live)[c.pugId]))
      && (reply != PugMarkedFinished(c.pugId) ==> reply == FinishFailedReply)
      && (c.pugId !in old(s.live) ==>
            && s.live == old(s.live) && s.finished == old(s.finished) && s.finishedByMatch == old(s.finishedByMatch)
            && s.commands == old(s.commands) && s.pugs == old(s.pugs)
            && s.players == old(s.players) && s.history == old(s.history))
      && (c.pugId in old(s.live) ==>
            var pug := old(s.live)[c.pugId];
            && s.live == old(s.live) - {c.pugId}
            && s.finished == old(s.finished)[c.pugId := FinishedPug(pug, snapshots, c.winner, date, RecordOf(Invoker(userId, username)))]
            && s.finishedByMatch == old(s.finishedByMatch)[c.pugId := matchId]
            && s.commands == old(s.commands) + [CommandRow(userId, username, c.pugId, Finished)]
            && s.pugs == MarkVerified(old(s.pugs), c.pugId, c.winner, userId)
            && (CaptainsPresent(pug) ==>
                  && s.players == SettledPlayers(old(s.players), pug, c.winner)
                  && s.history == old(s.history) + HistoryRows(snapshots, Winners(pug, c.winner), recordPugId))
            && (!CaptainsPresent(pug) ==>
                  s.players == CreditResults(old(s.players), pug, c.winner) && s.history == old(s.history)))
  {
    var choice := DecodeFinishButton(customId);
    if choice.None? {
      return FinishButtonCrashed;
    }
    var c := choice.value;
    var outcome := Finish(s, c.pugId, c.winner, Invoker(userId, username), date, snapshots, recordPugId, matchId);
    if outcome.FinishFailed? {
      return FinishFailedReply;
    }
    reply := PugMarkedFinished(c.pugId);
  }

  datatype FlatReply =
    | FlatIgnored                               // not a button, or not a "finish" id
    | FlatFinished(pugId: string, winner: int)  // "PUG <id> marked as finished! Winner: Team <n>."
    | FlatFailedReply(failure: FlatFailure)     // "Failed to finish PUG: <error>"

  /**
   * The reply and the new state after the flat settlement ran on the choice
   * `c` for the verifier: the three outcomes of update_mmr_after_finish
   * (no live record, rolled back, committed) and what each leaves behind.
   */
  twostate predicate FlatSettled(s: Store, c: FlatChoice, verifier: User, reply: FlatReply)
    reads s
  {
    && (c.pugId !in old(s.live) ==>
          && reply == FlatFailedReply(NotInRedis)
          && s.players == old(s.players) && s.pugs == old(s.pugs) && s.nextMatchNumber == old(s.nextMatchNumber)
          && s.pugPlayers == old(s.pugPlayers) && s.history == old(s.history) && s.live == old(s.live))
    && (c.pugId in old(s.live) && !FlatSucceeds(old(s.players), old(s.pugs), c.pugId, old(s.live)[c.pugId], c.winner, verifier) ==>
          && reply == FlatFailedReply(RolledBack)
          && s.players == old(s.players) && s.pugs == old(s.pugs)
          && s.pugPlayers == old(s.pugPlayers) && s.history == old(s.history) && s.live == old(s.live)
          && s.nextMatchNumber ==
               old(s.nextMatchNumber) + if SerialUsed(old(s.players), old(s.pugs), c.pugId, old(s.live)[c.pugId], verifier) then 1 else 0)
    && (c.pugId in old(s.live) && FlatSucceeds(old(s.players), old(s.pugs), c.pugId, old(s.live)[c.pugId], c.winner, verifier) ==>
          var pug := old(s.live)[c.pugId];
          var mn := MatchNumberFor(old(s.pugs), c.pugId, old(s.nextMatchNumber));
          var r := FlatResult(FlatState(PreparedPlayers(old(s.players), pug, verifier), old(s.pugPlayers), old(s.history)),
                              pug, mn, c.winner.value);
          && reply == FlatFinished(c.pugId, c.winner.value)
          && s.players == r.players && s.pugPlayers == r.pugPlayers && s.history == r.history
          && s.pugs == MarkVerified(WithPugRow(old(s.pugs), c.pugId, pug, old(s.nextMatchNumber)), c.pugId, c.winner.value, verifier.id)
          && s.nextMatchNumber == old(s.nextMatchNumber) + (if c.pugId in old(s.pugs) then 0 else 1)
          && s.live == old(s.live) - {c.pugId})
  }

  /** The flat settlement on a decoded choice, its outcome turned into the reply. */
  method SettleChoice(s: Store, c: FlatChoice, userId: PlayerId, username: string) returns (reply: FlatReply)
    modifies s`players, s`pugs, s`nextMatchNumber, s`pugPlayers, s`history, s`live
    ensures FlatSettled(s, c, Invoker(userId, username), reply)
  {
    var outcome := FlatSettle(s, c.pugId, c.winner, Invoker(userId, username));
    if outcome.FlatFailed? {
      return FlatFailedReply(outcome.failure);
    }
    reply := FlatFinished(c.pugId, c.winner.value);
  }

  /**
   * finish_pug_button as written. Anything but a "finish" button is ignored
   * with no change; otherwise the flat settlement runs on field 2 as the pug
   * id and `parseInt` of field 3 as the winner. The ids finish_pug_select
   * writes put the team name in field 2, so with no live PUG keyed "team1" or
   * "team2" a real winner button settles nothing and fails as not found.
   */
  method FlatFinishButton(s: Store, isButton: bool, customId: string, userId: PlayerId, username: string)
    returns (reply: FlatReply)
    modifies s`players, s`pugs, s`nextMatchNumber, s`pugPlayers, s`history, s`live
    ensures reply == FlatIgnored <==> !isButton || DecodeFlatButtonAsWritten(customId).None?
    ensures reply == FlatIgnored ==>
      && s.players == old(s.players) && s.pugs == old(s.pugs) && s.nextMatchNumber == old(s.nextMatchNumber)
      && s.pugPlayers == old(s.pugPlayers) && s.history == old(s.history) && s.live == old(s.live)
    ensures reply != FlatIgnored ==>
      FlatSettled(s, DecodeFlatButtonAsWritten(customId).value, Invoker(userId, username), reply)
    ensures isButton && IsWinnerButton(customId) && "team1" !in old(s.live) && "team2" !in old(s.live) ==>
      && reply == FlatFailedReply(NotInRedis)
      && s.players == old(s.players) && s.pugs == old(s.pugs) && s.nextMatchNumber == old(s.nextMatchNumber)
      && s.pugPlayers == old(s.pugPlayers) && s.history == old(s.history) && s.live == old(s.live)
  {
    if !isButton {
      return FlatIgnored;
    }
    if IsWinnerButton(customId) {
      WinnerButtonReadAsTeam(customId);
    }
    var choice := DecodeFlatButtonAsWritten(customId);
    if choice.None? {
      return FlatIgnored;
    }
    reply := SettleChoice(s, choice.value, userId, username);
  }

  /**
   * finish_pug_button with the fields read in the order the button ids are
   * written (prefix, team, pug id): the same handler, settling the PUG the
   * button was built for.
   */
  method FlatFinishButtonCorrected(s: Store, isButton: bool, customId: string, userId: PlayerId, username: string)
    returns (reply: FlatReply)
    modifies s`players, s`pugs, s`nextMatchNumber, s`pugPlayers, s`history, s`live
    ensures reply == FlatIgnored <==> !isButton || DecodeFlatButton(customId).None?
    ensures reply == FlatIgnored ==>
      && s.players == old(s.players) && s.pugs == old(s.pugs) && s.nextMatchNumber == old(s.nextMatchNumber)
      && s.pugPlayers == old(s.pugPlayers) && s.history == old(s.history) && s.live == old(s.live)
    ensures reply != FlatIgnored ==>
      FlatSettled(s, DecodeFlatButton(customId).value, Invoker(userId, username), reply)
  {
    if !isButton {
      return FlatIgnored;
    }
    var choice := DecodeFlatButton(customId);
    if choice.None? {
      return FlatIgnored;
    }
    reply := SettleChoice(s, choice.value, userId, username);
  }
}
