/**
 * Settlement followed by revert (finish_pug_backend.ts, then
 * revert_pug_select.ts on the record it stored).
 *
 * For a roster create_pug_backend builds from a validated draft and one
 * snapshot per rostered player, the revert takes back exactly the counters the
 * settlement credited and sets mu/sigma to the snapshots' `current` values.
 */
module SettleRevert {
  import opened Wrappers
  import opened Tables
  import opened Records
  import opened StoreState
  import opened FinishBackend
  import opened RevertPug

  /** One snapshot per rostered player, and none for anybody else. */
  predicate SnapshotsCoverRoster(pug: LivePug, snaps: seq<PlayerSnapshot>) {
    && Distinct(SnapshotIds(snaps))
    && (forall x :: x in SnapshotIds(snaps) ==> x in Ids(pug.team1) || x in Ids(pug.team2))
    && (forall x :: x in Ids(pug.team1) + Ids(pug.team2) ==> x in SnapshotIds(snaps))
  }

  /** Every stored rating already equals the snapshot taken of it. */
  predicate SnapshotsMatchTable(t: map<PlayerId, PlayerRow>, snaps: seq<PlayerSnapshot>) {
    forall j :: 0 <= j < |snaps| ==>
      snaps[j].id in t && t[snaps[j].id].mu == Some(snaps[j].current.mu)
      && t[snaps[j].id].sigma == Some(snaps[j].current.sigma)
  }

  /** The table after settlement and a complete revert. */
  function SettledThenReverted(t: map<PlayerId, PlayerRow>, pug: LivePug, winner: int, snaps: seq<PlayerSnapshot>): map<PlayerId, PlayerRow>
    requires CaptainsPresent(pug)
  {
    ApplyAll(SettledPlayers(t, pug, winner), snaps, SnapshotId, RevertUpdate(pug, winner))
  }

  /** A well-formed roster has both captains, so the revert loop never throws. */
  lemma NoThrowOnWellFormed(pug: LivePug, snaps: seq<PlayerSnapshot>)
    requires WellFormedRoster(pug)
    ensures FirstThrow(pug, snaps) == |snaps|
  {
  }

  /** In a distinct snapshot list, a snapshot's id names no other snapshot. */
  lemma OnlySnapshot(snaps: seq<PlayerSnapshot>, j: nat)
    requires Distinct(SnapshotIds(snaps)) && j < |snaps|
    ensures forall i :: 0 <= i < |snaps| && i != j ==> SnapshotId(snaps[i]) != SnapshotId(snaps[j])
  {
    forall i | 0 <= i < |snaps| && i != j
      ensures SnapshotId(snaps[i]) != SnapshotId(snaps[j])
    {
      if i < j {
        assert SnapshotIds(snaps)[i] != SnapshotIds(snaps)[j];
      } else {
        assert SnapshotIds(snaps)[j] != SnapshotIds(snaps)[i];
      }
    }
  }

  /** Revert's winner test and captain test agree with the sides and captains settlement used. */
  lemma RevertSeesSettlementRoles(pug: LivePug, winner: int, id: PlayerId)
    requires WellFormedRoster(pug) && (winner == 1 || winner == 2)
    requires id in Ids(pug.team1) || id in Ids(pug.team2)
    ensures IsWinner(pug, winner, id) <==> id in Ids(Winners(pug, winner))
    ensures !IsWinner(pug, winner, id) <==> id in Ids(Losers(pug, winner))
    ensures IsCaptain(pug, id) && IsWinner(pug, winner, id) <==> id == WinningCaptain(pug, winner)
    ensures IsCaptain(pug, id) && !IsWinner(pug, winner, id) <==> id == LosingCaptain(pug, winner)
  {
    SidesOfRoster(pug, winner);
    CaptainsAreHeads(pug, winner);
    assert Ids(pug.team1)[0] == pug.captain1.value.id;
    assert Ids(pug.team2)[0] == pug.captain2.value.id;
  }

  /** For one rostered player, reverting the settled row gives back the row settlement started from, with the snapshot's rating. */
  lemma RevertUndoesSettleRow(t: map<PlayerId, PlayerRow>, pug: LivePug, winner: int, snap: PlayerSnapshot)
    requires WellFormedRoster(pug) && (winner == 1 || winner == 2)
    requires snap.id in Ids(pug.team1) || snap.id in Ids(pug.team2)
    ensures RevertRow(pug, winner, Get(SettledPlayers(t, pug, winner), snap.id), snap) ==
      Some(Base(t, snap.id).(mu := Some(snap.current.mu), sigma := Some(snap.current.sigma)))
  {
    var b := Base(t, snap.id);
    SettledAt(t, pug, winner, snap.id);
    RevertSeesSettlementRoles(pug, winner, snap.id);
    SidesOfRoster(pug, winner);
    if snap.id in Ids(Winners(pug, winner)) {
      RevertUndoesWin(pug, winner, b, snap, if snap.id == WinningCaptain(pug, winner) then 1 else 0);
    } else {
      RevertUndoesLoss(pug, winner, b, snap, if snap.id == LosingCaptain(pug, winner) then 1 else 0);
    }
  }

  /** Reverting a winner's row takes back the win and, for a captain, the captain win. */
  lemma RevertUndoesWin(pug: LivePug, winner: int, b: PlayerRow, snap: PlayerSnapshot, c: int)
    requires TeamOf(pug, snap.id).Some? && IsWinner(pug, winner, snap.id)
    requires c == if IsCaptain(pug, snap.id) then 1 else 0
    ensures RevertRow(pug, winner, Some(b.(wins := b.wins + 1, captainWins := b.captainWins + c)), snap) ==
      Some(b.(mu := Some(snap.current.mu), sigma := Some(snap.current.sigma)))
  {
  }

  /** Reverting a loser's row takes back the loss and, for a captain, the captain loss. */
  lemma RevertUndoesLoss(pug: LivePug, winner: int, b: PlayerRow, snap: PlayerSnapshot, c: int)
    requires TeamOf(pug, snap.id).Some? && !IsWinner(pug, winner, snap.id)
    requires c == if IsCaptain(pug, snap.id) then 1 else 0
    ensures RevertRow(pug, winner, Some(b.(losses := b.losses + 1, captainLosses := b.captainLosses + c)), snap) ==
      Some(b.(mu := Some(snap.current.mu), sigma := Some(snap.current.sigma)))
  {
  }

  /**
   * The counter round trip: after settlement and a complete revert every
   * rostered player's row is the row before settlement (the defaults for a
   * player settlement created) with mu/sigma set to the snapshot, and every
   * other row is untouched.
   */
  lemma FinishThenRevertRestores(t: map<PlayerId, PlayerRow>, pug: LivePug, winner: int, snaps: seq<PlayerSnapshot>)
    requires WellFormedRoster(pug) && (winner == 1 || winner == 2)
    requires SnapshotsCoverRoster(pug, snaps)
    ensures forall j :: 0 <= j < |snaps| ==>
      Get(SettledThenReverted(t, pug, winner, snaps), snaps[j].id) ==
        Some(Base(t, snaps[j].id).(mu := Some(snaps[j].current.mu), sigma := Some(snaps[j].current.sigma)))
    ensures forall id :: id !in Ids(pug.team1) && id !in Ids(pug.team2) ==>
      Get(SettledThenReverted(t, pug, winner, snaps), id) == Get(t, id)
  {
    var settled := SettledPlayers(t, pug, winner);
    var upd := RevertUpdate(pug, winner);
    forall j | 0 <= j < |snaps|
      ensures Get(SettledThenReverted(t, pug, winner, snaps), snaps[j].id) ==
        Some(Base(t, snaps[j].id).(mu := Some(snaps[j].current.mu), sigma := Some(snaps[j].current.sigma)))
    {
      assert SnapshotIds(snaps)[j] == snaps[j].id;
      OnlySnapshot(snaps, j);
      ApplyAllOnce(settled, snaps, SnapshotId, upd, snaps[j].id, j);
      RevertUndoesSettleRow(t, pug, winner, snaps[j]);
    }
    forall id | id !in Ids(pug.team1) && id !in Ids(pug.team2)
      ensures Get(SettledThenReverted(t, pug, winner, snaps), id) == Get(t, id)
    {
      forall i | 0 <= i < |snaps| ensures SnapshotId(snaps[i]) != id {
        assert SnapshotIds(snaps)[i] == snaps[i].id;
      }
      ApplyAllElsewhere(settled, snaps, SnapshotId, upd, id);
      SettledAt(t, pug, winner, id);
    }
  }

  /**
   * When every rostered player already had a row whose rating equals the
   * snapshot, settlement followed by a complete revert leaves the players
   * table exactly as it was.
   */
  lemma FinishThenRevertIsIdentity(t: map<PlayerId, PlayerRow>, pug: LivePug, winner: int, snaps: seq<PlayerSnapshot>)
    requires WellFormedRoster(pug) && (winner == 1 || winner == 2)
    requires SnapshotsCoverRoster(pug, snaps) && SnapshotsMatchTable(t, snaps)
    ensures SettledThenReverted(t, pug, winner, snaps) == t
  {
    var r := SettledThenReverted(t, pug, winner, snaps);
    FinishThenRevertRestores(t, pug, winner, snaps);
    forall id ensures Get(r, id) == Get(t, id) {
      if id in SnapshotIds(snaps) {
        var j :| 0 <= j < |snaps| && SnapshotIds(snaps)[j] == id;
        assert snaps[j].id == id;
        assert Base(t, id) == t[id];
      }
    }
    SameLookups(r, t);
  }

  /**
   * As written, settlement tags its history rows with `pug.pugId`, which the
   * live record never holds, so the revert's DELETE matches none of them: the
   * rows settlement added outlive the revert.
   */
  lemma HistorySurvivesRevertAsWritten(h: seq<HistoryRow>, snaps: seq<PlayerSnapshot>, winners: seq<Member>, token: Token)
    requires forall i :: 0 <= i < |h| ==> !Tagged(h[i], token)
    ensures DropToken(h + HistoryRows(snaps, winners, None), token) == h + HistoryRows(snaps, winners, None)
    ensures |snaps| > 0 ==> DropToken(h + HistoryRows(snaps, winners, None), token) != h
  {
    var rows := HistoryRows(snaps, winners, None);
    DropTokenAppend(h, rows, token);
    assert forall i :: 0 <= i < |rows| ==> !Tagged(rows[i], token);
  }

  /**
   * With the history rows tagged by the record's own token, the revert's
   * DELETE removes exactly the rows settlement added.
   */
  lemma HistoryRestoredWithToken(h: seq<HistoryRow>, snaps: seq<PlayerSnapshot>, winners: seq<Member>, token: Token)
    requires forall i :: 0 <= i < |h| ==> !Tagged(h[i], token)
    ensures DropToken(h + HistoryRows(snaps, winners, Some(token)), token) == h
  {
    var rows := HistoryRows(snaps, winners, Some(token));
    DropTokenAppend(h, rows, token);
    assert forall i :: 0 <= i < |rows| ==> Tagged(rows[i], token);
    assert h + [] == h;
  }

  /**
   * What the revert meets after a finish of a well-formed PUG: no snapshot
   * throws, and undoing every snapshot restores the table.
   */
  lemma RevertAfterFinish(t: map<PlayerId, PlayerRow>, pug: LivePug, winner: int, snaps: seq<PlayerSnapshot>)
    requires WellFormedRoster(pug) && (winner == 1 || winner == 2)
    requires SnapshotsCoverRoster(pug, snaps) && SnapshotsMatchTable(t, snaps)
    ensures FirstThrow(pug, snaps) == |snaps|
    ensures ApplyAll(SettledPlayers(t, pug, winner), snaps[..|snaps|], SnapshotId, RevertUpdate(pug, winner)) == t
  {
    NoThrowOnWellFormed(pug, snaps);
    assert snaps[..|snaps|] == snaps;
    FinishThenRevertIsIdentity(t, pug, winner, snaps);
  }

  /** The revert's DELETE after the finish's history INSERTs: rows tagged with the token go, untagged rows stay. */
  lemma HistoryAfterRevert(h: seq<HistoryRow>, snaps: seq<PlayerSnapshot>, winners: seq<Member>,
                           recordPugId: Option<Token>, token: Token)
    requires forall i :: 0 <= i < |h| ==> !Tagged(h[i], token)
    ensures recordPugId == Some(token) ==> DropToken(h + HistoryRows(snaps, winners, recordPugId), token) == h
    ensures recordPugId.None? ==>
      DropToken(h + HistoryRows(snaps, winners, recordPugId), token) == h + HistoryRows(snaps, winners, None)
  {
    if recordPugId == Some(token) {
      HistoryRestoredWithToken(h, snaps, winners, token);
    } else if recordPugId.None? {
      HistorySurvivesRevertAsWritten(h, snaps, winners, token);
    }
  }

  /**
   * The two handlers in sequence on the store: finish a live PUG, then revert
   * it. The players table comes back unchanged; the history comes back
   * unchanged only when the rows were tagged with the record's token.
   */
  method FinishThenRevert(s: Store, token: Token, winner: int, user: User, date: Timestamp,
                          snapshots: seq<PlayerSnapshot>, recordPugId: Option<Token>, matchId: int)
    returns (finish: FinishOutcome, revert: RevertReply)
    requires token in s.live && WellFormedRoster(s.live[token]) && (winner == 1 || winner == 2)
    requires SnapshotsCoverRoster(s.live[token], snapshots) && SnapshotsMatchTable(s.players, snapshots)
    requires forall i :: 0 <= i < |s.history| ==> !Tagged(s.history[i], token)
    modifies s`live, s`finished, s`finishedByMatch, s`commands, s`pugs, s`players, s`history
    ensures finish.FinishOk? && revert == RevertAnnounced(matchId)
    ensures s.players == old(s.players)
    ensures recordPugId == Some(token) ==> s.history == old(s.history)
    ensures recordPugId.None? ==>
      s.history == old(s.history) + HistoryRows(snapshots, Winners(old(s.live)[token], winner), None)
    ensures s.live == old(s.live) - {token}
    ensures s.finished == old(s.finished) - {token} && s.finishedByMatch == old(s.finishedByMatch) - {token}
  {
    var pug := s.live[token];
    RevertAfterFinish(s.players, pug, winner, snapshots);
    HistoryAfterRevert(s.history, snapshots, Winners(pug, winner), recordPugId, token);
    DeleteAfterStore(s.finished, token, FinishedPug(pug, snapshots, winner, date, RecordOf(user)));
    DeleteAfterStore(s.finishedByMatch, token, matchId);
    finish := Finish(s, token, winner, user, date, snapshots, recordPugId, matchId);
    revert := Revert(s, token, matchId, user);
  }
}
