/**
 * Reverting a finished PUG (discord_bot/src/interacctions/revert_pug_select.ts).
 *
 * The selected option carries the token and the match number. The handler logs
 * the command, then walks the finished record's snapshots: a snapshot of a
 * rostered player restores that player's mu/sigma and takes back the counters
 * the settlement credited. No transaction is open, so a TypeError thrown part
 * way (a missing captain) leaves the rows updated so far in place and skips the
 * history delete, the pug flag and the record removal.
 */
module RevertPug {
  import opened Wrappers
  import opened Tables
  import opened Records
  import opened StoreState

  /** A snapshot of a rostered player reaches the captain check; others are skipped first. */
  predicate Throws(pug: LivePug, snap: PlayerSnapshot) {
    TeamOf(pug, snap.id).Some? && CaptainCheckThrows(pug, snap.id)
  }

  /** A player is on the winning side when their team number equals the recorded winner. */
  predicate IsWinner(pug: LivePug, winner: int, id: PlayerId) {
    TeamOf(pug, id) == Some(winner)
  }

  /**
   * The UPDATE for one snapshot: skipped for an id on neither team; no row, no
   * change; otherwise mu/sigma become the snapshot's `current` and exactly one
   * of wins/losses drops by one, with the matching captain counter for a captain.
   */
  function RevertRow(pug: LivePug, winner: int, row: Option<PlayerRow>, snap: PlayerSnapshot): (r: Option<PlayerRow>)
    ensures r.Some? <==> row.Some?
    ensures TeamOf(pug, snap.id).None? ==> r == row
    ensures TeamOf(pug, snap.id).Some? && row.Some? ==>
      var old_, new_ := row.value, r.value;
      && new_.mu == Some(snap.current.mu) && new_.sigma == Some(snap.current.sigma)
      && new_.wins == old_.wins - (if IsWinner(pug, winner, snap.id) then 1 else 0)
      && new_.losses == old_.losses - (if IsWinner(pug, winner, snap.id) then 0 else 1)
      && new_.captainWins == old_.captainWins - (if IsCaptain(pug, snap.id) && IsWinner(pug, winner, snap.id) then 1 else 0)
      && new_.captainLosses == old_.captainLosses - (if IsCaptain(pug, snap.id) && !IsWinner(pug, winner, snap.id) then 1 else 0)
      && new_.username == old_.username && new_.mmr == old_.mmr
  {
    if TeamOf(pug, snap.id).None? || row.None? then row
    else
      var w := IsWinner(pug, winner, snap.id);
      var c := IsCaptain(pug, snap.id);
      var r := row.value;
      Some(r.(mu := Some(snap.current.mu), sigma := Some(snap.current.sigma),
              wins := r.wins - (if w then 1 else 0),
              losses := r.losses - (if w then 0 else 1),
              captainWins := r.captainWins - (if c && w then 1 else 0),
              captainLosses := r.captainLosses - (if c && !w then 1 else 0)))
  }

  function RevertUpdate(pug: LivePug, winner: int): (f: (Option<PlayerRow>, PlayerSnapshot) -> Option<PlayerRow>)
    ensures forall row, snap :: f(row, snap) == RevertRow(pug, winner, row, snap)
  {
    (row, snap) => RevertRow(pug, winner, row, snap)
  }

  /** How many snapshots are applied before the first throw (all of them when none throws). */
  function FirstThrow(pug: LivePug, snaps: seq<PlayerSnapshot>): (k: nat)
    ensures k <= |snaps|
    ensures forall i :: 0 <= i < k ==> !Throws(pug, snaps[i])
    ensures k < |snaps| ==> Throws(pug, snaps[k])
  {
    if |snaps| == 0 then 0
    else if Throws(pug, snaps[0]) then 0
    else 1 + FirstThrow(pug, snaps[1..])
  }

  /** Rows the DELETE matches: rating history written with this pug token. */
  predicate Tagged(row: HistoryRow, token: Token) {
    row.RatingHistory? && row.pugToken == Some(token)
  }

  /** `DELETE FROM mmr_history WHERE pug_token = token`, keeping the order of the rest. */
  function DropToken(h: seq<HistoryRow>, token: Token): (r: seq<HistoryRow>)
    ensures |r| <= |h|
    ensures forall x :: x in r <==> x in h && !Tagged(x, token)
    ensures (forall i :: 0 <= i < |h| ==> !Tagged(h[i], token)) ==> r == h
    ensures (forall i :: 0 <= i < |h| ==> Tagged(h[i], token)) ==> r == []
  {
    if |h| == 0 then []
    else if Tagged(h[0], token) then DropToken(h[1..], token)
    else [h[0]] + DropToken(h[1..], token)
  }

  /** The DELETE works row by row: dropping from a concatenation drops from each part. */
  lemma {:induction false} DropTokenAppend(a: seq<HistoryRow>, b: seq<HistoryRow>, token: Token)
    ensures DropToken(a + b, token) == DropToken(a, token) + DropToken(b, token)
  {
    if |a| == 0 {
      assert a + b == b;
    } else {
      assert (a + b)[1..] == a[1..] + b;
      DropTokenAppend(a[1..], b, token);
    }
  }

  /** `UPDATE pugs SET reverted = TRUE WHERE token`: no row, no change. */
  function MarkReverted(pugs: map<Token, PugRow>, token: Token): (r: map<Token, PugRow>)
    ensures r.Keys == pugs.Keys
    ensures token in pugs ==> r[token] == pugs[token].(reverted := true)
    ensures forall k :: k in pugs && k != token ==> r[k] == pugs[k]
  {
    if token in pugs then pugs[token := pugs[token].(reverted := true)] else pugs
  }

  /** The only count of snapshots with no throw before it and a throw, or the end, at it. */
  lemma FirstThrowIs(pug: LivePug, snaps: seq<PlayerSnapshot>, k: nat)
    requires k <= |snaps|
    requires forall j :: 0 <= j < k ==> !Throws(pug, snaps[j])
    requires k < |snaps| ==> Throws(pug, snaps[k])
    ensures FirstThrow(pug, snaps) == k
  {
  }

  /**
   * The snapshot loop: each snapshot's UPDATE is applied in order until one
   * throws. Gives the table as the loop leaves it and how many were applied.
   */
  method RevertRows(players: map<PlayerId, PlayerRow>, pug: LivePug, winner: int, snaps: seq<PlayerSnapshot>)
    returns (table: map<PlayerId, PlayerRow>, k: nat)
    ensures k == FirstThrow(pug, snaps)
    ensures table == ApplyAll(players, snaps[..k], SnapshotId, RevertUpdate(pug, winner))
  {
    table := players;
    k := 0;
    while k < |snaps|
      invariant 0 <= k <= |snaps|
      invariant forall j :: 0 <= j < k ==> !Throws(pug, snaps[j])
      invariant table == ApplyAll(players, snaps[..k], SnapshotId, RevertUpdate(pug, winner))
    {
      if Throws(pug, snaps[k]) {
        FirstThrowIs(pug, snaps, k);
        return;
      }
      ApplyAllPrefix(players, snaps, k, SnapshotId, RevertUpdate(pug, winner));
      table := Put(table, snaps[k].id, RevertRow(pug, winner, Get(table, snaps[k].id), snaps[k]));
      k := k + 1;
    }
    FirstThrowIs(pug, snaps, k);
  }

  datatype RevertReply =
    | FinishedNotFound          // "Could not find that finished PUG in Redis."
    | RevertAnnounced(matchNumber: int)   // "Reverting PUG #<match>..."
    | RevertFailed              // "Unexpected error reverting PUG."

  /**
   * handleRevertPugSelect. Without a finished record nothing changes. Otherwise
   * the command is logged and the snapshots before the first throw are applied;
   * only when none throws are the history rows deleted, the pug flagged and the
   * finished record and its index entry removed.
   */
  method Revert(s: Store, token: Token, matchId: int, user: User) returns (reply: RevertReply)
    modifies s`commands, s`players, s`history, s`pugs, s`finished, s`finishedByMatch
    ensures token !in old(s.finished) ==>
      && reply == FinishedNotFound
      && s.commands == old(s.commands) && s.players == old(s.players) && s.history == old(s.history)
      && s.pugs == old(s.pugs) && s.finished == old(s.finished) && s.finishedByMatch == old(s.finishedByMatch)
    ensures token in old(s.finished) ==>
      var f := old(s.finished)[token];
      var k := FirstThrow(f.pug, f.snapshots);
      && s.commands == old(s.commands) + [CommandRow(user.id, user.username, token, Reverted)]
      && s.players == ApplyAll(old(s.players), f.snapshots[..k], SnapshotId, RevertUpdate(f.pug, f.winner))
      && (k == |f.snapshots| ==>
            && reply == RevertAnnounced(matchId)
            && s.history == DropToken(old(s.history), token)
            && s.pugs == MarkReverted(old(s.pugs), token)
            && s.finished == old(s.finished) - {token}
            && s.finishedByMatch == old(s.finishedByMatch) - {token})
      && (k < |f.snapshots| ==>
            && reply == RevertFailed
            && s.history == old(s.history) && s.pugs == old(s.pugs)
            && s.finished == old(s.finished) && s.finishedByMatch == old(s.finishedByMatch))
  {
    if token !in s.finished {
      return FinishedNotFound;
    }
    var f := s.finished[token];
    s.commands := s.commands + [CommandRow(user.id, user.username, token, Reverted)];
    var table, k := RevertRows(s.players, f.pug, f.winner, f.snapshots);
    s.players := table;
    if k < |f.snapshots| {
      return RevertFailed;
    }
    s.history := DropToken(s.history, token);
    s.pugs := MarkReverted(s.pugs, token);
    s.finished := s.finished - {token};
    s.finishedByMatch := s.finishedByMatch - {token};
    reply := RevertAnnounced(matchId);
  }

  /** After a completed revert the record is gone, so reverting the same token again finds nothing. */
  method RevertTwice(s: Store, token: Token, matchId: int, user: User) returns (first: RevertReply, second: RevertReply)
    modifies s`commands, s`players, s`history, s`pugs, s`finished, s`finishedByMatch
    ensures first.RevertAnnounced? ==> second == FinishedNotFound
  {
    first := Revert(s, token, matchId, user);
    second := Revert(s, token, matchId, user);
  }
}
