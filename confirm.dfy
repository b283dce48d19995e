/**
 * Confirming the captains of a draft
 * (discord_bot/src/interacctions/create_pug_confirm_button.ts): copy both
 * member lists, move each chosen captain to the head of its copy by swapping
 * it with the first member, and create the PUG from the copies.
 */
module ConfirmCaptains {
  import opened Wrappers
  import opened Tables
  import opened Records
  import opened StoreState
  import opened CustomIds
  import opened Validation
  import opened FinishBackend
  import opened CreateBackend

  /**
   * The team after the swap: when the captain is found at an index k > 0, the
   * members at 0 and k trade places; at index 0 or not found (-1), nothing moves.
   */
  function CaptainFirst(team: seq<Member>, captain: PlayerId): (r: seq<Member>)
    ensures |r| == |team| && multiset(r) == multiset(team)
    ensures captain in Ids(team) ==> r[0].id == captain
    ensures captain !in Ids(team) ==> r == team
    ensures forall i :: 0 < i < |team| && i != IndexOf(Ids(team), captain) ==> r[i] == team[i]
    ensures captain in Ids(team) ==> r[IndexOf(Ids(team), captain)] == team[0]
  {
    var k := IndexOf(Ids(team), captain);
    if k > 0 then team[0 := team[k]][k := team[0]] else team
  }

  /** The `[a[0], a[k]] = [a[k], a[0]]` swap on the copied array. */
  method MoveCaptainToHead(a: array<Member>, captain: PlayerId)
    modifies a
    ensures a[..] == CaptainFirst(old(a[..]), captain)
  {
    var k := IndexOf(Ids(a[..]), captain);
    if k > 0 {
      a[0], a[k] := a[k], a[0];
    }
  }

  /** `[...team]` followed by the swap: a fresh copy with the captain moved to its head. */
  method SwappedCopy(team: seq<Member>, captain: PlayerId) returns (r: seq<Member>)
    ensures r == CaptainFirst(team, captain)
  {
    var a := new Member[|team|](i requires 0 <= i < |team| => team[i]);
    assert a[..] == team;
    MoveCaptainToHead(a, captain);
    r := a[..];
  }

  /** Swapping two members keeps the multiset of ids. */
  lemma CaptainFirstIds(team: seq<Member>, captain: PlayerId)
    ensures multiset(Ids(CaptainFirst(team, captain))) == multiset(Ids(team))
  {
    var k := IndexOf(Ids(team), captain);
    if k > 0 {
      var ids := Ids(team);
      assert Ids(CaptainFirst(team, captain)) == ids[0 := ids[k]][k := ids[0]];
    }
  }

  /** Moving the captains forward changes no validation outcome. */
  lemma SwapKeepsValidation(team1: seq<Member>, team2: seq<Member>, c1: PlayerId, c2: PlayerId)
    ensures Validate(Ids(CaptainFirst(team1, c1)), Ids(CaptainFirst(team2, c2))) == Validate(Ids(team1), Ids(team2))
  {
    CaptainFirstIds(team1, c1);
    CaptainFirstIds(team2, c2);
    ValidateIgnoresOrder(Ids(CaptainFirst(team1, c1)), Ids(CaptainFirst(team2, c2)), Ids(team1), Ids(team2));
  }

  /**
   * A validated draft whose chosen captains are team members gives a live
   * record that settlement and revert accept, with the chosen captains as its
   * captains.
   */
  lemma ConfirmedRosterWellFormed(token: Token, date: Timestamp, team1: seq<Member>, team2: seq<Member>,
                                  c1: PlayerId, c2: PlayerId, user: Option<UserRecord>)
    requires Validate(Ids(team1), Ids(team2)).None?
    requires c1 in Ids(team1) && c2 in Ids(team2)
    ensures var pug := LiveRecord(token, date, CaptainFirst(team1, c1), CaptainFirst(team2, c2), user);
      && WellFormedRoster(pug)
      && pug.captain1.value.id == c1 && pug.captain2.value.id == c2
  {
    SwapKeepsValidation(team1, team2, c1, c2);
    ValidatedTeamsAreWellFormed(token, date, CaptainFirst(team1, c1), CaptainFirst(team2, c2), user);
  }

  /** `tempPug.captains[team]` when truthy: present, not null and not "". */
  function CaptainChoice(captains: Captains, team: string): (c: Option<PlayerId>)
    ensures c.Some? <==> Get(captains, team).Some? && Get(captains, team).value.Some? && Get(captains, team).value.value != ""
    ensures c.Some? ==> Get(captains, team) == Some(c)
  {
    var v := Get(captains, team);
    if v.Some? && v.value.Some? && v.value.value != "" then v.value else None
  }

  datatype ConfirmReply =
    | PugNotInRedis             // "Could not find PUG in Redis."
    | CaptainsMissing           // "Both captains must be selected."
    | CreateFailedReply(error: string)  // "Failed to create PUG: <error>"
    | PugCreated(token: Token)  // "PUG created! ... Token: <token>"
    | ConfirmCrashed                   // `captains.team1` read on a draft without captains

  /**
   * handleConfirmCaptains. Nothing changes without the draft, when the draft
   * has no captains object, or when a captain is not chosen. Otherwise the PUG
   * is created from copies of the teams with the captains moved to the head;
   * the draft is deleted only when creation succeeds.
   */
  method Confirm(s: Store, customId: string, pugId: Token, now: Timestamp) returns (reply: ConfirmReply)
    modifies s`drafts, s`live, s`pugsByDate, s`pugs, s`nextMatchNumber, s`commands
    ensures
      var draftId := DecodeConfirm(customId);
      var stopped := draftId !in old(s.drafts) || old(s.drafts)[draftId].captains.None?
        || CaptainChoice(old(s.drafts)[draftId].captains.value, "team1").None?
        || CaptainChoice(old(s.drafts)[draftId].captains.value, "team2").None?;
      && (draftId !in old(s.drafts) ==> reply == PugNotInRedis)
      && (draftId in old(s.drafts) && old(s.drafts)[draftId].captains.None? ==> reply == ConfirmCrashed)
      && (stopped ==>
            && (reply == PugNotInRedis || reply == ConfirmCrashed || reply == CaptainsMissing)
            && s.drafts == old(s.drafts) && s.live == old(s.live) && s.pugsByDate == old(s.pugsByDate)
            && s.pugs == old(s.pugs) && s.nextMatchNumber == old(s.nextMatchNumber) && s.commands == old(s.commands))
      && (!stopped ==>
            var d := old(s.drafts)[draftId];
            var c1 := CaptainChoice(d.captains.value, "team1").value;
            var c2 := CaptainChoice(d.captains.value, "team2").value;
            var team1 := CaptainFirst(d.team1, c1);
            var team2 := CaptainFirst(d.team2, c2);
            && s.live == old(s.live)[pugId := LiveRecord(pugId, now, team1, team2, d.userRequested)]
            && s.pugsByDate == old(s.pugsByDate)[pugId := now]
            && (|team1| == 0 || |team2| == 0 ==>
                  && reply == CreateFailedReply(ErrorText(ReadIdError))
                  && s.pugs == old(s.pugs) && s.nextMatchNumber == old(s.nextMatchNumber) && s.commands == old(s.commands))
            && (|team1| > 0 && |team2| > 0 && pugId in old(s.pugs) ==>
                  && reply == CreateFailedReply(ErrorText(DuplicateTokenError))
                  && s.pugs == old(s.pugs) && s.nextMatchNumber == old(s.nextMatchNumber) + 1 && s.commands == old(s.commands))
            && (|team1| > 0 && |team2| > 0 && pugId !in old(s.pugs) ==>
                  && s.pugs == old(s.pugs)[pugId := PugRow(old(s.nextMatchNumber), Some(team1[0].id), Some(team2[0].id), None, None, false)]
                  && s.nextMatchNumber == old(s.nextMatchNumber) + 1
                  && (d.userRequested.None? ==>
                        reply == CreateFailedReply(ErrorText(ReadIdError)) && s.commands == old(s.commands))
                  && (d.userRequested.Some? ==>
                        s.commands == old(s.commands) + [CommandRow(d.userRequested.value.id, d.userRequested.value.username, pugId, Created)]))
            && (reply.PugCreated? <==> |team1| > 0 && |team2| > 0 && pugId !in old(s.pugs) && d.userRequested.Some?)
            && (reply.PugCreated? ==> reply.token == pugId && s.drafts == old(s.drafts) - {draftId})
            && (reply.PugCreated? && c1 in Ids(d.team1) && c2 in Ids(d.team2) ==>
                  pugId in s.pugs && s.pugs[pugId].captain1 == Some(c1) && s.pugs[pugId].captain2 == Some(c2))
            && (!reply.PugCreated? ==> reply.CreateFailedReply? && reply.error != "" && s.drafts == old(s.drafts)))
  {
    var draftId := DecodeConfirm(customId);
    if draftId !in s.drafts {
      return PugNotInRedis;
    }
    var d := s.drafts[draftId];
    if d.captains.None? {
      return ConfirmCrashed;
    }
    var c1 := CaptainChoice(d.captains.value, "team1");
    var c2 := CaptainChoice(d.captains.value, "team2");
    if c1.None? || c2.None? {
      return CaptainsMissing;
    }

    var team1 := SwappedCopy(d.team1, c1.value);
    var team2 := SwappedCopy(d.team2, c2.value);

    var result := CreatePug(s, pugId, now, team1, team2, d.userRequested, now);
    if result.CreateFailed? {
      return CreateFailedReply(result.error);
    }
    s.drafts := s.drafts - {draftId};
    reply := PugCreated(pugId);
  }
}
