/**
 * The two handlers that fill in a draft before it is confirmed: picking a
 * team's members (discord_bot/src/interacctions/create_pug_team_members.ts)
 * and picking a team's captain
 * (discord_bot/src/interacctions/create_pug_select_captains.ts).
 *
 * Each loads the draft from "temp_pug:<id>", changes fields of the parsed
 * object and writes it back whole.
 */
module DraftHandlers {
  import opened Wrappers
  import opened Tables
  import opened Records
  import opened StoreState
  import opened CustomIds
  import opened CreateCommand

  /** The draft used when none is stored: empty teams, no captains, no pug id or requester. */
  const FreshDraft: Draft := Draft(None, [], [], Some(NoCaptains), None)

  /** The stored draft, or the fresh one. */
  function LoadDraft(drafts: map<Token, Draft>, id: Token): (d: Draft)
    ensures id in drafts ==> d == drafts[id]
    ensures id !in drafts ==> d.team1 == [] && d.team2 == [] && d.captains == Some(NoCaptains)
    ensures id !in drafts ==> d.pugId.None? && d.userRequested.None?
  {
    if id in drafts then drafts[id] else FreshDraft
  }

  /**
   * The fetched members with the failed fetches filtered out, in selection
   * order: a member is kept exactly when some selected id resolves to it.
   */
  function ResolveSome(resolve: Resolve, ids: seq<PlayerId>): (r: seq<Member>)
    ensures |r| <= |ids|
    ensures forall m :: m in r <==> exists i :: 0 <= i < |ids| && resolve(ids[i]) == Some(m)
    ensures r == [] <==> forall i :: 0 <= i < |ids| ==> resolve(ids[i]).None?
    ensures (forall i :: 0 <= i < |ids| ==> resolve(ids[i]).Some?) ==> Some(r) == ResolveAll(resolve, ids)
    decreases |ids|
  {
    if |ids| == 0 then []
    else
      var rest := ResolveSome(resolve, ids[1..]);
      assert forall i :: 1 <= i < |ids| ==> ids[1..][i - 1] == ids[i];
      match resolve(ids[0])
      case Some(m) => [m] + rest
      case None => rest
  }

  /** One selected id contributes its member when the fetch succeeds, and nothing otherwise. */
  lemma ResolveSomeSingle(resolve: Resolve, x: PlayerId)
    ensures resolve(x).Some? ==> ResolveSome(resolve, [x]) == [resolve(x).value]
    ensures resolve(x).None? ==> ResolveSome(resolve, [x]) == []
  {
    assert [x][1..] == [];
  }

  /**
   * The members are pushed in selection order: resolving a concatenation is
   * resolving each part, in order, so no survivor is dropped, repeated or moved.
   */
  lemma {:induction false} ResolveSomeAppend(resolve: Resolve, a: seq<PlayerId>, b: seq<PlayerId>)
    ensures ResolveSome(resolve, a + b) == ResolveSome(resolve, a) + ResolveSome(resolve, b)
    decreases |a|
  {
    if |a| == 0 {
      assert a + b == b;
    } else {
      assert (a + b)[0] == a[0];
      assert (a + b)[1..] == a[1..] + b;
      ResolveSomeAppend(resolve, a[1..], b);
    }
  }

  datatype MembersReply =
    | NoValidMembers(team: string)     // "No valid members selected for <team>."
    | BothTeamsSelected                // "Team members selected for both teams! ..."
    | TeamSaved(team: string)          // "<team> members saved! ..."

  /**
   * handleTeamMemberSelection. With no member resolved nothing is written.
   * Otherwise the chosen team's list is replaced by the resolved members,
   * the requesting user is filled in only when missing, and everything else
   * in the draft (the other team, the captains, the pug id) is kept.
   */
  method SelectTeamMembers(s: Store, customId: string, values: seq<PlayerId>, resolve: Resolve, user: User)
    returns (reply: MembersReply)
    modifies s`drafts
    ensures
      var sel := DecodeTeamMembers(customId);
      var members := ResolveSome(resolve, values);
      var before := LoadDraft(old(s.drafts), sel.draftId);
      && (members == [] ==> reply == NoValidMembers(sel.team) && s.drafts == old(s.drafts))
      && (members != [] ==>
            && sel.draftId in s.drafts
            && s.drafts == old(s.drafts)[sel.draftId := s.drafts[sel.draftId]]
            && var after := s.drafts[sel.draftId];
            && after.pugId == before.pugId && after.captains == before.captains
            && after.userRequested == (if before.userRequested.Some? then before.userRequested else Some(RecordOf(user)))
            && (sel.team == "team1" ==> after.team1 == members && after.team2 == before.team2)
            && (sel.team == "team2" ==> after.team2 == members && after.team1 == before.team1)
            && (reply == BothTeamsSelected <==> after.team1 != [] && after.team2 != [])
            && (reply != BothTeamsSelected ==> reply == TeamSaved(sel.team)))
  {
    var sel := DecodeTeamMembers(customId);
    var draft := LoadDraft(s.drafts, sel.draftId);
    if draft.userRequested.None? {
      draft := draft.(userRequested := Some(RecordOf(user)));
    }
    var members := ResolveSome(resolve, values);
    if |members| == 0 {
      return NoValidMembers(sel.team);
    }
    if sel.team == "team1" {
      draft := draft.(team1 := members);
    } else {
      draft := draft.(team2 := members);
    }
    s.drafts := s.drafts[sel.draftId := draft];
    if |draft.team1| > 0 && |draft.team2| > 0 {
      reply := BothTeamsSelected;
    } else {
      reply := TeamSaved(sel.team);
    }
  }

  datatype CaptainReply =
    | DraftNotFound      // "Could not find temporary PUG data in Redis. Please recreate the PUG."
    | CaptainNoted       // deferUpdate

  /**
   * `tempPug.captains[team] = values[0]` followed by `JSON.stringify`: with no
   * selected value the property is `undefined` and disappears from the stored
   * JSON.
   */
  function SetCaptain(captains: Captains, team: string, values: seq<PlayerId>): (r: Captains)
    ensures forall k :: k != team ==> Get(r, k) == Get(captains, k)
    ensures |values| > 0 ==> Get(r, team) == Some(Some(values[0]))
    ensures |values| == 0 ==> Get(r, team).None?
  {
    if |values| > 0 then captains[team := Some(values[0])] else captains - {team}
  }

  /**
   * handleCaptainSelection. A missing draft gives the error reply and no
   * write. Otherwise a missing captains object starts as both null and only
   * the selected team's captain changes; the members and the rest of the
   * draft are kept.
   */
  method SelectCaptain(s: Store, customId: string, values: seq<PlayerId>) returns (reply: CaptainReply)
    modifies s`drafts
    ensures
      var sel := DecodeSelectCaptain(customId);
      && (sel.draftId !in old(s.drafts) ==> reply == DraftNotFound && s.drafts == old(s.drafts))
      && (sel.draftId in old(s.drafts) ==>
            var before := old(s.drafts)[sel.draftId];
            var captains := if before.captains.Some? then before.captains.value else NoCaptains;
            && reply == CaptainNoted
            && s.drafts == old(s.drafts)[sel.draftId := before.(captains := Some(SetCaptain(captains, sel.team, values)))])
  {
    var sel := DecodeSelectCaptain(customId);
    if sel.draftId !in s.drafts {
      return DraftNotFound;
    }
    var draft := s.drafts[sel.draftId];
    if draft.captains.None? {
      draft := draft.(captains := Some(NoCaptains));
    }
    draft := draft.(captains := Some(SetCaptain(draft.captains.value, sel.team, values)));
    s.drafts := s.drafts[sel.draftId := draft];
    reply := CaptainNoted;
  }
}
