/**
 * The /create_pug command (discord_bot/src/commands/create_pug.ts): read the
 * mentions of both options, resolve them to guild members, store the draft
 * under "temp_pug:<id>" and offer the captain menus and the confirm button.
 */
module CreateCommand {
  import opened Wrappers
  import opened Records
  import opened StoreState
  import opened MentionParsing
  import opened CustomIds

  /** `guild.members.fetch`: the member for an id, `None` when the fetch rejects. */
  type Resolve = PlayerId -> Option<Member>

  /** `Promise.all` over the fetches: every member in order, or `None` when any fetch rejects. */
  function ResolveAll(resolve: Resolve, ids: seq<PlayerId>): (r: Option<seq<Member>>)
    ensures r.Some? <==> forall i :: 0 <= i < |ids| ==> resolve(ids[i]).Some?
    ensures r.Some? ==> |r.value| == |ids| && forall i :: 0 <= i < |ids| ==> resolve(ids[i]) == Some(r.value[i])
    decreases |ids|
  {
    if |ids| == 0 then Some([])
    else match (resolve(ids[0]), ResolveAll(resolve, ids[1..]))
      case (Some(m), Some(rest)) => Some([m] + rest)
      case _ => None
  }

  datatype CreateReply =
    | NotInServer          // "This command must be used in a server."
    | MissingMentions      // "You must mention at least one player in each team."
    | SomethingWentWrong   // "Something went wrong creating the PUG."
    | CaptainMenus(captain1Menu: string, captain1Options: seq<PlayerId>,
                   captain2Menu: string, captain2Options: seq<PlayerId>,
                   confirmButton: string)

  /**
   * execute. Outside a guild, with a team without mentions, or when a member
   * cannot be fetched, nothing is stored. Otherwise the draft holds both
   * member lists, no captains and the invoking user, and the reply carries the
   * two captain menus, whose options are the team members' ids, and the
   * confirm button, all keyed by the new draft id.
   */
  method Execute(s: Store, inGuild: bool, team1Raw: string, team2Raw: string, resolve: Resolve,
                 user: User, draftId: Token)
    returns (reply: CreateReply)
    modifies s`drafts
    ensures !inGuild ==> reply == NotInServer && s.drafts == old(s.drafts)
    ensures inGuild && (Mentions(team1Raw) == [] || Mentions(team2Raw) == []) ==>
      reply == MissingMentions && s.drafts == old(s.drafts)
    ensures reply.SomethingWentWrong? <==>
      inGuild && Mentions(team1Raw) != [] && Mentions(team2Raw) != [] &&
      (ResolveAll(resolve, Mentions(team1Raw)).None? || ResolveAll(resolve, Mentions(team2Raw)).None?)
    ensures reply.SomethingWentWrong? ==> s.drafts == old(s.drafts)
    ensures reply.CaptainMenus? ==>
      var team1 := ResolveAll(resolve, Mentions(team1Raw)).value;
      var team2 := ResolveAll(resolve, Mentions(team2Raw)).value;
      && inGuild && |team1| > 0 && |team2| > 0
      && s.drafts == old(s.drafts)[draftId := Draft(Some(draftId), team1, team2, Some(NoCaptains), Some(RecordOf(user)))]
      && reply == CaptainMenus(SelectCaptainId("team1", draftId), Ids(team1),
                               SelectCaptainId("team2", draftId), Ids(team2),
                               ConfirmCaptainsId(draftId))
    ensures reply.CaptainMenus? && '_' !in draftId && ':' !in draftId ==>
      && DecodeSelectCaptain(reply.captain1Menu) == CaptainSelection("team1", draftId)
      && DecodeSelectCaptain(reply.captain2Menu) == CaptainSelection("team2", draftId)
      && DecodeConfirm(reply.confirmButton) == draftId
  {
    if !inGuild {
      return NotInServer;
    }
    var team1Ids := ParseMentions(team1Raw);
    var team2Ids := ParseMentions(team2Raw);
    if |team1Ids| == 0 || |team2Ids| == 0 {
      return MissingMentions;
    }
    var team1 := ResolveAll(resolve, team1Ids);
    var team2 := ResolveAll(resolve, team2Ids);
    if team1.None? || team2.None? {
      return SomethingWentWrong;
    }
    s.drafts := s.drafts[draftId := Draft(Some(draftId), team1.value, team2.value, Some(NoCaptains), Some(RecordOf(user)))];
    reply := CaptainMenus(SelectCaptainId("team1", draftId), Ids(team1.value),
                          SelectCaptainId("team2", draftId), Ids(team2.value),
                          ConfirmCaptainsId(draftId));
    if '_' !in draftId && ':' !in draftId {
      SelectCaptainRoundTrip(1, draftId);
      SelectCaptainRoundTrip(2, draftId);
      ConfirmRoundTrip(draftId);
    }
  }
}
