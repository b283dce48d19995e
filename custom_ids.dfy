/**
 * The component custom ids: what create_pug.ts and finish_pug_select.ts write
 * into them, and how the handlers read them back with `split`.
 *
 * A missing field reads as JavaScript `undefined`; where the handler only
 * interpolates it into a Redis key or uses it as a property name, it becomes
 * the text "undefined" (`Interpolate`).
 */
module CustomIds {
  import opened Wrappers
  import opened Text

  /** The team names the ids carry. */
  function TeamName(n: int): string
    requires n == 1 || n == 2
  {
    if n == 1 then "team1" else "team2"
  }

  // ---- Encoders -----------------------------------------------------------

  /** `select_captain_team<n>_<draft id>` (create_pug.ts). */
  function SelectCaptainId(team: string, draftId: string): (id: string)
    ensures '_' !in team && '_' !in draftId ==> Split(id, '_') == ["select", "captain", team, draftId]
  {
    var id := "select_captain_" + team + "_" + draftId;
    if '_' in team || '_' in draftId then id
    else
      assert id == "select" + ['_'] + ("captain" + ['_'] + team + ['_'] + draftId);
      SplitAfterPiece("select", '_', "captain" + ['_'] + team + ['_'] + draftId);
      SplitThree("captain", team, draftId, '_');
      id
  }

  /** `pug:<draft id>:confirm_captains` (create_pug.ts). */
  function ConfirmCaptainsId(draftId: string): (id: string)
    ensures ':' !in draftId ==> Split(id, ':') == ["pug", draftId, "confirm_captains"]
  {
    var id := "pug:" + draftId + ":confirm_captains";
    if ':' in draftId then id
    else
      assert id == "pug" + [':'] + draftId + [':'] + "confirm_captains";
      SplitThree("pug", draftId, "confirm_captains", ':');
      id
  }

  /** `finish_team<n>_<pug id>` (finish_pug_select.ts). */
  function FinishButtonId(team: string, pugId: string): (id: string)
    ensures '_' !in team && '_' !in pugId ==> Split(id, '_') == ["finish", team, pugId]
  {
    var id := "finish_" + team + "_" + pugId;
    if '_' in team || '_' in pugId then id
    else
      assert id == "finish" + ['_'] + team + ['_'] + pugId;
      SplitThree("finish", team, pugId, '_');
      id
  }

  /** The two winner buttons for one PUG: team 1's, then team 2's; their ids differ. */
  function FinishButtons(pugId: string): (ids: seq<string>)
    ensures |ids| == 2
    ensures ids[0] == FinishButtonId("team1", pugId) && ids[1] == FinishButtonId("team2", pugId)
    ensures ids[0] != ids[1]
  {
    var a, b := FinishButtonId("team1", pugId), FinishButtonId("team2", pugId);
    assert a[11] != b[11];
    [a, b]
  }

  // ---- Decoders -----------------------------------------------------------

  datatype CaptainSelection = CaptainSelection(team: string, draftId: string)

  /** create_pug_select_captains.ts: the team is the third `_` field, the draft id the fourth. */
  function DecodeSelectCaptain(customId: string): (r: CaptainSelection)
    ensures r.team == Interpolate(Field(Split(customId, '_'), 2))
    ensures r.draftId == Interpolate(Field(Split(customId, '_'), 3))
  {
    var parts := Split(customId, '_');
    CaptainSelection(Interpolate(Field(parts, 2)), Interpolate(Field(parts, 3)))
  }

  /** create_pug_confirm_button.ts: the draft id is the second `:` field. */
  function DecodeConfirm(customId: string): (draftId: string)
    ensures draftId == Interpolate(Field(Split(customId, ':'), 1))
  {
    Interpolate(Field(Split(customId, ':'), 1))
  }

  datatype MemberSelection = MemberSelection(draftId: string, team: string)

  /**
   * create_pug_team_members.ts: the draft id is the second `:` field; the team
   * is "team1" when the id contains "team1" anywhere, otherwise "team2".
   */
  function DecodeTeamMembers(customId: string): (r: MemberSelection)
    ensures r.draftId == Interpolate(Field(Split(customId, ':'), 1))
    ensures r.team == "team1" <==> exists i :: OccursAt(customId, "team1", i)
    ensures r.team == "team1" || r.team == "team2"
  {
    IncludesIff(customId, "team1");
    MemberSelection(Interpolate(Field(Split(customId, ':'), 1)),
                    if Includes(customId, "team1") then "team1" else "team2")
  }

  datatype FinishChoice = FinishChoice(pugId: string, winner: int)

  /**
   * finish_pug_buttons.ts: `[_, team, rawPugId] = split("_")`, the first
   * "pug:" removed from `rawPugId`, winner 1 exactly for "team1". With no
   * third field `rawPugId.replace` throws (`None`).
   */
  function DecodeFinishButton(customId: string): (r: Option<FinishChoice>)
    ensures r.Some? <==> |Split(customId, '_')| >= 3
    ensures r.Some? ==> r.value.winner == (if Split(customId, '_')[1] == "team1" then 1 else 2)
    ensures r.Some? ==> r.value.pugId == ReplaceFirst(Split(customId, '_')[2], "pug:", "")
  {
    var parts := Split(customId, '_');
    if |parts| < 3 then None
    else Some(FinishChoice(ReplaceFirst(parts[2], "pug:", ""), if parts[1] == "team1" then 1 else 2))
  }

  datatype FlatChoice = FlatChoice(pugId: string, winner: Option<int>)

  /**
   * finish_pug_button_handler.ts as written: `[prefix, pug_id, team] =
   * split("_")`, ignored unless the prefix is "finish"; the winner is
   * `parseInt(team, 10)`, `None` for NaN.
   */
  function DecodeFlatButtonAsWritten(customId: string): (r: Option<FlatChoice>)
    ensures r.Some? <==> Split(customId, '_')[0] == "finish"
    ensures r.Some? ==> r.value.pugId == Interpolate(Field(Split(customId, '_'), 1))
    ensures r.Some? ==> r.value.winner == ParseInt(Interpolate(Field(Split(customId, '_'), 2)))
  {
    var parts := Split(customId, '_');
    if parts[0] != "finish" then None
    else Some(FlatChoice(Interpolate(Field(parts, 1)), ParseInt(Interpolate(Field(parts, 2)))))
  }

  /**
   * The same handler reading the fields in the order finish_pug_select.ts
   * writes them: prefix, team, pug id; the winner is 1 for "team1" and 2 for
   * "team2", `None` for anything else.
   */
  function DecodeFlatButton(customId: string): (r: Option<FlatChoice>)
    ensures r.Some? <==> Split(customId, '_')[0] == "finish"
    ensures r.Some? ==> r.value.pugId == Interpolate(Field(Split(customId, '_'), 2))
    ensures r.Some? ==> (r.value.winner == Some(1) <==> Field(Split(customId, '_'), 1) == Some("team1"))
    ensures r.Some? ==> (r.value.winner == Some(2) <==> Field(Split(customId, '_'), 1) == Some("team2"))
  {
    var parts := Split(customId, '_');
    if parts[0] != "finish" then None
    else
      var team := Field(parts, 1);
      var winner := if team == Some("team1") then Some(1) else if team == Some("team2") then Some(2) else None;
      Some(FlatChoice(Interpolate(Field(parts, 2)), winner))
  }

  // ---- Round trips ---------------------------------------------------------

  /** Three pieces joined by a separator split back into those pieces. */
  lemma SplitThree(a: string, b: string, c: string, sep: char)
    requires sep !in a && sep !in b && sep !in c
    ensures Split(a + [sep] + b + [sep] + c, sep) == [a, b, c]
  {
    assert a + [sep] + b + [sep] + c == a + [sep] + (b + [sep] + c);
    SplitAfterPiece(a, sep, b + [sep] + c);
    SplitAfterPiece(b, sep, c);
    SplitNoSep(c, sep);
  }

  /** "team1" cannot occur where no 't' is followed four places later by a '1'. */
  lemma NoTeam1(s: string)
    requires forall i :: 0 <= i && i + 5 <= |s| ==> s[i] != 't' || s[i + 4] != '1'
    ensures forall i :: !OccursAt(s, "team1", i)
  {
    forall i ensures !OccursAt(s, "team1", i) {
      if 0 <= i && i + 5 <= |s| {
        assert s[i..i + 5][0] == s[i] && s[i..i + 5][4] == s[i + 4];
      }
    }
  }

  /** Captain-select ids decode to the team and draft id they were built from. */
  lemma SelectCaptainRoundTrip(n: int, draftId: string)
    requires n == 1 || n == 2
    requires '_' !in draftId
    ensures DecodeSelectCaptain(SelectCaptainId(TeamName(n), draftId)) == CaptainSelection(TeamName(n), draftId)
  {
    var team := TeamName(n);
    assert SelectCaptainId(team, draftId) == "select" + ['_'] + ("captain" + ['_'] + team + ['_'] + draftId);
    SplitAfterPiece("select", '_', "captain" + ['_'] + team + ['_'] + draftId);
    SplitThree("captain", team, draftId, '_');
  }

  /** Confirm ids give back the draft id. */
  lemma ConfirmRoundTrip(draftId: string)
    requires ':' !in draftId
    ensures DecodeConfirm(ConfirmCaptainsId(draftId)) == draftId
  {
    ColonFields(draftId, "confirm_captains");
    assert ConfirmCaptainsId(draftId) == "pug:" + draftId + ":" + "confirm_captains";
  }

  /** A team-2 member id never contains "team1" when the draft id has no 't'. */
  lemma Team2IdLacksTeam1(draftId: string)
    requires ':' !in draftId && 't' !in draftId
    ensures forall i :: !OccursAt("pug:" + draftId + ":" + "team2_select_members", "team1", i)
  {
    var tail := "team2_select_members";
    var id := "pug:" + draftId + ":" + tail;
    var k := 5 + |draftId|;
    assert '1' !in tail;
    forall i | 0 <= i && i + 5 <= |id| ensures id[i] != 't' || id[i + 4] != '1' {
      if i < 4 {
        assert id[i] == "pug:"[i];
      } else if i < k - 1 {
        assert id[i] == draftId[i - 4];
      } else if i == k - 1 {
        assert id[i] == ':';
      } else {
        assert id[i + 4] == tail[i + 4 - k];
      }
    }
    NoTeam1(id);
  }

  /** A `:`-free draft id and suffix split back out of `pug:<draft id>:<suffix>`. */
  lemma ColonFields(draftId: string, tail: string)
    requires ':' !in draftId && ':' !in tail
    ensures Field(Split("pug:" + draftId + ":" + tail, ':'), 1) == Some(draftId)
  {
    var joined := "pug" + [':'] + draftId + [':'] + tail;
    SplitThree("pug", draftId, tail, ':');
    assert "pug:" + draftId + ":" + tail == joined by {
      assert "pug:" == "pug" + [':'] && ":" == [':'];
    }
    assert Split(joined, ':')[1] == draftId;
  }

  /** The team-1 member id contains "team1". */
  lemma Team1IdHasTeam1(draftId: string)
    ensures exists i :: OccursAt("pug:" + draftId + ":" + "team1_select_members", "team1", i)
  {
    var id := "pug:" + draftId + ":" + "team1_select_members";
    var k := 5 + |draftId|;
    assert id[k..k + 5] == "team1";
    assert OccursAt(id, "team1", k);
  }

  /**
   * Ids of the form `pug:<draft id>:team<n>_select_members` give back the
   * draft id and the team, for a draft id without ':' and 't' (a UUID).
   */
  lemma TeamMembersRoundTrip(n: int, draftId: string)
    requires n == 1 || n == 2
    requires ':' !in draftId && 't' !in draftId
    ensures DecodeTeamMembers("pug:" + draftId + ":" + TeamName(n) + "_select_members")
      == MemberSelection(draftId, TeamName(n))
  {
    var tail := if n == 1 then "team1_select_members" else "team2_select_members";
    var id := "pug:" + draftId + ":" + tail;
    assert id == "pug:" + draftId + ":" + TeamName(n) + "_select_members";
    ColonFields(draftId, tail);
    if n == 1 {
      Team1IdHasTeam1(draftId);
    } else {
      Team2IdLacksTeam1(draftId);
    }
  }

  /** The prompt menus' plain ids `team<n>_select` carry no draft id: both read the draft "undefined". */
  lemma PromptIdsReadUndefinedDraft(n: int)
    requires n == 1 || n == 2
    ensures DecodeTeamMembers(TeamName(n) + "_select") == MemberSelection("undefined", TeamName(n))
  {
    var id := TeamName(n) + "_select";
    SplitNoSep(id, ':');
    if n == 1 {
      assert id[0..5] == "team1";
      assert OccursAt(id, "team1", 0);
    } else {
      assert '1' !in id;
      NoTeam1(id);
    }
  }

  /** A pug id with no "pug:" in it is left alone by the `replace`. */
  lemma ReplaceAbsent(s: string)
    requires forall i :: !OccursAt(s, "pug:", i)
    ensures ReplaceFirst(s, "pug:", "") == s
  {
  }

  /** A pug id given as `pug:<token>` loses that prefix. */
  lemma ReplaceLeading(token: string)
    ensures ReplaceFirst("pug:" + token, "pug:", "") == token
  {
    var s := "pug:" + token;
    assert s[0..4] == "pug:";
    assert OccursAt(s, "pug:", 0);
    assert s[4..] == token;
  }

  /** A winner button splits into its three fields: the team, then the pug id as written. */
  lemma FinishButtonFields(n: int, p: string)
    requires n == 1 || n == 2
    requires '_' !in p
    ensures DecodeFinishButton(FinishButtonId(TeamName(n), p)) == Some(FinishChoice(ReplaceFirst(p, "pug:", ""), n))
  {
    SplitThree("finish", TeamName(n), p, '_');
    assert FinishButtonId(TeamName(n), p) == "finish" + ['_'] + TeamName(n) + ['_'] + p;
  }

  /**
   * Winner buttons decode to the winning team number and the pug id, whether
   * the id is the bare token or `pug:<token>`.
   */
  lemma FinishButtonRoundTrip(n: int, token: string)
    requires n == 1 || n == 2
    requires '_' !in token && (forall i :: !OccursAt(token, "pug:", i))
    ensures DecodeFinishButton(FinishButtonId(TeamName(n), token)) == Some(FinishChoice(token, n))
    ensures DecodeFinishButton(FinishButtonId(TeamName(n), "pug:" + token)) == Some(FinishChoice(token, n))
  {
    FinishButtonFields(n, token);
    ReplaceAbsent(token);
    assert '_' !in "pug:" + token;
    FinishButtonFields(n, "pug:" + token);
    ReplaceLeading(token);
  }

  /**
   * As written, the flat handler reads a winner button with the team name as
   * the pug id and `parseInt` of the pug id as the winner, so it never gets the
   * pug it was built for.
   */
  lemma FlatButtonMisreadAsWritten(n: int, token: string)
    requires n == 1 || n == 2
    requires '_' !in token
    ensures DecodeFlatButtonAsWritten(FinishButtonId(TeamName(n), token)) == Some(FlatChoice(TeamName(n), ParseInt(token)))
    ensures token != TeamName(n) ==>
      DecodeFlatButtonAsWritten(FinishButtonId(TeamName(n), token)) != Some(FlatChoice(token, Some(n)))
  {
    SplitThree("finish", TeamName(n), token, '_');
    assert FinishButtonId(TeamName(n), token) == "finish" + ['_'] + TeamName(n) + ['_'] + token;
  }

  /** A concrete case: a button for pug "abc" that team 1 won is read as pug "team1" with no winner. */
  lemma FlatButtonMisreadExample()
    ensures DecodeFlatButtonAsWritten(FinishButtonId("team1", "abc")) == Some(FlatChoice("team1", None))
  {
    FlatButtonMisreadAsWritten(1, "abc");
    assert TrimStart("abc") == "abc";
    assert DigitPrefix("abc") == "";
  }

  /** An id that one of the two winner buttons of some PUG carries (a token without '_'). */
  ghost predicate IsWinnerButton(customId: string) {
    exists token: string :: '_' !in token &&
      (customId == FinishButtonId("team1", token) || customId == FinishButtonId("team2", token))
  }

  /** As written, every winner button is read as a "finish" id whose pug id is a team name. */
  lemma WinnerButtonReadAsTeam(customId: string)
    requires IsWinnerButton(customId)
    ensures DecodeFlatButtonAsWritten(customId).Some?
    ensures DecodeFlatButtonAsWritten(customId).value.pugId in {"team1", "team2"}
  {
    var token :| '_' !in token &&
      (customId == FinishButtonId("team1", token) || customId == FinishButtonId("team2", token));
    if customId == FinishButtonId("team1", token) {
      FlatButtonMisreadAsWritten(1, token);
    } else {
      FlatButtonMisreadAsWritten(2, token);
    }
  }

  /** Read in the encoder's order, winner buttons decode to the pug and the winning team. */
  lemma FlatButtonRoundTrip(n: int, token: string)
    requires n == 1 || n == 2
    requires '_' !in token
    ensures DecodeFlatButton(FinishButtonId(TeamName(n), token)) == Some(FlatChoice(token, Some(n)))
  {
    SplitThree("finish", TeamName(n), token, '_');
    assert FinishButtonId(TeamName(n), token) == "finish" + ['_'] + TeamName(n) + ['_'] + token;
  }
}
