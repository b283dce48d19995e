/**
 * Team validation before a PUG goes ahead
 * (discord_bot/src/utils/create_pug_team_validation.ts): the first failing
 * check of duplicates, unequal sizes and an empty team, in that order.
 */
module Validation {
  import opened Wrappers
  import opened Records

  datatype TeamError =
    | Duplicate                                  // "A player cannot be on both teams. ..."
    | Uneven(team1Count: nat, team2Count: nat)   // "Teams are uneven: Team 1 has .., Team 2 has .. players. ..."
    | Empty                                      // "Both teams must have at least one player before continuing."

  /** `new Set(ids)`. */
  function ElemSet(ids: seq<PlayerId>): set<PlayerId> {
    set x | x in ids
  }

  /** A list never has more distinct elements than entries. */
  lemma {:induction false} ElemSetBound(ids: seq<PlayerId>)
    ensures |ElemSet(ids)| <= |ids|
    decreases |ids|
  {
    if ids != [] {
      ElemSetBound(ids[1..]);
      assert ElemSet(ids) == {ids[0]} + ElemSet(ids[1..]);
    }
  }

  /** The duplicate check is sound and complete: the set is as large as the list exactly when no id repeats. */
  lemma {:induction false} DistinctIffSetSize(ids: seq<PlayerId>)
    ensures Distinct(ids) <==> |ElemSet(ids)| == |ids|
    decreases |ids|
  {
    if ids != [] {
      var rest := ids[1..];
      DistinctIffSetSize(rest);
      ElemSetBound(rest);
      assert ElemSet(ids) == {ids[0]} + ElemSet(rest);
      if ids[0] in rest {
        var j :| 0 <= j < |rest| && rest[j] == ids[0];
        assert ids[0] == ids[j + 1];
        assert ElemSet(ids) == ElemSet(rest);
      } else {
        assert Distinct(ids) <==> Distinct(rest) by {
          if Distinct(rest) {
            forall i, j | 0 <= i < j < |ids| ensures ids[i] != ids[j] {
              if i == 0 {
                assert ids[j] == rest[j - 1];
              } else {
                assert ids[i] == rest[i - 1] && ids[j] == rest[j - 1];
              }
            }
          }
          if Distinct(ids) {
            forall i, j | 0 <= i < j < |rest| ensures rest[i] != rest[j] {
              assert rest[i] == ids[i + 1] && rest[j] == ids[j + 1];
            }
          }
        }
      }
    }
  }

  /**
   * validatePugTeams, with the reply it sends: `None` lets the caller continue.
   * Duplicates are checked over both teams together, so an id twice in one
   * team is caught too; two empty teams report "empty", never "uneven".
   */
  function Validate(team1: seq<PlayerId>, team2: seq<PlayerId>): (r: Option<TeamError>)
    ensures !Distinct(team1 + team2) ==> r == Some(Duplicate)
    ensures Distinct(team1 + team2) && |team1| != |team2| ==> r == Some(Uneven(|team1|, |team2|))
    ensures Distinct(team1 + team2) && |team1| == |team2| && (|team1| == 0 || |team2| == 0) ==> r == Some(Empty)
    ensures r.None? <==> Distinct(team1 + team2) && |team1| == |team2| && |team1| > 0
  {
    var all := team1 + team2;
    DistinctIffSetSize(all);
    if |all| != |ElemSet(all)| then Some(Duplicate)
    else if |team1| != |team2| then Some(Uneven(|team1|, |team2|))
    else if |team1| == 0 || |team2| == 0 then Some(Empty)
    else None
  }

  /** Validation reads only the two lists: neither is changed (they are values here), and the order within a team does not matter to it. */
  lemma {:induction false} ValidateIgnoresOrder(a1: seq<PlayerId>, a2: seq<PlayerId>, b1: seq<PlayerId>, b2: seq<PlayerId>)
    requires multiset(a1) == multiset(b1) && multiset(a2) == multiset(b2)
    ensures Validate(a1, a2) == Validate(b1, b2)
  {
    assert |a1| == |multiset(a1)| == |b1|;
    assert |a2| == |multiset(a2)| == |b2|;
    assert multiset(a1 + a2) == multiset(b1 + b2);
    DistinctMultiset(a1 + a2, b1 + b2);
  }

  /** Having no repeats depends only on the multiset of ids. */
  lemma DistinctMultiset(a: seq<PlayerId>, b: seq<PlayerId>)
    requires multiset(a) == multiset(b)
    ensures Distinct(a) <==> Distinct(b)
  {
    DistinctIffSetSize(a);
    DistinctIffSetSize(b);
    assert |a| == |multiset(a)| == |b|;
    assert ElemSet(a) == ElemSet(b) by {
      forall x ensures x in ElemSet(a) <==> x in ElemSet(b) {
        assert x in a <==> x in multiset(a);
        assert x in b <==> x in multiset(b);
      }
    }
  }
}
