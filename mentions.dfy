/**
 * Reading user mentions out of the /create_pug options
 * (`parseMentions` in discord_bot/src/commands/create_pug.ts): every match of
 * `<@!?(\d+)>`, left to right, as the digit string it captures.
 */
module MentionParsing {
  import opened Wrappers
  import opened Text

  predicate AllDigits(s: string) {
    forall i :: 0 <= i < |s| ==> IsDigit(s[i])
  }

  /**
   * A match starting at the first character: "<@", an optional "!", one or
   * more digits and ">". Gives the digits and the length of the match.
   */
  function MentionAt(s: string): (m: Option<(string, nat)>)
    ensures m.Some? ==> |m.value.0| > 0 && AllDigits(m.value.0) && 4 <= m.value.1 <= |s|
  {
    if |s| >= 2 && s[0] == '<' && s[1] == '@' then
      var q := if |s| > 2 && s[2] == '!' then 3 else 2;
      var d := DigitPrefix(s[q..]);
      if |d| > 0 && q + |d| < |s| && s[q + |d|] == '>' then Some((d, q + |d| + 1)) else None
    else None
  }

  /** `regex.exec` on `s`: the leftmost match, as its digits and the index just after it. */
  function Exec(s: string): (m: Option<(string, nat)>)
    ensures m.Some? ==> |m.value.0| > 0 && AllDigits(m.value.0) && 4 <= m.value.1 <= |s|
    decreases |s|
  {
    if |s| == 0 then None
    else match MentionAt(s)
      case Some(r) => Some(r)
      case None =>
        match Exec(s[1..])
        case None => None
        case Some(r) => Some((r.0, r.1 + 1))
  }

  /** All matches, each search starting where the previous match ended (`lastIndex`). */
  function Mentions(s: string): (ms: seq<string>)
    ensures 4 * |ms| <= |s|
    decreases |s|
  {
    match Exec(s)
    case None => []
    case Some(r) => [r.0] + Mentions(s[r.1..])
  }

  /** Every match is a non-empty run of digits. */
  lemma {:induction false} MentionsAreDigits(s: string)
    ensures forall i :: 0 <= i < |Mentions(s)| ==> |Mentions(s)[i]| > 0 && AllDigits(Mentions(s)[i])
    decreases |s|
  {
    match Exec(s)
    case None =>
    case Some(r) =>
      MentionsAreDigits(s[r.1..]);
  }

  /**
   * One `exec` step: pushing the match found in `t` keeps "pushed so far, then
   * the matches after the match" equal to all matches.
   */
  lemma PushMatch(t: string, ids: seq<string>, all: seq<string>)
    requires Exec(t).Some? && ids + Mentions(t) == all
    ensures (ids + [Exec(t).value.0]) + Mentions(t[Exec(t).value.1..]) == all
  {
    var m := Exec(t).value;
    assert Mentions(t) == [m.0] + Mentions(t[m.1..]);
    PushRegroup(ids, m.0, Mentions(t[m.1..]));
  }

  lemma DropDrop(text: string, k: nat, e: nat)
    requires k + e <= |text|
    ensures text[k..][e..] == text[k + e..]
  {
  }

  lemma PushRegroup(ids: seq<string>, d: string, rest: seq<string>)
    ensures ids + ([d] + rest) == (ids + [d]) + rest
  {
  }

  /** parseMentions: the `while (match = regex.exec(text))` loop pushing each capture. */
  method ParseMentions(text: string) returns (ids: seq<string>)
    ensures ids == Mentions(text)
    ensures forall i :: 0 <= i < |ids| ==> |ids[i]| > 0 && AllDigits(ids[i])
  {
    ids := [];
    var lastIndex := 0;
    var match_ := Exec(text[lastIndex..]);
    while match_.Some?
      invariant lastIndex <= |text|
      invariant match_ == Exec(text[lastIndex..])
      invariant ids + Mentions(text[lastIndex..]) == Mentions(text)
      decreases |text| - lastIndex
    {
      PushMatch(text[lastIndex..], ids, Mentions(text));
      DropDrop(text, lastIndex, match_.value.1);
      ids := ids + [match_.value.0];
      lastIndex := lastIndex + match_.value.1;
      match_ := Exec(text[lastIndex..]);
    }
    assert ids + [] == ids;
    MentionsAreDigits(text);
  }

  /** A mention as Discord renders one: `<@id>`. */
  function Mention(id: string): string {
    "<@" + id + ">"
  }

  /** Mentions separated by spaces, as a user types them into an option. */
  function Render(ids: seq<string>): string {
    if |ids| == 0 then "" else Mention(ids[0]) + " " + Render(ids[1..])
  }

  /** Digits followed by a non-digit: the digit run is exactly the digits. */
  lemma {:induction false} DigitPrefixStops(d: string, t: string)
    requires AllDigits(d) && |t| > 0 && !IsDigit(t[0])
    ensures DigitPrefix(d + t) == d
    decreases |d|
  {
    if |d| > 0 {
      DigitPrefixStops(d[1..], t);
      assert (d + t)[1..] == d[1..] + t;
      assert [d[0]] + d[1..] == d;
    }
  }

  /** A character that cannot start a match is skipped. */
  lemma SkipChar(c: char, r: string)
    requires c != '<'
    ensures Mentions([c] + r) == Mentions(r)
  {
    var s := [c] + r;
    assert s[0] == c && s[1..] == r;
    assert MentionAt(s).None?;
    match Exec(r)
    case None =>
      assert Exec(s).None?;
    case Some(m) =>
      assert Exec(s) == Some((m.0, m.1 + 1));
      assert s[m.1 + 1..] == r[m.1..];
  }

  /** A mention, plain or in the nickname form, at the start of the text matches with its digits. */
  lemma MentionAtForm(q: string, d: string, t: string)
    requires q == "" || q == "!"
    requires |d| > 0 && AllDigits(d)
    ensures MentionAt("<@" + q + d + ">" + t) == Some((d, 3 + |q| + |d|))
  {
    var s := "<@" + q + d + ">" + t;
    var k := 2 + |q|;
    assert s[k..] == d + (">" + t);
    DigitPrefixStops(d, ">" + t);
    assert s[k + |d|] == '>';
    assert s[2] == if q == "!" then '!' else d[0];
  }

  /** After a leading mention, the matches are its digits and the matches of the rest. */
  lemma MentionsForm(q: string, d: string, t: string)
    requires q == "" || q == "!"
    requires |d| > 0 && AllDigits(d)
    ensures Mentions("<@" + q + d + ">" + t) == [d] + Mentions(t)
  {
    var s := "<@" + q + d + ">" + t;
    MentionAtForm(q, d, t);
    assert s[3 + |q| + |d|..] == t;
  }

  lemma RenderHead(ids: seq<string>)
    requires |ids| > 0
    ensures Render(ids) == "<@" + "" + ids[0] + ">" + ([' '] + Render(ids[1..]))
  {
  }

  /** Typed mentions are read back in order, repeats included. */
  lemma {:induction false} MentionsOfRender(ids: seq<string>)
    requires forall i :: 0 <= i < |ids| ==> |ids[i]| > 0 && AllDigits(ids[i])
    ensures Mentions(Render(ids)) == ids
  {
    if |ids| > 0 {
      var rest := Render(ids[1..]);
      RenderHead(ids);
      MentionsForm("", ids[0], [' '] + rest);
      SkipChar(' ', rest);
      MentionsOfRender(ids[1..]);
    }
  }

  /** Repeated mentions are kept: the same player typed twice is read twice. */
  lemma DuplicatesKept(id: string)
    requires |id| > 0 && AllDigits(id)
    ensures Mentions(Render([id, id])) == [id, id]
  {
    MentionsOfRender([id, id]);
  }

  /** Text without a '<' holds no mention. */
  lemma {:induction false} NoAngleNoMentions(s: string)
    requires forall i :: 0 <= i < |s| ==> s[i] != '<'
    ensures Exec(s).None? && Mentions(s) == []
    decreases |s|
  {
    if |s| > 0 {
      NoAngleNoMentions(s[1..]);
    }
  }

  /** The nickname form `<@!id>` gives the same id. */
  lemma NicknameMention(id: string)
    requires |id| > 0 && AllDigits(id)
    ensures Mentions("<@!" + id + ">") == [id]
  {
    NicknameForm(id);
    MentionsForm("!", id, "");
  }

  lemma NicknameForm(id: string)
    ensures "<@!" + id + ">" == "<@" + "!" + id + ">" + ""
  {
  }
}
