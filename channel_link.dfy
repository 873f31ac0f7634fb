/** Reducing a task's channel link to what is passed to `join_chat`
    (`Tapper.join_tg_channel`, bot/core/tapper.py lines 136-137). */
module ChannelLink {
  import opened Text

  /** The marker of a private invite link. */
  const PrivateMarker := "https://t.me/+"

  /** Python's `link[13:]`, which drops a leading `https://t.me/`. */
  const PrefixLength := 13

  /** The text of `s` before its first `/`, or all of `s` when it has none. */
  function BeforeSlash(s: string): (r: string)
    ensures '/' !in r
    ensures r <= s
    ensures r == s <==> '/' !in s
    ensures r != s ==> s[|r|] == '/'
  {
    SplitOnHead(s, '/');
    SplitOn(s, '/')[0]
  }

  /** Lines 136-137 as written: a private link is kept, any other loses its first
      13 characters; then the result is cut before its first `/`. */
  function NormalizeAsWritten(link: string): (r: string)
    ensures '/' !in r
    ensures !Contains(link, PrivateMarker) ==> r == BeforeSlash(SliceFrom(link, PrefixLength))
    ensures Contains(link, PrivateMarker) ==> r == BeforeSlash(link)
  {
    var parsed := if Contains(link, PrivateMarker) then link else SliceFrom(link, PrefixLength);
    BeforeSlash(parsed)
  }

  /** The private-invite branch is undone by the cut that follows it: every link
      that starts with `https://t.me/+` is reduced to `https:`. */
  lemma PrivateLinkCollapses(link: string)
    requires |link| >= |PrivateMarker| && link[..|PrivateMarker|] == PrivateMarker
    ensures NormalizeAsWritten(link) == "https:"
  {
    assert OccursAt(link, PrivateMarker, 0);
    FindFirst(link, PrivateMarker);
    var r := BeforeSlash(link);
    forall j | 0 <= j < 6
      ensures link[j] != '/'
    {
      assert link[j] == PrivateMarker[j];
    }
    assert link[6] == PrivateMarker[6] == '/';
    assert |r| == 6;
    assert r == link[..6] == PrivateMarker[..6];
  }

  /** The evidently intended reduction: a private invite link is passed on whole,
      any other loses `https://t.me/` and whatever follows the channel name. */
  function Normalize(link: string): (r: string)
    ensures Contains(link, PrivateMarker) ==> r == link
    ensures !Contains(link, PrivateMarker) ==> '/' !in r
    ensures !Contains(link, PrivateMarker) ==> r <= SliceFrom(link, PrefixLength)
    ensures !Contains(link, PrivateMarker) && r != SliceFrom(link, PrefixLength) ==>
      SliceFrom(link, PrefixLength)[|r|] == '/'
  {
    if Contains(link, PrivateMarker) then link else BeforeSlash(SliceFrom(link, PrefixLength))
  }
}
