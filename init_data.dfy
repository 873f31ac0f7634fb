/** Turning the web-app launch URL into the init-data string sent to `/user/auth`
    (`Tapper.get_tg_web_data`, bot/core/tapper.py lines 83-99). */
module InitData {
  import opened Optional
  import opened Text
  import Percent

  /** The six fields of the init-data payload, in the order they are sent. */
  datatype Fields = Fields(
    user: string,
    chatInstance: string,
    chatType: string,
    startParam: string,
    authDate: string,
    hash: string)

  /** What `get_tg_web_data` hands back to the main loop: the init-data string,
      `None` after an error it swallowed, or the `InvalidSession` it re-raises. */
  datatype WebData = InvalidSession | NoInitData | InitData(data: string)

  const Keys: seq<string> := ["user", "chat_instance", "chat_type", "start_param", "auth_date", "hash"]

  /** The marker in front of the init data in the launch URL. */
  const DataMarker := "tgWebAppData="

  /** The marker behind it. */
  const VersionMarker := "&tgWebAppVersion"

  /** `url.split('tgWebAppData=')[1].split('&tgWebAppVersion')[0]`: the text
      after the first `tgWebAppData=`, up to the next `&tgWebAppVersion` or the
      next `tgWebAppData=`, whichever comes first, or to the end of the URL.
      The index `[1]` fails when the marker is missing. */
  function Segment(url: string): (r: Option<string>)
    ensures r.Some? <==> Contains(url, DataMarker)
    ensures r.Some? ==>
      var rest := url[Find(url, DataMarker).value + |DataMarker|..];
      && r.value <= rest
      && !Contains(r.value, VersionMarker) && !Contains(r.value, DataMarker)
      && (r.value == rest || OccursAt(rest, VersionMarker, |r.value|) || OccursAt(rest, DataMarker, |r.value|))
  {
    var outer := Split(url, DataMarker);
    if |outer| < 2 then None
    else
      var rest := url[Find(url, DataMarker).value + |DataMarker|..];
      assert outer[1] == Split(rest, DataMarker)[0];
      SplitHeadFirst(rest, DataMarker);
      SplitHeadFirst(outer[1], VersionMarker);
      ContainsPrefix(Split(outer[1], VersionMarker)[0], outer[1], DataMarker);
      var r := Split(outer[1], VersionMarker)[0];
      assert r != outer[1] ==> OccursAt(rest, VersionMarker, |r|) by {
        if r != outer[1] {
          assert rest[|r|..|r| + |VersionMarker|] == outer[1][|r|..|r| + |VersionMarker|];
        }
      }
      Some(r)
  }

  /** The segment decoded twice (line 85-86). */
  function Decoded(raw: string): string {
    Percent.Unquote(Percent.Unquote(raw))
  }

  /** The decoded segment has six `&`-parts, each with an `=`. */
  predicate Readable(d: string) {
    |SplitOn(d, '&')| >= 6 && forall k :: 0 <= k < 6 ==> '=' in SplitOn(d, '&')[k]
  }

  /** The six fields in emission order. */
  function Values(f: Fields): seq<string> {
    [f.user, f.chatInstance, f.chatType, f.startParam, f.authDate, f.hash]
  }

  /** `part.split('=')[1]`: the text after the first `=`, up to the next `=`
      or the end of the part. */
  function Value(part: string): (v: string)
    requires '=' in part
    ensures '=' !in v
    ensures var i := IndexOf(part, '=').value;
      && v <= part[i + 1..]
      && (v != part[i + 1..] ==> part[i + 1 + |v|] == '=')
  {
    SplitOnSecond(part, '=');
    SplitOnAvoids(part, '=');
    SplitOn(part, '=')[1]
  }

  /** Lines 85-94: decode the segment twice, split it on `&`, and take the value
      of each of the first six parts. It fails exactly when the segment is
      missing, there are fewer than six parts, or one of them has no `=`; the
      k-th field is then the value of the k-th part. */
  function Parse(url: string): (r: Option<Fields>)
    ensures r.Some? <==> Segment(url).Some? && Readable(Decoded(Segment(url).value))
    ensures r.Some? ==> Clean(r.value)
    ensures r.Some? ==>
      var parts := SplitOn(Decoded(Segment(url).value), '&');
      |parts| >= 6 && forall k :: 0 <= k < 6 ==> '=' in parts[k] && Values(r.value)[k] == Value(parts[k])
  {
    match Segment(url)
    case None => None
    case Some(raw) =>
      var d := Decoded(raw);
      if !Readable(d) then None
      else
        var parts := SplitOn(d, '&');
        SplitOnAvoids(d, '&');
        ValueOfPiece(parts[0]);
        ValueOfPiece(parts[1]);
        ValueOfPiece(parts[2]);
        ValueOfPiece(parts[3]);
        ValueOfPiece(parts[4]);
        ValueOfPiece(parts[5]);
        var f := Fields(Value(parts[0]), Value(parts[1]), Value(parts[2]),
                        Value(parts[3]), Value(parts[4]), Value(parts[5]));
        assert Values(f) == [Value(parts[0]), Value(parts[1]), Value(parts[2]),
                             Value(parts[3]), Value(parts[4]), Value(parts[5])];
        Some(f)
  }

  /** A value taken from an `&`-free part contains neither `&` nor `=`. */
  lemma ValueOfPiece(part: string)
    requires '=' in part && '&' !in part
    ensures '&' !in Value(part) && '=' !in Value(part)
  {
  }

  /** The parse succeeds, in Python's own terms, exactly when the URL holds
      `tgWebAppData=` and the twice-decoded segment splits on `&` into at
      least six parts of which the first six each contain `=`. */
  lemma ParseSucceeds(url: string)
    ensures Parse(url).Some? <==>
      && Contains(url, DataMarker)
      && var parts := Split(Decoded(Segment(url).value), "&");
      && |parts| >= 6
      && forall k :: 0 <= k < 6 ==> Contains(parts[k], "=")
  {
    if Contains(url, DataMarker) {
      var d := Decoded(Segment(url).value);
      SplitOnIsSplit(d, '&');
      forall k | 0 <= k < |SplitOn(d, '&')|
        ensures Contains(SplitOn(d, '&')[k], "=") <==> '=' in SplitOn(d, '&')[k]
      {
        ContainsChar(SplitOn(d, '&')[k], '=');
      }
    }
  }

  /** When the first marker of `pre + DataMarker` is the one at its end, it is
      also the first marker of any URL that goes on from there. */
  lemma FirstMarker(pre: string, rest: string)
    requires Find(pre + DataMarker, DataMarker) == Some(|pre|)
    ensures Find(pre + DataMarker + rest, DataMarker) == Some(|pre|)
  {
    var url := pre + DataMarker + rest;
    assert url[|pre|..|pre| + |DataMarker|] == DataMarker;
    FindFirst(pre + DataMarker, DataMarker);
    forall k | 0 <= k < |pre|
      ensures !OccursAt(url, DataMarker, k)
    {
      assert !OccursAt(pre + DataMarker, DataMarker, k);
      assert url[k..k + |DataMarker|] == (pre + DataMarker)[k..k + |DataMarker|];
    }
    FindAt(url, DataMarker, |pre|);
  }

  /** No marker starts inside `seg` when `seg` holds neither `&` nor `=`. */
  lemma NoMarkerInside(seg: string, post: string, i: nat)
    requires '&' !in seg && '=' !in seg
    requires i < |seg|
    ensures !OccursAt(seg + VersionMarker + post, VersionMarker, i)
    ensures !OccursAt(seg + VersionMarker + post, DataMarker, i)
  {
    var rest := seg + VersionMarker + post;
    assert rest[i] == seg[i];
    var e := i + 12;
    if e < |seg| {
      assert rest[e] == seg[e];
    } else if e < |rest| {
      assert rest[e] == VersionMarker[e - |seg|];
    }
  }

  /** Nor does one start strictly inside `&tgWebAppVersion`, when no data
      marker follows it. */
  lemma NoMarkerWithinVersion(seg: string, post: string, i: nat)
    requires !Contains(VersionMarker + post, DataMarker)
    requires |seg| < i < |seg| + |VersionMarker|
    ensures !OccursAt(seg + VersionMarker + post, VersionMarker, i)
    ensures !OccursAt(seg + VersionMarker + post, DataMarker, i)
  {
    NoVersionWithinVersion(seg, post, i);
    NoDataWithinVersion(seg, post, i);
  }

  lemma NoVersionWithinVersion(seg: string, post: string, i: nat)
    requires |seg| < i < |seg| + |VersionMarker|
    ensures !OccursAt(seg + VersionMarker + post, VersionMarker, i)
  {
    var rest := seg + VersionMarker + post;
    var j := i - |seg|;
    assert rest[i] == VersionMarker[j];
    assert VersionMarker[1..] == "tgWebAppVersion";
    assert VersionMarker[j] == VersionMarker[1..][j - 1];
    if i + |VersionMarker| <= |rest| {
      assert rest[i..i + |VersionMarker|][0] == rest[i];
    }
  }

  lemma NoDataWithinVersion(seg: string, post: string, i: nat)
    requires !Contains(VersionMarker + post, DataMarker)
    requires |seg| < i
    ensures !OccursAt(seg + VersionMarker + post, DataMarker, i)
  {
    var tail := VersionMarker + post;
    var rest := seg + VersionMarker + post;
    assert rest == seg + tail;
    FindFirst(tail, DataMarker);
    assert !OccursAt(tail, DataMarker, i - |seg|);
    if i + |DataMarker| <= |rest| {
      assert rest[i..i + |DataMarker|] == tail[i - |seg|..i - |seg| + |DataMarker|];
    }
  }

  /** A prefix of `seg + VersionMarker + post` that reaches past the version
      marker contains it. */
  lemma LongPrefixHoldsVersion(seg: string, post: string, r: string)
    requires r <= seg + VersionMarker + post
    requires |seg| + |VersionMarker| <= |r|
    ensures Contains(r, VersionMarker)
  {
    var rest := seg + VersionMarker + post;
    assert r[|seg|..|seg| + |VersionMarker|] == rest[|seg|..|seg| + |VersionMarker|] == VersionMarker;
    assert OccursAt(r, VersionMarker, |seg|);
    FindFirst(r, VersionMarker);
  }

  /** A segment written between the two markers is read back whole, provided
      it holds neither `&` nor `=` (as percent-encoded text never does), the
      marker after `pre` is the first one, and no later marker follows. */
  lemma SegmentBetweenMarkers(pre: string, seg: string, post: string)
    requires Find(pre + DataMarker, DataMarker) == Some(|pre|)
    requires '&' !in seg && '=' !in seg
    requires !Contains(VersionMarker + post, DataMarker)
    ensures Segment(pre + DataMarker + seg + VersionMarker + post) == Some(seg)
  {
    var rest := seg + VersionMarker + post;
    var url := pre + DataMarker + rest;
    assert pre + DataMarker + seg + VersionMarker + post == url;
    FirstMarker(pre, rest);
    assert url[|pre| + |DataMarker|..] == rest;
    assert Contains(url, DataMarker);
    var r := Segment(url).value;
    assert r <= rest && |rest| == |seg| + |VersionMarker| + |post|;
    if |r| < |seg| {
      NoMarkerInside(seg, post, |r|);
    } else if |seg| + |VersionMarker| <= |r| {
      LongPrefixHoldsVersion(seg, post, r);
    } else if |seg| < |r| {
      NoMarkerWithinVersion(seg, post, |r|);
    }
    assert |r| == |seg|;
    assert r == rest[..|seg|] == seg;
    assert Segment(url) == Some(seg);
  }

  /** Every part as Telegram sends it, before `user` is re-encoded. */
  function RawPairs(f: Fields): seq<string> {
    ["user=" + f.user, "chat_instance=" + f.chatInstance, "chat_type=" + f.chatType,
     "start_param=" + f.startParam, "auth_date=" + f.authDate, "hash=" + f.hash]
  }

  predicate AsciiFields(f: Fields) {
    forall k :: 0 <= k < 6 ==> Percent.IsAscii(Values(f)[k])
  }

  /** Reading `key=value` back gives the value when neither holds `=`. */
  lemma ValueOfPair(key: string, v: string)
    requires '=' !in key && '=' !in v
    ensures '=' in key + "=" + v && Value(key + "=" + v) == v
  {
    var part := key + "=" + v;
    assert part[|key|] == '=';
    assert part[..|key|] == key;
    IndexOfAt(part, '=', |key|);
    assert part[|key| + 1..] == v;
  }

  lemma AsciiConcat(a: string, b: string)
    requires Percent.IsAscii(a) && Percent.IsAscii(b)
    ensures Percent.IsAscii(a + b)
  {
    forall k | 0 <= k < |a + b|
      ensures (a + b)[k] < 128 as char
    {
      if k >= |a| {
        assert (a + b)[k] == b[k - |a|];
      }
    }
  }

  lemma {:induction false} JoinAscii(parts: seq<string>, sep: string)
    requires Percent.IsAscii(sep)
    requires forall k :: 0 <= k < |parts| ==> Percent.IsAscii(parts[k])
    ensures Percent.IsAscii(Join(parts, sep))
    decreases |parts|
  {
    if |parts| > 1 {
      JoinAscii(parts[1..], sep);
      AsciiConcat(parts[0], sep);
      AsciiConcat(parts[0] + sep, Join(parts[1..], sep));
    }
  }

  /** One raw part `key=v` is ASCII, has no `&`, and reads back as `v`. */
  lemma PairReadBack(key: string, v: string)
    requires Percent.IsAscii(key + "=") && '&' !in key && '=' !in key
    requires Percent.IsAscii(v) && '&' !in v && '=' !in v
    ensures var part := key + "=" + v;
      Percent.IsAscii(part) && '&' !in part && '=' in part && Value(part) == v
  {
    AsciiConcat(key + "=", v);
    ValueOfPair(key, v);
  }

  /** Each raw part is ASCII, has no `&`, and reads back as its field. */
  lemma RawPairsReadBack(f: Fields)
    requires Clean(f) && AsciiFields(f)
    ensures forall k :: 0 <= k < 6 ==>
      && Percent.IsAscii(RawPairs(f)[k]) && '&' !in RawPairs(f)[k]
      && '=' in RawPairs(f)[k] && Value(RawPairs(f)[k]) == Values(f)[k]
  {
    forall k | 0 <= k < 6
      ensures Percent.IsAscii(RawPairs(f)[k]) && '&' !in RawPairs(f)[k]
      ensures '=' in RawPairs(f)[k] && Value(RawPairs(f)[k]) == Values(f)[k]
    {
      assert Percent.IsAscii(Values(f)[k]);
      assert RawPairs(f)[k] == Keys[k] + "=" + Values(f)[k];
      PairReadBack(Keys[k], Values(f)[k]);
    }
  }

  /** Quoting ASCII text twice gives text without `&` or `=` that the double
      `unquote` of lines 85-86 turns back into the text. */
  lemma QuoteTwice(s: string)
    requires Percent.IsAscii(s)
    ensures var q := Percent.Quote(Percent.Quote(s));
      '&' !in q && '=' !in q && Decoded(q) == s
  {
    var q1 := Percent.Quote(s);
    Percent.QuoteAscii(s);
    Percent.QuoteAlphabet(q1);
    Percent.UnquoteQuote(q1);
    Percent.UnquoteQuote(s);
  }

  /** Parsing undoes encoding: ASCII fields free of `&` and `=`, written as
      `key=value` parts joined by `&`, percent-encoded twice and placed between
      the markers of a launch URL, are parsed back exactly. */
  lemma ParseRoundTrip(f: Fields, pre: string, post: string)
    requires Clean(f) && AsciiFields(f)
    requires Find(pre + DataMarker, DataMarker) == Some(|pre|)
    requires !Contains(VersionMarker + post, DataMarker)
    ensures Parse(pre + DataMarker + Percent.Quote(Percent.Quote(Join(RawPairs(f), "&"))) + VersionMarker + post)
      == Some(f)
  {
    var pairs := RawPairs(f);
    RawPairsReadBack(f);
    var j := Join(pairs, "&");
    JoinAscii(pairs, "&");
    var q := Percent.Quote(Percent.Quote(j));
    QuoteTwice(j);
    SegmentBetweenMarkers(pre, q, post);
    var url := pre + DataMarker + q + VersionMarker + post;
    assert Decoded(Segment(url).value) == j;
    SplitOnJoin(pairs, '&');
    assert SplitOn(j, '&') == pairs;
    assert Readable(j);
    var r := Parse(url).value;
    assert Values(r) == Values(f);
  }

  /** No field holds a separator of the query syntax. */
  predicate Clean(f: Fields) {
    && '&' !in f.user && '=' !in f.user
    && '&' !in f.chatInstance && '=' !in f.chatInstance
    && '&' !in f.chatType && '=' !in f.chatType
    && '&' !in f.startParam && '=' !in f.startParam
    && '&' !in f.authDate && '=' !in f.authDate
    && '&' !in f.hash && '=' !in f.hash
  }

  /** The values as they appear in the emitted string: only `user` is re-encoded. */
  function Emitted(f: Fields): seq<string> {
    [Percent.Quote(f.user), f.chatInstance, f.chatType, f.startParam, f.authDate, f.hash]
  }

  /** Lines 96-99: the init-data string, each `&`-separated `key=value` part
      written in parentheses. */
  function Render(f: Fields): string {
    ("user=" + Percent.Quote(f.user))
    + "&" + ("chat_instance=" + f.chatInstance)
    + "&" + ("chat_type=" + f.chatType)
    + "&" + ("start_param=" + f.startParam)
    + "&" + ("auth_date=" + f.authDate)
    + "&" + ("hash=" + f.hash)
  }

  /** The whole of lines 85-99: the init-data string for a launch URL, or `None`
      when the URL lacks any of the pieces. */
  function InitDataOf(url: string): (r: Option<string>)
    ensures r.Some? <==> Parse(url).Some?
  {
    match Parse(url)
    case None => None
    case Some(f) => Some(Render(f))
  }

  /** What Telegram does during one `get_tg_web_data` call (lines 37-118):
      whether `connect` is refused because the session is unauthorised,
      deactivated or unregistered; whether `connect` and the peer lookup of
      lines 60-71 then get through without another exception; whether the
      70/30 draw of line 73 picks `get_link_code()` rather than REF_ID; the
      web-app URL (`None` when `RequestAppWebView` raised); and the first name
      `get_me` returns (`None` when it raised). */
  datatype Launch = Launch(
    revoked: bool,
    resolved: bool,
    pickLinkCode: bool,
    authUrl: Option<string>,
    firstName: Option<string>)

  /** What `get_tg_web_data` returns for a launch: `InvalidSession` re-raised,
      `None` after any swallowed error (including a URL the parser rejects), or
      the init-data string. */
  function WebDataFor(launch: Launch): (r: WebData)
    ensures r.InvalidSession? <==> launch.revoked
    ensures r.InitData? <==>
      && !launch.revoked && launch.resolved && launch.authUrl.Some?
      && Parse(launch.authUrl.value).Some? && launch.firstName.Some?
    ensures r.InitData? ==> InitDataOf(launch.authUrl.value) == Some(r.data)
  {
    if launch.revoked then InvalidSession
    else if !launch.resolved || launch.authUrl.None? then NoInitData
    else match InitDataOf(launch.authUrl.value)
      case None => NoInitData
      case Some(data) => if launch.firstName.None? then NoInitData else InitData(data)
  }

  /** The six `key=value` parts of the emitted string. */
  function Pairs(f: Fields): seq<string> {
    ["user=" + Percent.Quote(f.user), "chat_instance=" + f.chatInstance,
     "chat_type=" + f.chatType, "start_param=" + f.startParam,
     "auth_date=" + f.authDate, "hash=" + f.hash]
  }

  /** Joining one more part onto the joined prefix appends `&` and the part. */
  lemma JoinStep(parts: seq<string>, k: nat, r: string)
    requires 1 <= k < |parts|
    requires Join(parts[..k], "&") == r
    ensures Join(parts[..k + 1], "&") == r + "&" + parts[k]
  {
    JoinSnoc(parts[..k], parts[k], "&");
    assert parts[..k] + [parts[k]] == parts[..k + 1];
  }

  /** The emitted string is the six `key=value` parts in the fixed order, joined by `&`. */
  lemma RenderIsJoin(f: Fields)
    ensures Render(f) == Join(Pairs(f), "&")
  {
    var p := Pairs(f);
    var r := p[0];
    assert Join(p[..1], "&") == r;
    JoinStep(p, 1, r);
    r := r + "&" + p[1];
    JoinStep(p, 2, r);
    r := r + "&" + p[2];
    JoinStep(p, 3, r);
    r := r + "&" + p[3];
    JoinStep(p, 4, r);
    r := r + "&" + p[4];
    JoinStep(p, 5, r);
    assert p[..6] == p;
  }

  /** Each part is its key, `=`, and the emitted value. */
  lemma PairsAreKeyValue(f: Fields)
    ensures forall k :: 0 <= k < 6 ==> Pairs(f)[k] == Keys[k] + "=" + Emitted(f)[k]
  {
    assert "user=" == "user" + "=";
    assert "chat_instance=" == "chat_instance" + "=";
    assert "chat_type=" == "chat_type" + "=";
    assert "start_param=" == "start_param" + "=";
    assert "auth_date=" == "auth_date" + "=";
    assert "hash=" == "hash" + "=";
  }

  /** Reading the emitted string back the way the server does (split on `&`, then
      each part on `=`) yields exactly six fields, with the keys in the fixed
      order and the emitted values: so a parsed payload survives re-emission. */
  lemma {:induction false} RenderReadsBack(f: Fields)
    requires Clean(f)
    ensures |SplitOn(Render(f), '&')| == 6
    ensures forall k :: 0 <= k < 6 ==> SplitOn(SplitOn(Render(f), '&')[k], '=') == [Keys[k], Emitted(f)[k]]
  {
    var e := Emitted(f);
    var p := Pairs(f);
    Percent.QuoteAlphabet(f.user);
    RenderIsJoin(f);
    PairsAreKeyValue(f);
    forall k | 0 <= k < 6
      ensures '&' !in p[k] && SplitOn(p[k], '=') == [Keys[k], e[k]]
    {
      assert '&' !in e[k] && '=' !in e[k];
      KeyValueSplits(Keys[k], e[k]);
    }
    SplitOnJoin(p, '&');
  }

  /** `key=value` splits on `=` into the two when neither holds `=`, and holds
      no `&` when neither does. */
  lemma KeyValueSplits(key: string, v: string)
    requires '&' !in key && '=' !in key && '&' !in v && '=' !in v
    ensures '&' !in key + "=" + v
    ensures SplitOn(key + "=" + v, '=') == [key, v]
  {
    assert Join([key, v], "=") == key + "=" + v;
    SplitOnJoin([key, v], '=');
  }

  /** For every launch URL the parser accepts, the emitted init-data string has
      exactly six `key=value` fields joined by `&` in the order user,
      chat_instance, chat_type, start_param, auth_date, hash; `user` is the
      percent-encoded parsed value and the other five are copied verbatim. */
  lemma InitDataShape(url: string)
    requires Parse(url).Some?
    ensures var f := Parse(url).value;
      && InitDataOf(url) == Some(Render(f))
      && |SplitOn(Render(f), '&')| == 6
      && SplitOn(SplitOn(Render(f), '&')[0], '=') == ["user", Percent.Quote(f.user)]
      && SplitOn(SplitOn(Render(f), '&')[1], '=') == ["chat_instance", f.chatInstance]
      && SplitOn(SplitOn(Render(f), '&')[2], '=') == ["chat_type", f.chatType]
      && SplitOn(SplitOn(Render(f), '&')[3], '=') == ["start_param", f.startParam]
      && SplitOn(SplitOn(Render(f), '&')[4], '=') == ["auth_date", f.authDate]
      && SplitOn(SplitOn(Render(f), '&')[5], '=') == ["hash", f.hash]
  {
    var f := Parse(url).value;
    RenderReadsBack(f);
    var parts := SplitOn(Render(f), '&');
    assert SplitOn(parts[0], '=') == [Keys[0], Emitted(f)[0]];
    assert SplitOn(parts[1], '=') == [Keys[1], Emitted(f)[1]];
    assert SplitOn(parts[2], '=') == [Keys[2], Emitted(f)[2]];
    assert SplitOn(parts[3], '=') == [Keys[3], Emitted(f)[3]];
    assert SplitOn(parts[4], '=') == [Keys[4], Emitted(f)[4]];
    assert SplitOn(parts[5], '=') == [Keys[5], Emitted(f)[5]];
  }
}
