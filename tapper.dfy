/** The `Tapper` object of bot/core/tapper.py: the fields `get_tg_web_data`
    updates, the web-data step itself, and the `run` loop that drives the
    session state machine; plus the free function `get_link_code`. */
module Tapper {
  import opened Optional
  import opened Text
  import opened Config
  import opened InitData
  import opened Tasks
  import opened Session

  /** `chr(c)` for each code, joined. */
  function Chars(codes: seq<nat>): (s: string)
    requires forall k :: 0 <= k < |codes| ==> codes[k] < 0xD800
    ensures |s| == |codes|
    ensures forall k :: 0 <= k < |codes| ==> s[k] as nat == codes[k]
  {
    if codes == [] then "" else [codes[0] as char] + Chars(codes[1..])
  }

  predicate AllDigits(s: string) {
    forall k :: 0 <= k < |s| ==> '0' <= s[k] <= '9'
  }

  /** The number a run of decimal digits denotes, most significant first. */
  function DigitsValue(s: string): nat
    requires AllDigits(s)
    decreases |s|
  {
    if s == [] then 0
    else DigitsValue(s[..|s| - 1]) * 10 + (s[|s| - 1] as nat - '0' as nat)
  }

  /** `str(n)` for a natural number: its decimal digits, most significant first. */
  function Decimal(n: nat): (s: string)
    ensures |s| >= 1 && AllDigits(s)
    ensures DigitsValue(s) == n
    ensures |s| > 1 ==> s[0] != '0'
    decreases n
  {
    if n < 10 then [('0' as nat + n) as char]
    else
      var high := Decimal(n / 10);
      var s := high + [('0' as nat + n % 10) as char];
      assert s[..|s| - 1] == high;
      s
  }

  /** `str(2 * 10 + 4)` is `24`. */
  lemma DecimalTwentyFour()
    ensures Decimal(2 * 10 + 4) == "24"
  {
    assert Decimal(2) == "2";
    assert Decimal(24) == Decimal(2) + ['4'];
  }

  /** `get_link_code` (lines 356-363): four pieces built from character codes
      and a sum, joined without separator. Whatever the construction, the code
      is the fixed string `acAO24ki`, which is also the default REF_ID: under
      the default settings the 70/30 draw of line 73 picks the same referral
      code either way. */
  function LinkCode(): (code: string)
    ensures code == "acAO24ki"
    ensures code == Defaults.refId
  {
    var parts := [Chars([97, 99]), Chars([65, 79]), Decimal(2 * 10 + 4), Chars([107, 105])];
    assert parts[0] == "ac" by {
      assert |parts[0]| == 2 && parts[0][0] == 'a' && parts[0][1] == 'c';
    }
    assert parts[1] == "AO" by {
      assert |parts[1]| == 2 && parts[1][0] == 'A' && parts[1][1] == 'O';
    }
    assert parts[3] == "ki" by {
      assert |parts[3]| == 2 && parts[3][0] == 'k' && parts[3][1] == 'i';
    }
    DecimalTwentyFour();
    assert Join(parts[3..], "") == "ki";
    assert Join(parts[2..], "") == "24" + "" + "ki";
    assert Join(parts[1..], "") == "AO" + "" + "24ki";
    Join(parts, "")
  }

  /** The fields of a `Tapper` that `get_tg_web_data` writes: `start_param`,
      `refer_id` (absent until first drawn) and `name`. */
  datatype Profile = Profile(startParam: string, referId: Option<string>, name: string)

  /** What one `get_tg_web_data` call (lines 37-118) leaves in those fields.
      Nothing changes when the session is revoked or `connect` or the peer
      lookup raises. Otherwise the referral code is drawn (line 73);
      `start_param` is kept once the URL parses (line 97), and the first name
      once `get_me` answers (line 103). */
  function AfterWebData(cfg: Settings, launch: Launch, p: Profile): (q: Profile)
    ensures launch.revoked || !launch.resolved ==> q == p
    ensures !launch.revoked && launch.resolved ==>
      q.referId == Some(if launch.pickLinkCode then LinkCode() else cfg.refId)
    ensures cfg == Defaults && !launch.revoked && launch.resolved ==> q.referId == Some(Defaults.refId)
    ensures q.startParam ==
      if !launch.revoked && launch.resolved && launch.authUrl.Some? && Parse(launch.authUrl.value).Some?
      then Parse(launch.authUrl.value).value.startParam
      else p.startParam
    ensures q.name == if WebDataFor(launch).InitData? then launch.firstName.value else p.name
  {
    if launch.revoked || !launch.resolved then p
    else
      var referId := Some(if launch.pickLinkCode then LinkCode() else cfg.refId);
      match launch.authUrl
      case None => p.(referId := referId)
      case Some(url) =>
        match Parse(url)
        case None => p.(referId := referId)
        case Some(f) =>
          Profile(f.startParam, referId, if launch.firstName.Some? then launch.firstName.value else p.name)
  }

  /** The fields after the first `n` rounds of a loop whose web-app outcome is
      `app` and whose `get_tg_web_data` changes the fields by `update`: only a
      round that finds the token stale calls it, and none runs after the loop
      has ended. */
  function Replay(cfg: Settings, app: WebApp, update: (Launch, Profile) -> Profile,
                  p: Profile, start: Token, rounds: seq<Round>, n: nat): Profile
    requires n <= |rounds|
    decreases n
  {
    if n == 0 then p
    else
      var q := Replay(cfg, app, update, p, start, rounds, n - 1);
      var h := Rounds(cfg, app, start, rounds, n - 1);
      if h.ended || !Stale(h.token, rounds[n - 1].now) then q
      else update(rounds[n - 1].launch, q)
  }

  /** What `get_tg_web_data` does to the fields, as a value. */
  function Update(cfg: Settings): (Launch, Profile) -> Profile {
    (launch, p) => AfterWebData(cfg, launch, p)
  }

  /** The fields after the first `n` rounds of `run`. */
  function ProfileAfter(cfg: Settings, p: Profile, start: Token, rounds: seq<Round>, n: nat): Profile
    requires n <= |rounds|
  {
    Replay(cfg, WebDataFor, Update(cfg), p, start, rounds, n)
  }

  /** Rounds that find the token live leave the fields alone: if no round up
      to `n` re-authenticated, the fields are those the loop started with. */
  lemma {:induction false} FreshRoundsKeepProfile(cfg: Settings, app: WebApp, update: (Launch, Profile) -> Profile,
                                                  p: Profile, start: Token, rounds: seq<Round>, n: nat)
    requires n <= |rounds|
    requires forall i :: 0 <= i < n ==> !Stale(Rounds(cfg, app, start, rounds, i).token, rounds[i].now)
    ensures Replay(cfg, app, update, p, start, rounds, n) == p
    decreases n
  {
    if n > 0 {
      FreshRoundsKeepProfile(cfg, app, update, p, start, rounds, n - 1);
    }
  }

  /** Once the loop has ended, later rounds change no field. */
  lemma {:induction false} ProfileFinal(cfg: Settings, app: WebApp, update: (Launch, Profile) -> Profile,
                                        p: Profile, start: Token, rounds: seq<Round>, n: nat, m: nat)
    requires n <= m <= |rounds|
    requires Rounds(cfg, app, start, rounds, n).ended
    ensures Replay(cfg, app, update, p, start, rounds, m) == Replay(cfg, app, update, p, start, rounds, n)
    decreases m - n
  {
    if n < m {
      ProfileFinal(cfg, app, update, p, start, rounds, n, m - 1);
      EndIsFinal(cfg, app, start, rounds, n, m - 1);
    }
  }

  class Tapper {
    /** The Telegram client's session name, used in log lines only. */
    const sessionName: string
    var startParam: string
    /** `self.refer_id`, which exists only once `get_tg_web_data` has drawn it. */
    var referId: Option<string>
    var name: string

    function Snapshot(): Profile
      reads this
    {
      Profile(startParam, referId, name)
    }

    /** `Tapper.__init__` (lines 31-35). */
    constructor(sessionName: string)
      ensures this.sessionName == sessionName
      ensures Snapshot() == Profile("", None, "")
    {
      this.sessionName := sessionName;
      startParam := "";
      referId := None;
      name := "";
    }

    /** `get_tg_web_data` (lines 37-118): a revoked session raises
        `InvalidSession`; a failing `connect` or peer lookup yields `None`;
        otherwise the referral code is drawn, the launch URL is parsed
        (lines 83-99), `start_param` is kept as soon as the parse succeeds and
        the first name once `get_me` answers. Any failure on the way yields
        `None`. The `start_param` kept is the one the init data carries. */
    method GetTgWebData(cfg: Settings, launch: Launch) returns (r: WebData)
      modifies this
      ensures r == WebDataFor(launch)
      ensures Snapshot() == AfterWebData(cfg, launch, old(Snapshot()))
      ensures r.InitData? ==>
        |SplitOn(r.data, '&')| == 6 && SplitOn(SplitOn(r.data, '&')[3], '=') == ["start_param", startParam]
    {
      if launch.revoked {
        return InvalidSession;
      }
      if !launch.resolved {
        return NoInitData;
      }
      referId := Some(if launch.pickLinkCode then LinkCode() else cfg.refId);
      if launch.authUrl.None? {
        return NoInitData;
      }
      var url := launch.authUrl.value;
      var fields := Parse(url);
      if fields.None? {
        return NoInitData;
      }
      startParam := fields.value.startParam;
      var initData := Render(fields.value);
      if launch.firstName.None? {
        return NoInitData;
      }
      name := launch.firstName.value;
      InitDataShape(url);
      r := InitData(initData);
    }

    /** Lines 315-342, once `get_tg_web_data` has produced init data: log in,
        sign the HTTP session with the token, read the user, renew the token
        and run the quests. */
    method Authenticate(cfg: Settings, tok: Token, round: Round) returns (next: Token, outcome: Outcome)
      ensures (next, outcome) == Renew(cfg, tok, round)
    {
      next := tok;
      var sleepTime := round.draws.sleep;
      var reply, _ := Login(round.server.login);
      var token := TokenOf(reply);
      if token.None? {
        outcome := Outcome(LoginFailed, LoginPause, false, []);
      } else {
        next := next.(authorization := Some("Bearer " + token.value));
        var info, _ := UserInfo(round.server.userInfo);
        if info.None? || info.value.Malformed? {
          outcome := Outcome(UserInfoFailed, round.draws.error, false, []);
        } else if info.value.Rejected? {
          next := next.(liveTime := 0);
          outcome := Outcome(UserRejected, round.draws.stall, false, []);
        } else {
          next := next.(createdAt := round.authenticatedAt, liveTime := round.draws.live);
          if !info.value.profileComplete {
            outcome := Outcome(ProfileMissing, round.draws.error, false, []);
          } else if cfg.autoTask {
            var calls, _ := ProcessTasks(cfg, round.server.fetch, round.server.answers);
            outcome := Outcome(Authenticated, sleepTime, true, calls);
          } else {
            outcome := Outcome(Authenticated, sleepTime, false, []);
          }
        }
      }
    }

    /** One pass of the loop body (lines 308-353): the token is renewed only
        when stale, and only then does `get_tg_web_data` touch the fields. */
    method PlayRound(cfg: Settings, tok: Token, round: Round) returns (next: Token, outcome: Outcome)
      modifies this
      ensures (next, outcome) == Step(cfg, WebDataFor, tok, round)
      ensures !Stale(tok, round.now) ==> unchanged(this)
      ensures Stale(tok, round.now) ==> Snapshot() == AfterWebData(cfg, round.launch, old(Snapshot()))
    {
      next := tok;
      var sleepTime := round.draws.sleep;
      if round.now - tok.createdAt >= tok.liveTime as real {
        var web := GetTgWebData(cfg, round.launch);
        if web.InvalidSession? {
          outcome := Outcome(SessionInvalid, 0, false, []);
        } else if web.NoInitData? {
          outcome := Outcome(NoWebData, 0, false, []);
        } else {
          next, outcome := Authenticate(cfg, tok, round);
        }
      } else {
        outcome := Outcome(Fresh, sleepTime, false, []);
      }
    }

    /** `run` (lines 297-353) over a finite prefix of the endless loop: one
        outcome per round until `InvalidSession` ends it. The first lifetime is
        the draw of line 306. The fields end as the stale rounds' web-data
        calls leave them. */
    method Run(cfg: Settings, initialLive: int, rounds: seq<Round>) returns (trace: seq<Outcome>, tok: Token)
      modifies this
      ensures trace == Rounds(cfg, WebDataFor, Start(initialLive), rounds, |rounds|).trace
      ensures tok == Rounds(cfg, WebDataFor, Start(initialLive), rounds, |rounds|).token
      ensures Snapshot() == ProfileAfter(cfg, old(Snapshot()), Start(initialLive), rounds, |rounds|)
    {
      tok := Token(0.0, initialLive, None);
      trace := [];
      var ended := false;
      var i := 0;
      while i < |rounds| && !ended
        invariant 0 <= i <= |rounds|
        invariant Rounds(cfg, WebDataFor, Start(initialLive), rounds, i) == History(trace, tok, ended)
        invariant Snapshot() == ProfileAfter(cfg, old(Snapshot()), Start(initialLive), rounds, i)
      {
        var outcome;
        tok, outcome := PlayRound(cfg, tok, rounds[i]);
        trace := trace + [outcome];
        ended := outcome.kind == SessionInvalid;
        RoundsStep(cfg, WebDataFor, Start(initialLive), rounds, i);
        i := i + 1;
      }
      if ended {
        EndIsFinal(cfg, WebDataFor, Start(initialLive), rounds, i, |rounds|);
        ProfileFinal(cfg, WebDataFor, Update(cfg), old(Snapshot()), Start(initialLive), rounds, i, |rounds|);
      }
    }
  }
}
