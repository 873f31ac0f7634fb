/** The token state machine of `Tapper.run` (bot/core/tapper.py lines 297-353):
    each pass of the `while True` loop is a round that either finds the access
    token still live or re-authenticates (web data, login, user info) and, on
    success, runs the quest pipeline. Clock readings and random draws are
    parameters of the round; the server's replies are oracles. */
module Session {
  import opened Optional
  import opened Config
  import opened Retry
  import opened InitData
  import opened Tasks

  /** `randint(3500, 3600)`, the token lifetime drawn at lines 306 and 334. */
  const LiveMin := 3500
  const LiveMax := 3600

  /** The pause after a failed login (line 319). */
  const LoginPause := 300

  /** `randint(800, 1000)` after the server rejects the user (line 327). */
  const StallMin := 800
  const StallMax := 1000

  /** `randint(60, 120)` after any other exception in a round (line 353). */
  const ErrorMin := 60
  const ErrorMax := 120

  /** What one `user_info` attempt returns: something whose `success` cannot be
      read (no `success` key), a falsy `success`, or a truthy one, with or without
      the `userData` and `gameData` fields that lines 336-337 read. */
  datatype UserInfoReply = Malformed | Rejected | Accepted(profileComplete: bool)

  /** The loop's local state: `access_token_created_time`, `token_live_time` and
      the `authorization` header of the HTTP session. */
  datatype Token = Token(createdAt: real, liveTime: int, authorization: Option<string>)

  /** The state before the first round: created at time 0, lifetime from line 306. */
  function Start(live: int): Token {
    Token(0.0, live, None)
  }

  /** The random draws a round may use: the SLEEP_TIME pause (line 309), a fresh
      lifetime (line 334), the stall after a rejection (line 327) and the pause
      after an exception (line 353). */
  datatype Draws = Draws(sleep: int, live: int, stall: int, error: int)

  predicate DrawsInRange(cfg: Settings, d: Draws) {
    && cfg.sleepMin <= d.sleep <= cfg.sleepMax
    && LiveMin <= d.live <= LiveMax
    && StallMin <= d.stall <= StallMax
    && ErrorMin <= d.error <= ErrorMax
  }

  /** The server's answers to the attempts of `login`, `user_info`,
      `get_all_tasks` and `verify_task` during one round. A login attempt that
      returns answers `Some(token)` or `None` for a missing token. */
  datatype Server = Server(
    login: Attempts<Option<string>>,
    userInfo: Attempts<UserInfoReply>,
    fetch: Attempts<seq<Task>>,
    answers: nat -> Replies)

  /** What `get_tg_web_data` returns for what Telegram does during the call;
      the tapper supplies `InitData.WebDataFor`. */
  type WebApp = Launch -> WebData

  /** One pass of the loop: `time()` at line 310, what `get_tg_web_data` meets,
      `time()` at line 333, the draws and the server. */
  datatype Round = Round(now: real, launch: Launch, authenticatedAt: real, draws: Draws, server: Server)

  /** How a round ends. */
  datatype Kind =
    | Fresh            // the token is live: only the SLEEP_TIME pause
    | SessionInvalid   // `InvalidSession` is re-raised and the loop ends
    | NoWebData        // `get_tg_web_data` returned `None`: `continue` at once
    | LoginFailed      // no truthy token: 300 s and `continue`
    | UserInfoFailed   // `user_info` gave `None` or no `success`: exception pause
    | UserRejected     // falsy `success`: lifetime zeroed, stall and `continue`
    | ProfileMissing   // profile fields missing after the token was renewed: exception pause
    | Authenticated    // renewed; quests run when AUTO_TASK is on

  /** The kind of a round, the pause the loop then takes, whether
      `processing_tasks` ran, and the quest calls it made. */
  datatype Outcome = Outcome(kind: Kind, pause: int, tasksRun: bool, calls: seq<Call>)

  /** Line 310: re-authentication is due once the lifetime has elapsed. */
  predicate Stale(tok: Token, now: real) {
    now - tok.createdAt >= tok.liveTime as real
  }

  /** `login`'s result reduced to what line 316 tests: a non-empty token. */
  function TokenOf(reply: Option<Option<string>>): (token: Option<string>)
    ensures token.Some? <==> reply.Some? && reply.value.Some? && reply.value.value != ""
    ensures token.Some? ==> token.value == reply.value.value
  {
    match reply
    case Some(Some(t)) => if t == "" then None else Some(t)
    case _ => None
  }

  /** The calls `processing_tasks` makes with this round's server. */
  function QuestCalls(cfg: Settings, server: Server): seq<Call> {
    Pipeline(cfg, FetchedTasks(server.fetch), server.answers, |FetchedTasks(server.fetch)|).0
  }

  /** Lines 323-340: which `user_info` result leads to which end of the round.
      `None` or a reply without `success` raises; a falsy `success` rejects;
      a truthy one renews, and the profile read then decides whether the
      round completes. */
  predicate ReplyDecides(info: Option<UserInfoReply>, kind: Kind) {
    && (kind == UserInfoFailed <==> info.None? || info.value.Malformed?)
    && (kind == UserRejected <==> info == Some(Rejected))
    && (kind == ProfileMissing <==> info == Some(Accepted(false)))
    && (kind == Authenticated <==> info == Some(Accepted(true)))
  }

  /** Lines 315-342, once init data is at hand: log in, sign the session,
      read the user, and renew the token and run the quests on success. */
  function Renew(cfg: Settings, tok: Token, round: Round): (out: (Token, Outcome))
    ensures out.1.kind in {LoginFailed, UserInfoFailed, UserRejected, ProfileMissing, Authenticated}
    ensures out.1.kind == LoginFailed <==> TokenOf(Retrying(round.server.login, DataRetries, 0).0).None?
    ensures out.1.kind == LoginFailed ==> out.0 == tok && out.1.pause == LoginPause
    ensures out.1.kind in {UserInfoFailed, UserRejected, ProfileMissing, Authenticated} ==>
      TokenOf(Retrying(round.server.login, DataRetries, 0).0).Some? &&
      out.0.authorization == Some("Bearer " + TokenOf(Retrying(round.server.login, DataRetries, 0).0).value)
    ensures out.1.kind == UserInfoFailed ==>
      out.0.createdAt == tok.createdAt && out.0.liveTime == tok.liveTime && out.1.pause == round.draws.error
    ensures out.1.kind == UserRejected ==>
      out.0.createdAt == tok.createdAt && out.0.liveTime == 0 && out.1.pause == round.draws.stall
    ensures out.1.kind in {ProfileMissing, Authenticated} ==>
      out.0.createdAt == round.authenticatedAt && out.0.liveTime == round.draws.live
    ensures out.1.kind == ProfileMissing ==> out.1.pause == round.draws.error
    ensures out.1.kind == Authenticated ==> out.1.pause == round.draws.sleep
    ensures out.1.tasksRun <==> out.1.kind == Authenticated && cfg.autoTask
    ensures out.1.tasksRun ==> out.1.calls == QuestCalls(cfg, round.server)
    ensures !out.1.tasksRun ==> out.1.calls == []
    ensures TokenOf(Retrying(round.server.login, DataRetries, 0).0).Some? ==>
      ReplyDecides(Retrying(round.server.userInfo, DataRetries, 0).0, out.1.kind)
  {
    var token := TokenOf(Retrying(round.server.login, DataRetries, 0).0);
    if token.None? then (tok, Outcome(LoginFailed, LoginPause, false, []))
    else
      var signed := tok.(authorization := Some("Bearer " + token.value));
      var info := Retrying(round.server.userInfo, DataRetries, 0).0;
      if info.None? || info.value.Malformed? then
        (signed, Outcome(UserInfoFailed, round.draws.error, false, []))
      else if info.value.Rejected? then
        (signed.(liveTime := 0), Outcome(UserRejected, round.draws.stall, false, []))
      else
        var renewed := signed.(createdAt := round.authenticatedAt, liveTime := round.draws.live);
        if !info.value.profileComplete then
          (renewed, Outcome(ProfileMissing, round.draws.error, false, []))
        else if cfg.autoTask then
          (renewed, Outcome(Authenticated, round.draws.sleep, true, QuestCalls(cfg, round.server)))
        else (renewed, Outcome(Authenticated, round.draws.sleep, false, []))
  }

  /** One round (lines 309-353): the new state and how the round ends. */
  function Step(cfg: Settings, app: WebApp, tok: Token, round: Round): (out: (Token, Outcome))
    ensures out.1.kind == Fresh <==> !Stale(tok, round.now)
    ensures out.1.kind == Fresh ==> out.0 == tok && out.1.pause == round.draws.sleep
    ensures out.1.kind in {SessionInvalid, NoWebData, LoginFailed} ==> out.0 == tok
    ensures out.1.kind == SessionInvalid <==> Stale(tok, round.now) && app(round.launch).InvalidSession?
    ensures out.1.kind == NoWebData <==> Stale(tok, round.now) && app(round.launch).NoInitData?
    ensures out.1.kind in {SessionInvalid, NoWebData} ==> out.1.pause == 0
    ensures out.1.kind == LoginFailed ==> out.1.pause == LoginPause
    ensures out.1.kind in {UserInfoFailed, UserRejected, ProfileMissing, Authenticated} ==>
      TokenOf(Retrying(round.server.login, DataRetries, 0).0).Some? &&
      out.0.authorization == Some("Bearer " + TokenOf(Retrying(round.server.login, DataRetries, 0).0).value)
    ensures out.1.kind == UserInfoFailed ==>
      out.0.createdAt == tok.createdAt && out.0.liveTime == tok.liveTime && out.1.pause == round.draws.error
    ensures out.1.kind == UserRejected ==>
      out.0.createdAt == tok.createdAt && out.0.liveTime == 0 && out.1.pause == round.draws.stall
    ensures out.1.kind in {ProfileMissing, Authenticated} ==>
      out.0.createdAt == round.authenticatedAt && out.0.liveTime == round.draws.live
    ensures out.1.kind == ProfileMissing ==> out.1.pause == round.draws.error
    ensures out.1.kind == Authenticated ==> out.1.pause == round.draws.sleep
    ensures out.1.tasksRun <==> out.1.kind == Authenticated && cfg.autoTask
    ensures out.1.tasksRun ==> out.1.calls == QuestCalls(cfg, round.server)
    ensures !out.1.tasksRun ==> out.1.calls == []
    ensures out.1.kind == LoginFailed <==>
      Stale(tok, round.now) && app(round.launch).InitData? && TokenOf(Retrying(round.server.login, DataRetries, 0).0).None?
    ensures Stale(tok, round.now) && app(round.launch).InitData? && TokenOf(Retrying(round.server.login, DataRetries, 0).0).Some? ==>
      ReplyDecides(Retrying(round.server.userInfo, DataRetries, 0).0, out.1.kind)
  {
    if !Stale(tok, round.now) then (tok, Outcome(Fresh, round.draws.sleep, false, []))
    else match app(round.launch)
      case InvalidSession => (tok, Outcome(SessionInvalid, 0, false, []))
      case NoInitData => (tok, Outcome(NoWebData, 0, false, []))
      case InitData(_) => Renew(cfg, tok, round)
  }

  /** The loop after `n` rounds: the outcomes so far, the state, and whether
      the loop has ended on `InvalidSession`. */
  datatype History = History(trace: seq<Outcome>, token: Token, ended: bool)

  function Rounds(cfg: Settings, app: WebApp, start: Token, rounds: seq<Round>, n: nat): History
    requires n <= |rounds|
    decreases n
  {
    if n == 0 then History([], start, false)
    else
      var prev := Rounds(cfg, app, start, rounds, n - 1);
      if prev.ended then prev
      else
        var step := Step(cfg, app, prev.token, rounds[n - 1]);
        History(prev.trace + [step.1], step.0, step.1.kind == SessionInvalid)
  }

  /** `login` (lines 182-203): at most 8 attempts, `None` after the last failure. */
  method Login(attempt: Attempts<Option<string>>) returns (reply: Option<Option<string>>, attempts: nat)
    ensures 1 <= attempts <= 8
    ensures reply == attempt(attempts - 1)
    ensures forall k :: 0 <= k < attempts - 1 ==> attempt(k).None?
    ensures reply.None? ==> attempts == 8
    ensures (reply, attempts) == Retrying(attempt, DataRetries, 0)
  {
    reply, attempts := Attempt(attempt, DataRetries);
  }

  /** `user_info` (lines 205-223): at most 8 attempts, `None` after the last failure. */
  method UserInfo(attempt: Attempts<UserInfoReply>) returns (reply: Option<UserInfoReply>, attempts: nat)
    ensures 1 <= attempts <= 8
    ensures reply == attempt(attempts - 1)
    ensures forall k :: 0 <= k < attempts - 1 ==> attempt(k).None?
    ensures reply.None? ==> attempts == 8
    ensures (reply, attempts) == Retrying(attempt, DataRetries, 0)
  {
    reply, attempts := Attempt(attempt, DataRetries);
  }

  /** The lifetime is either zero (forced by a rejection) or a draw from [3500, 3600]. */
  predicate LiveWindow(tok: Token) {
    tok.liveTime == 0 || LiveMin <= tok.liveTime <= LiveMax
  }

  /** A set header is `Bearer ` followed by a non-empty token (a proper prefix). */
  predicate Signed(tok: Token) {
    tok.authorization.Some? ==>
      "Bearer " < tok.authorization.value
  }

  predicate AllDrawsInRange(cfg: Settings, rounds: seq<Round>) {
    forall i :: 0 <= i < |rounds| ==> DrawsInRange(cfg, rounds[i].draws)
  }

  /** The clock never runs backwards: within a round `time()` at line 333 is
      not before line 310, and the next round starts no earlier. */
  predicate ClockOrdered(start: Token, rounds: seq<Round>) {
    && (|rounds| > 0 ==> start.createdAt <= rounds[0].now)
    && (forall i :: 0 <= i < |rounds| ==> rounds[i].now <= rounds[i].authenticatedAt)
    && (forall i :: 0 <= i < |rounds| - 1 ==> rounds[i].authenticatedAt <= rounds[i + 1].now)
  }

  /** One round keeps the lifetime window and the header shape. */
  lemma StepKeepsWindow(cfg: Settings, app: WebApp, tok: Token, round: Round)
    requires LiveWindow(tok) && Signed(tok) && DrawsInRange(cfg, round.draws)
    ensures LiveWindow(Step(cfg, app, tok, round).0) && Signed(Step(cfg, app, tok, round).0)
  {
    var step := Step(cfg, app, tok, round);
    if step.1.kind in {UserInfoFailed, UserRejected, ProfileMissing, Authenticated} {
      var t := TokenOf(Retrying(round.server.login, DataRetries, 0).0).value;
      assert step.0.authorization.value == "Bearer " + t;
    }
  }

  /** The round after `n` rounds, when the loop has not ended. */
  lemma RoundsStep(cfg: Settings, app: WebApp, start: Token, rounds: seq<Round>, n: nat)
    requires n < |rounds| && !Rounds(cfg, app, start, rounds, n).ended
    ensures var prev := Rounds(cfg, app, start, rounds, n);
      var step := Step(cfg, app, prev.token, rounds[n]);
      Rounds(cfg, app, start, rounds, n + 1) == History(prev.trace + [step.1], step.0, step.1.kind == SessionInvalid)
  {
  }

  /** With every draw in range, the lifetime stays 0 or within [3500, 3600] and
      the header stays `Bearer <token>` through any number of rounds. */
  lemma {:induction false} WindowKept(cfg: Settings, app: WebApp, start: Token, rounds: seq<Round>, n: nat)
    requires n <= |rounds|
    requires LiveWindow(start) && Signed(start)
    requires AllDrawsInRange(cfg, rounds)
    ensures LiveWindow(Rounds(cfg, app, start, rounds, n).token)
    ensures Signed(Rounds(cfg, app, start, rounds, n).token)
    decreases n
  {
    if n > 0 {
      WindowKept(cfg, app, start, rounds, n - 1);
      if !Rounds(cfg, app, start, rounds, n - 1).ended {
        StepKeepsWindow(cfg, app, Rounds(cfg, app, start, rounds, n - 1).token, rounds[n - 1]);
        RoundsStep(cfg, app, start, rounds, n - 1);
      }
    }
  }

  /** The token was never created after the current round's clock reading. */
  lemma {:induction false} CreatedNotAhead(cfg: Settings, app: WebApp, start: Token, rounds: seq<Round>, n: nat)
    requires n < |rounds|
    requires ClockOrdered(start, rounds)
    ensures Rounds(cfg, app, start, rounds, n).token.createdAt <= rounds[n].now
    decreases n
  {
    if n > 0 {
      CreatedNotAhead(cfg, app, start, rounds, n - 1);
      assert rounds[n - 1].now <= rounds[n - 1].authenticatedAt <= rounds[n].now;
    }
  }

  /** The loop stops for good at `InvalidSession`: later rounds change nothing,
      and an ended loop's last outcome is that exception. */
  lemma {:induction false} EndIsFinal(cfg: Settings, app: WebApp, start: Token, rounds: seq<Round>, n: nat, m: nat)
    requires n <= m <= |rounds|
    requires Rounds(cfg, app, start, rounds, n).ended
    ensures Rounds(cfg, app, start, rounds, m) == Rounds(cfg, app, start, rounds, n)
    decreases m - n
  {
    if n < m {
      EndIsFinal(cfg, app, start, rounds, n, m - 1);
    }
  }

  /** One outcome per round until the loop ends, and it ends only on `InvalidSession`. */
  lemma {:induction false} OneOutcomePerRound(cfg: Settings, app: WebApp, start: Token, rounds: seq<Round>, n: nat)
    requires n <= |rounds|
    ensures var h := Rounds(cfg, app, start, rounds, n);
      && |h.trace| <= n
      && (!h.ended ==> |h.trace| == n)
      && (forall k :: 0 <= k < |h.trace| - 1 ==> h.trace[k].kind != SessionInvalid)
      && (h.ended <==> |h.trace| > 0 && h.trace[|h.trace| - 1].kind == SessionInvalid)
    decreases n
  {
    if n > 0 {
      OneOutcomePerRound(cfg, app, start, rounds, n - 1);
    }
  }

  /** The outcome of round `n`, once the first `n + 1` rounds have run
      without ending the loop, is that of one step from the state after `n`. */
  lemma {:induction false} LastOutcome(cfg: Settings, app: WebApp, start: Token, rounds: seq<Round>, n: nat)
    requires n < |rounds| && !Rounds(cfg, app, start, rounds, n + 1).ended
    ensures !Rounds(cfg, app, start, rounds, n).ended
    ensures |Rounds(cfg, app, start, rounds, n + 1).trace| == n + 1
    ensures var prev := Rounds(cfg, app, start, rounds, n);
      var step := Step(cfg, app, prev.token, rounds[n]);
      && Rounds(cfg, app, start, rounds, n + 1).trace[n] == step.1
      && Rounds(cfg, app, start, rounds, n + 1).token == step.0
  {
    var prev := Rounds(cfg, app, start, rounds, n);
    assert Rounds(cfg, app, start, rounds, n + 1).ended || !prev.ended;
    OneOutcomePerRound(cfg, app, start, rounds, n);
    RoundsStep(cfg, app, start, rounds, n);
  }

  /** A rejected user forces re-authentication in the very next round, however
      little time has passed, provided the clock does not run backwards: the
      zeroed lifetime has always elapsed. */
  lemma RejectionForcesReauth(cfg: Settings, app: WebApp, start: Token, rounds: seq<Round>, n: nat)
    requires n + 1 < |rounds|
    requires ClockOrdered(start, rounds)
    requires !Rounds(cfg, app, start, rounds, n + 1).ended && |Rounds(cfg, app, start, rounds, n + 1).trace| > n
    requires Rounds(cfg, app, start, rounds, n + 1).trace[n].kind == UserRejected
    ensures Rounds(cfg, app, start, rounds, n + 2).trace[n + 1].kind != Fresh
  {
    LastOutcome(cfg, app, start, rounds, n);
    var prev := Rounds(cfg, app, start, rounds, n);
    var h := Rounds(cfg, app, start, rounds, n + 1);
    var rejection := Step(cfg, app, prev.token, rounds[n]);
    assert h.trace[n] == rejection.1 && h.token == rejection.0;
    CreatedNotAhead(cfg, app, start, rounds, n);
    assert rounds[n].now <= rounds[n].authenticatedAt <= rounds[n + 1].now;
    assert h.token.liveTime == 0 && h.token.createdAt == prev.token.createdAt;
    assert Stale(h.token, rounds[n + 1].now);
    RoundsStep(cfg, app, start, rounds, n + 1);
    var next := Step(cfg, app, h.token, rounds[n + 1]);
    assert Rounds(cfg, app, start, rounds, n + 2).trace == h.trace + [next.1];
    assert Rounds(cfg, app, start, rounds, n + 2).trace[n + 1] == next.1;
  }

  /** After a renewal the following round finds the token fresh exactly when
      less than the new lifetime has passed since line 333's clock reading. */
  lemma RenewedStep(cfg: Settings, app: WebApp, tok: Token, round: Round, later: Round)
    requires Step(cfg, app, tok, round).1.kind in {Authenticated, ProfileMissing}
    ensures Step(cfg, app, Step(cfg, app, tok, round).0, later).1.kind == Fresh <==>
      later.now - round.authenticatedAt < round.draws.live as real
  {
    var renewed := Step(cfg, app, tok, round).0;
    assert renewed.createdAt == round.authenticatedAt && renewed.liveTime == round.draws.live;
  }

  /** After a full renewal the next round re-authenticates exactly when the
      freshly drawn lifetime has elapsed since line 333's clock reading. */
  lemma RenewalSetsWindow(cfg: Settings, app: WebApp, start: Token, rounds: seq<Round>, n: nat)
    requires n + 1 < |rounds|
    requires !Rounds(cfg, app, start, rounds, n + 1).ended && |Rounds(cfg, app, start, rounds, n + 1).trace| > n
    requires Rounds(cfg, app, start, rounds, n + 1).trace[n].kind in {Authenticated, ProfileMissing}
    ensures Rounds(cfg, app, start, rounds, n + 2).trace[n + 1].kind == Fresh <==>
      rounds[n + 1].now - rounds[n].authenticatedAt < rounds[n].draws.live as real
  {
    LastOutcome(cfg, app, start, rounds, n);
    var prev := Rounds(cfg, app, start, rounds, n);
    var h := Rounds(cfg, app, start, rounds, n + 1);
    var renewal := Step(cfg, app, prev.token, rounds[n]);
    assert h.trace[n] == renewal.1 && h.token == renewal.0;
    RenewedStep(cfg, app, prev.token, rounds[n], rounds[n + 1]);
    RoundsStep(cfg, app, start, rounds, n + 1);
    var next := Step(cfg, app, h.token, rounds[n + 1]);
    assert Rounds(cfg, app, start, rounds, n + 2).trace == h.trace + [next.1];
    assert Rounds(cfg, app, start, rounds, n + 2).trace[n + 1] == next.1;
  }

  /** A round that fails before the token is renewed (no web data, failed
      login, unreadable user info) leaves the lifetime and creation time as
      they were, so with the clock moving forward the next round is stale too. */
  lemma FailureStaysStale(cfg: Settings, app: WebApp, tok: Token, round: Round, later: real)
    requires Stale(tok, round.now) && round.now <= later
    requires Step(cfg, app, tok, round).1.kind in {NoWebData, LoginFailed, UserInfoFailed}
    ensures Stale(Step(cfg, app, tok, round).0, later)
  {
  }
}
