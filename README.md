# Paws tapper: a verified model of the session and quest core

This project models the core of an unattended "tapper" for the Paws web app:
the `Tapper` class of `bot/core/tapper.py` and the free function
`get_link_code`. It covers:

- **Web data** (`get_tg_web_data`). The tapper turns the web-app launch URL that
  Telegram returns into the init-data string sent to `/user/auth`. The query
  segment is decoded twice and split on `&`. Six `key=value` fields are read in
  a fixed order, and only `user` is percent-encoded again (modules `InitData`,
  `Percent`, `Text`).
- **Retries** (`login`, `user_info`, `get_all_tasks`, `verify_task`). Each call
  retries itself while `retry < 7` (or `< 20` for `verify_task`). After the last
  failure it returns `None` (module `Retry`).
- **Quests** (`processing_tasks`). Unclaimed, non-disabled quests other than telegram
  ones get a `/quests/completed` call until the batch stops. A claim follows
  when that call returned true.
  Telegram quests join a channel only when JOIN_TG_CHANNELS is on (modules
  `Tasks`, `ChannelLink`).
- **The token state machine** (`run`). The tapper re-authenticates once the drawn
  lifetime has elapsed. How each failure sets the lifetime, the creation time
  and the pause is modelled. The loop ends on `InvalidSession` (module
  `Session`).
- **The object** (class `Tapper.Tapper`). Its fields are updated by
  `get_tg_web_data`. Methods drive the loop. Each method is proved equal to the
  specification functions above.

Outside effects are parameters. Telegram's behaviour during one
`get_tg_web_data` call is an `InitData.Launch` value. Every server call is an
oracle `nat -> Option<T>`, where attempt `k` either raised (`None`) or returned a
value. `time()` readings and `randint` draws are fields of a `Session.Round`.
The endless `while True` loop is modelled over any finite sequence of rounds.

Python's string operations are written out in `Text`:
- `find` is `Find`.
- `in` is `Contains`.
- `split` is `Split`; for a one-character separator it is `SplitOn`, and
  `Text.SplitOnIsSplit` proves the two equal.
- `join` is `Join`.
- The clamping slice `s[k:]` is `SliceFrom`.

Behaviour of the code that is easy to misread, and what the model does:

- **Web data missing.** When `get_tg_web_data` returns `None`, the loop
  continues at once (lines 312-313). No 300 s pause is taken.
- **Login fails.** A falsy token gives a 300 s pause and changes neither the
  lifetime nor the creation time (lines 316-320).
- **Falsy `success` from `user_info`.** The lifetime is set to 0 and the loop
  stalls 800-1000 s (lines 325-331).
- **`user_info` returns `None`.** Indexing it raises, and the outer handler
  pauses 60-120 s (line 353).
- **`continue` paths.** Rounds that `continue` skip the SLEEP_TIME pause.
- **Telegram quests.** With JOIN_TG_CHANNELS on, line 254 reads the undefined
  name `retry`. The NameError ends the whole quest batch, and the model
  reproduces that. The join receives the chat name as lines 136-137 compute
  it, so a private invite link is joined as `https:`.
- **Referral draw.** `self.refer_id` is drawn only once `connect` and the peer
  lookup have succeeded (line 73). A launch that fails before then leaves it
  as it was.

## Model

| member | source | states |
|---|---|---|
| Text.SplitOnIsSplit | bot/core/tapper.py:87-94 | splitting on a one-character separator as the parser does is Python's `str.split` with that separator |
| Percent.QuoteAlphabet | bot/core/tapper.py:96 | `quote(user_data)` emits only safe characters, `%` and hex digits, so never `&` or `=` |
| Percent.QuoteSafeIdentity | bot/core/tapper.py:96 | `quote` leaves a string of unreserved characters and `/` unchanged |
| Percent.UnquoteQuote | bot/core/tapper.py:85-96 | on ASCII text `unquote` undoes `quote` |
| InitData.Segment | bot/core/tapper.py:85-86 | a segment exists exactly when the URL contains `tgWebAppData=`; it is a prefix of the text after the first marker, contains neither marker, and is all of that text or ends where `&tgWebAppVersion` or a second `tgWebAppData=` begins |
| InitData.Value | bot/core/tapper.py:89-94 | `part.split('=')[1]` is the `=`-free text right after the first `=`, ending at the next `=` or at the end of the part |
| InitData.ValueOfPiece | bot/core/tapper.py:87-94 | a value read from an `&`-free part holds neither `&` nor `=` |
| InitData.Parse | bot/core/tapper.py:85-94 | the parse succeeds exactly when the segment exists and its twice-decoded text splits on `&` into at least six parts of which the first six hold `=`; the k-th field is then the value of the k-th part, and no field holds `&` or `=` |
| InitData.ParseSucceeds | bot/core/tapper.py:85-94 | in Python's own terms, the parse succeeds exactly when `tgWebAppData=` is in the URL and the twice-decoded segment's `split('&')` has at least six parts, the first six each containing `=` |
| InitData.SegmentBetweenMarkers | bot/core/tapper.py:85-86 | a segment free of `&` and `=` written after the first `tgWebAppData=` and before `&tgWebAppVersion`, with no later data marker, is cut out exactly |
| InitData.QuoteTwice | bot/core/tapper.py:85-86 | ASCII text percent-encoded twice holds no `&` or `=`, and the two `unquote` calls give the text back |
| InitData.RawPairsReadBack | bot/core/tapper.py:87-94 | each `key=value` part of clean ASCII fields is ASCII, `&`-free, and reads back as its field |
| InitData.ParseRoundTrip | bot/core/tapper.py:85-94 | parsing undoes encoding: clean ASCII fields written as `key=value` parts joined by `&`, encoded twice and placed between the markers, parse back to exactly those fields |
| InitData.InitDataOf | bot/core/tapper.py:85-99 | init data is produced exactly when the parse succeeds |
| InitData.RenderIsJoin | bot/core/tapper.py:96-99 | the emitted string is the six `key=value` parts, in the fixed order, joined by `&` |
| InitData.RenderReadsBack | bot/core/tapper.py:96-99 | reading the emitted string back (split on `&`, then on `=`) gives exactly the six keys in order with the emitted values |
| InitData.InitDataShape | bot/core/tapper.py:83-99 | for every accepted URL the init data has six fields; only `user` is re-encoded, and the other five, `start_param` among them, are copied verbatim |
| InitData.WebDataFor | bot/core/tapper.py:37-118 | `InvalidSession` exactly for a revoked session; init data exactly when the URL is present and parses and `get_me` answers; `None` otherwise |
| ChannelLink.BeforeSlash | bot/core/tapper.py:137 | the result is the longest `/`-free prefix: the whole string when it has no `/`, else the text before the first `/` |
| ChannelLink.NormalizeAsWritten | bot/core/tapper.py:136-137 | the chat name never contains `/`; it is `link[13:]` cut before its first `/`, or for a private link the link itself cut before its first `/` |
| ChannelLink.PrivateLinkCollapses | bot/core/tapper.py:136-137 | every link beginning `https://t.me/+` is reduced to `https:` |
| ChannelLink.Normalize | bot/core/tapper.py:136-137 | corrected reduction: a private link is passed on whole; any other is `link[13:]` cut before its first `/` |
| Tasks.PrivateInviteJoinsHttps | bot/core/tapper.py:136-137 | with JOIN_TG_CHANNELS on, a telegram quest whose link is a private invite joins `https:` and stops the batch |
| Retry.Attempt | bot/core/tapper.py:182-203 | at most `limit + 1` attempts; the result is the last attempt's, every earlier attempt failed, `None` only after all failed; equal to the recursion |
| Retry.FirstSuccessWins | bot/core/tapper.py:198-200 | when some allowed attempt succeeds, the first success's value is returned after exactly that many attempts |
| Retry.AllFailuresGiveNone | bot/core/tapper.py:198-203 | when every allowed attempt fails, `None` is returned after `limit + 1` attempts |
| Session.Login | bot/core/tapper.py:182-203 | `login` makes 1 to 8 attempts and returns the last one's reply, `None` only after 8 failures |
| Session.UserInfo | bot/core/tapper.py:205-223 | `user_info` makes 1 to 8 attempts and returns the last one's reply, `None` only after 8 failures |
| Tasks.GetAllTasks | bot/core/tapper.py:225-241 | `get_all_tasks` makes 1 to 8 attempts and returns the last one's list, `None` only after 8 failures |
| Tasks.VerifyTask | bot/core/tapper.py:278-295 | `verify_task` makes 1 to 21 attempts and returns the last one's status, `None` only after 21 failures |
| Tasks.TaskCalls | bot/core/tapper.py:247-272 | no call for a claimed or disabled quest; a telegram quest joins, with the chat name as lines 136-137 compute it, and stops the batch, only with JOIN_TG_CHANNELS on; any other quest gets its completed call, followed by a claim exactly when that returned true |
| Tasks.ProcessTasks | bot/core/tapper.py:243-276 | the loop makes exactly the calls of the pipeline over the fetched list, stopping where the pipeline stops |
| Tasks.AbortIsFinal | bot/core/tapper.py:254 | once the batch has stopped, later quests add no call |
| Tasks.CallsOnlyForActionableTasks | bot/core/tapper.py:246-258 | every call is made for an unclaimed, non-disabled quest; joins only for telegram quests with the flag on; verify calls never for telegram quests |
| Tasks.ClaimOnlyAfterTruthyCompleted | bot/core/tapper.py:264-266 | every claim comes right after a completed call for the same quest that returned true |
| Tasks.TruthyCompletedIsClaimed | bot/core/tapper.py:264-266 | every completed call that returned true is followed at once by the claim for that quest |
| Tasks.AbortOnlyAtTelegramJoin | bot/core/tapper.py:250-256 | the batch stops only after a channel join with JOIN_TG_CHANNELS on, and never when the flag is off |
| Tasks.ActionableTasksAreVerified | bot/core/tapper.py:247-262 | while the batch runs, every actionable non-telegram quest gets its completed call |
| Session.TokenOf | bot/core/tapper.py:315-316 | a token counts exactly when login returned a non-empty one |
| Session.Renew | bot/core/tapper.py:315-342 | login fails exactly when no non-empty token came back, and then changes neither lifetime nor creation time and pauses 300 s; after a token the header is `Bearer <token>` and the user-info reply decides the outcome (no reply or a malformed one, a rejection, an incomplete profile, success); a rejected user gets lifetime 0 and a stall; on success the creation time is the clock and the lifetime the draw; quests run exactly when AUTO_TASK is on |
| Session.Step | bot/core/tapper.py:308-353 | a round re-authenticates exactly when `now - created >= live`; a live token only pauses; `InvalidSession` and missing web data leave the state alone and take no pause; login fails exactly when init data came back and login gave no token; after a token the user-info reply decides the outcome as for a renewal |
| Session.StepKeepsWindow | bot/core/tapper.py:306-334 | one round keeps the lifetime 0 or within [3500, 3600] and the header `Bearer <token>` |
| Session.RoundsStep | bot/core/tapper.py:307-353 | a loop that has not ended runs the next round as one step |
| Session.WindowKept | bot/core/tapper.py:306-334 | over any number of rounds the lifetime stays 0 or within [3500, 3600] and the header stays `Bearer <token>` |
| Session.CreatedNotAhead | bot/core/tapper.py:310-333 | the token's creation time never lies after the current round's clock reading |
| Session.EndIsFinal | bot/core/tapper.py:347-348 | after `InvalidSession` later rounds change nothing |
| Session.OneOutcomePerRound | bot/core/tapper.py:307-353 | one outcome per round until the loop ends, and it ends only on `InvalidSession` |
| Session.LastOutcome | bot/core/tapper.py:307-353 | the outcome of round `n` is that of one step from the state after `n` rounds |
| Session.RejectionForcesReauth | bot/core/tapper.py:325-331 | after a rejected user the very next round re-authenticates, however little time has passed, provided the clock does not run backwards |
| Session.RenewedStep | bot/core/tapper.py:310-334 | after a renewal the next round finds the token live exactly when less than the new lifetime has passed |
| Session.RenewalSetsWindow | bot/core/tapper.py:333-334 | in the loop, the round after a renewal re-authenticates exactly when the freshly drawn lifetime has elapsed since line 333 |
| Session.FailureStaysStale | bot/core/tapper.py:310-330 | a round failing before renewal leaves the token stale for every later clock reading |
| Tapper.Chars | bot/core/tapper.py:357-361 | `''.join(chr(c) ...)` yields one character per code, each with that code |
| Tapper.Decimal | bot/core/tapper.py:359 | `str(n)` is a non-empty run of decimal digits, without a leading zero, whose value is `n` |
| Tapper.LinkCode | bot/core/tapper.py:356-363 | `get_link_code()` is `acAO24ki`, equal to the default REF_ID, so under the default settings the 70/30 draw picks that code either way |
| Tapper.AfterWebData | bot/core/tapper.py:37-118 | a revoked session or a failed `connect` or peer lookup changes no field; otherwise the referral code is drawn (`get_link_code()` or REF_ID); `start_param` becomes the parsed one exactly when the URL parses; the name changes exactly when init data is returned |
| Tapper.FreshRoundsKeepProfile | bot/core/tapper.py:308-313 | rounds that find the token live never call `get_tg_web_data`, so the fields stay as they were |
| Tapper.ProfileFinal | bot/core/tapper.py:347-348 | once `InvalidSession` has ended the loop, later rounds change no field |
| Tapper.Tapper.constructor | bot/core/tapper.py:31-35 | a new tapper has empty `start_param` and name, and no referral code yet |
| Tapper.Tapper.GetTgWebData | bot/core/tapper.py:37-118 | returns the web data for the launch, and leaves the fields as `AfterWebData` says; `start_param` kept equals the emitted fourth field |
| Tapper.Tapper.Authenticate | bot/core/tapper.py:315-342 | the imperative login/user-info/quest sequence computes exactly the renewal |
| Tapper.Tapper.PlayRound | bot/core/tapper.py:308-353 | one pass of the loop body computes exactly the round step; a live token leaves the object unchanged, a stale one changes the fields as one web-data call does |
| Tapper.Tapper.Run | bot/core/tapper.py:297-353 | the loop yields exactly the outcomes and final token of the rounds it is given, stopping at `InvalidSession`, and leaves the fields as the stale rounds' web-data calls do |

## Left out

- Telegram client work inside `get_tg_web_data` is not modelled: proxy setup, `connect`, FloodWait waits, peer resolution and the `RequestAppWebView` call. Their combined effect on one call is the `Launch` value.
- `join_tg_channel` is not modelled beyond its argument: the `join_chat`, mute and archive calls inside it are left out, and a quest's join appears only as a `JoinChannel` call carrying the chat name.
- HTTP, brotli and JSON decoding are not modelled. Each server call is an oracle of per-attempt results.
- Sleeps are not modelled. Their jittered lengths appear only as the `pause` of a round's outcome.
- `check_proxy`, the wallet side quest, START_DELAY, AUTO_ADD_WALLET and `run_tapper` are not part of this model.
- Logging is not modelled. The `title` and reward fields it reads are not modelled either.
- Percent.Unquote: decodes each `%XY` to the character with that code and does not reassemble multi-byte UTF-8 sequences. `UnquoteQuote` is therefore stated for ASCII text only, and the init data for a user whose JSON holds non-ASCII characters differs from the program's: `%D0%98` (`И`) is decoded to two characters and re-encoded as `%C3%90%C2%98`, where the program emits `%D0%98`.
- Session.Step: the `time()` clock is a `real` read from the round, not a real clock.
- Session.Rounds: covers a finite prefix of the endless `while True` loop.
- Session.Login: the payload is not modelled. The login request carries `refer_id` as the referral code, and `Tapper.Tapper.GetTgWebData` records that code without further use.
- Tapper.Tapper.GetTgWebData: models the outcomes of the `connect` failure classes, not which exception class occurred. FloodWait retries of the peer lookup are folded into `Launch.resolved`.
- Tasks.VerifyTask: the returned `success` value is a boolean. Other truthy JSON values are not modelled.
- Tasks.TaskCalls: the telegram branch follows the code as written. The join receives the chat name of `ChannelLink.NormalizeAsWritten`, so a private invite link is joined as `https:`. The NameError at line 254 stops the batch after the join, so no verify or claim call is made for that quest or any later one.
- Tasks.ProcessTasks: a claim whose quest has no rewards raises IndexError at line 266 (`task['rewards'][0]['amount']`). That ends the batch after the claim, but the model is not told the reward list and does not capture this.

## Findings

| source | as written | input that shows it | evidently intended | confidence | as-written member | corrected member |
|---|---|---|---|---|---|---|
| bot/core/tapper.py:136-137 | a private link is kept whole, then cut before its first `/` | `https://t.me/+AbCdEf` becomes `https:` | a private invite link is passed to `join_chat` whole | high, not executed | ChannelLink.PrivateLinkCollapses | ChannelLink.Normalize |
