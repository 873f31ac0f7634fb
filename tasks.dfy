/** The quest pipeline: `get_all_tasks`, `verify_task` and `processing_tasks`
    (bot/core/tapper.py lines 225-295). Server replies are oracles. */
module Tasks {
  import opened Optional
  import opened Config
  import opened Retry
  import opened ChannelLink

  /** One entry of the quest list: `_id`, `code`, `data` (the channel link of a
      telegram quest) and `progress.claimed`. */
  datatype Task = Task(id: string, code: string, data: string, claimed: bool)

  /** `/quests/completed` and `/quests/claim`. */
  datatype Endpoint = Completed | Claim

  /** What the pipeline does, in order: a `verify_task` call with the quest id, the
      endpoint and what the call returned, or a `join_tg_channel` call with the
      quest's link and the chat name lines 136-137 hand to `join_chat` (for a
      private invite link that is `https:`, see `ChannelLink.PrivateLinkCollapses`). */
  datatype Call = Verify(questId: string, endpoint: Endpoint, result: Option<bool>) | JoinChannel(link: string, chat: string)

  /** The server's replies to the attempts of the two calls made for one quest. */
  datatype Replies = Replies(completed: Attempts<bool>, claim: Attempts<bool>)

  const TelegramCode := "telegram"

  /** Python truthiness of what `verify_task` returned (`None` is false). */
  predicate Truthy(status: Option<bool>) {
    status == Some(true)
  }

  /** Line 248: the quest is not claimed yet and its code is not disabled. */
  predicate Actionable(cfg: Settings, t: Task) {
    !t.claimed && t.code !in cfg.disabledTasks
  }

  /** `get_all_tasks` (lines 225-241): at most 8 attempts, `None` after the last failure. */
  method GetAllTasks(fetch: Attempts<seq<Task>>) returns (tasks: Option<seq<Task>>, attempts: nat)
    ensures 1 <= attempts <= 8
    ensures tasks == fetch(attempts - 1)
    ensures forall k :: 0 <= k < attempts - 1 ==> fetch(k).None?
    ensures tasks.None? ==> attempts == 8
    ensures (tasks, attempts) == Retrying(fetch, DataRetries, 0)
  {
    tasks, attempts := Attempt(fetch, DataRetries);
  }

  /** `verify_task` (lines 278-295): at most 21 attempts, `None` after the last failure. */
  method VerifyTask(replies: Attempts<bool>) returns (status: Option<bool>, attempts: nat)
    ensures 1 <= attempts <= 21
    ensures status == replies(attempts - 1)
    ensures forall k :: 0 <= k < attempts - 1 ==> replies(k).None?
    ensures status.None? ==> attempts == 21
    ensures (status, attempts) == Retrying(replies, VerifyRetries, 0)
  {
    status, attempts := Attempt(replies, VerifyRetries);
  }

  /** Lines 248-272 for one quest: the calls made and whether the batch stops there.
      A telegram quest with JOIN_TG_CHANNELS on joins the channel and then reads
      the undefined name `retry` (line 254); the NameError ends the whole batch. */
  function TaskCalls(cfg: Settings, t: Task, r: Replies): (out: (seq<Call>, bool))
    ensures !Actionable(cfg, t) ==> out == ([], false)
    ensures out.1 <==> Actionable(cfg, t) && t.code == TelegramCode && cfg.joinTgChannels
    ensures out.1 ==> out.0 == [JoinChannel(t.data, NormalizeAsWritten(t.data))]
    ensures Actionable(cfg, t) && t.code != TelegramCode ==>
      && 1 <= |out.0| <= 2
      && out.0[0] == Verify(t.id, Completed, Retrying(r.completed, VerifyRetries, 0).0)
      && (|out.0| == 2 <==> Truthy(out.0[0].result))
      && (|out.0| == 2 ==> out.0[1] == Verify(t.id, Claim, Retrying(r.claim, VerifyRetries, 0).0))
    ensures t.code == TelegramCode && !cfg.joinTgChannels ==> out == ([], false)
  {
    if !Actionable(cfg, t) then ([], false)
    else if t.code == TelegramCode then
      if cfg.joinTgChannels then ([JoinChannel(t.data, NormalizeAsWritten(t.data))], true) else ([], false)
    else
      var done := Retrying(r.completed, VerifyRetries, 0).0;
      if Truthy(done) then
        ([Verify(t.id, Completed, done), Verify(t.id, Claim, Retrying(r.claim, VerifyRetries, 0).0)], false)
      else ([Verify(t.id, Completed, done)], false)
  }

  /** With JOIN_TG_CHANNELS on, an open telegram quest whose link is a private
      invite asks `join_chat` for the chat `https:`, and the batch stops there. */
  lemma PrivateInviteJoinsHttps(cfg: Settings, t: Task, r: Replies)
    requires Actionable(cfg, t) && t.code == TelegramCode && cfg.joinTgChannels
    requires |t.data| >= |PrivateMarker| && t.data[..|PrivateMarker|] == PrivateMarker
    ensures TaskCalls(cfg, t, r) == ([JoinChannel(t.data, "https:")], true)
  {
    PrivateLinkCollapses(t.data);
  }

  /** The calls made for the first `n` quests of the list, and whether the batch
      has been stopped; `answers(k)` are the replies for the k-th quest. */
  function Pipeline(cfg: Settings, tasks: seq<Task>, answers: nat -> Replies, n: nat): (seq<Call>, bool)
    requires n <= |tasks|
    decreases n
  {
    if n == 0 then ([], false)
    else
      var prev := Pipeline(cfg, tasks, answers, n - 1);
      if prev.1 then prev
      else
        var step := TaskCalls(cfg, tasks[n - 1], answers(n - 1));
        (prev.0 + step.0, step.1)
  }

  /** The list `get_all_tasks` hands over, with `None` read as no quests. */
  function FetchedTasks(fetch: Attempts<seq<Task>>): seq<Task> {
    Retrying(fetch, DataRetries, 0).0.GetOr([])
  }

  /** `processing_tasks` (lines 243-276): fetch the list, then walk it in order. */
  method ProcessTasks(cfg: Settings, fetch: Attempts<seq<Task>>, answers: nat -> Replies)
    returns (log: seq<Call>, aborted: bool)
    ensures (log, aborted) == Pipeline(cfg, FetchedTasks(fetch), answers, |FetchedTasks(fetch)|)
  {
    var fetched, _ := GetAllTasks(fetch);
    log, aborted := [], false;
    if fetched.Some? && |fetched.value| > 0 {
      var tasks := fetched.value;
      var i := 0;
      while i < |tasks| && !aborted
        invariant 0 <= i <= |tasks|
        invariant (log, aborted) == Pipeline(cfg, tasks, answers, i)
      {
        var t := tasks[i];
        ghost var before := log;
        if !t.claimed && t.code !in cfg.disabledTasks {
          var complete: bool;
          if t.code == TelegramCode {
            if cfg.joinTgChannels {
              log := log + [JoinChannel(t.data, NormalizeAsWritten(t.data))];
              aborted := true;
            }
            complete := false;
          } else {
            var status, _ := VerifyTask(answers(i).completed);
            log := log + [Verify(t.id, Completed, status)];
            complete := Truthy(status);
          }
          if complete {
            var claimed, _ := VerifyTask(answers(i).claim);
            log := log + [Verify(t.id, Claim, claimed)];
          }
          assert log == before + TaskCalls(cfg, t, answers(i)).0;
          assert aborted == TaskCalls(cfg, t, answers(i)).1;
        } else {
          assert before + TaskCalls(cfg, t, answers(i)).0 == log;
        }
        i := i + 1;
      }
      if aborted {
        AbortIsFinal(cfg, tasks, answers, i, |tasks|);
      }
    }
  }

  /** Once the batch has stopped, later quests change nothing. */
  lemma {:induction false} AbortIsFinal(cfg: Settings, tasks: seq<Task>, answers: nat -> Replies, n: nat, m: nat)
    requires n <= m <= |tasks|
    requires Pipeline(cfg, tasks, answers, n).1
    ensures Pipeline(cfg, tasks, answers, m) == Pipeline(cfg, tasks, answers, n)
    decreases m - n
  {
    if n < m {
      AbortIsFinal(cfg, tasks, answers, n, m - 1);
    }
  }

  /** The call `c` belongs to quest `t`: a verify call carries its id and is never
      made for a telegram quest; a join carries its link and needs JOIN_TG_CHANNELS. */
  predicate Concerns(cfg: Settings, c: Call, t: Task) {
    match c
    case Verify(id, _, _) => id == t.id && t.code != TelegramCode
    case JoinChannel(link, _) => link == t.data && t.code == TelegramCode && cfg.joinTgChannels
  }

  /** The call `c` is made for an actionable quest among the first `n`. */
  predicate ForActionable(cfg: Settings, tasks: seq<Task>, n: nat, c: Call)
    requires n <= |tasks|
  {
    exists k :: 0 <= k < n && Actionable(cfg, tasks[k]) && Concerns(cfg, c, tasks[k])
  }

  /** Every call in `log` is made for an actionable quest among the first `n`. */
  predicate CallsActionable(cfg: Settings, tasks: seq<Task>, n: nat, log: seq<Call>)
    requires n <= |tasks|
  {
    forall j :: 0 <= j < |log| ==> ForActionable(cfg, tasks, n, log[j])
  }

  /** A call made for one of the first `m` quests is made for one of the first `n >= m`. */
  lemma ForActionableWidens(cfg: Settings, tasks: seq<Task>, m: nat, n: nat, c: Call)
    requires m <= n <= |tasks| && ForActionable(cfg, tasks, m, c)
    ensures ForActionable(cfg, tasks, n, c)
  {
    var k :| 0 <= k < m && Actionable(cfg, tasks[k]) && Concerns(cfg, c, tasks[k]);
    assert 0 <= k < n;
  }

  /** Every claim in `log` comes right after a `/quests/completed` call for the same
      quest that returned true. */
  predicate ClaimsFollowTruthyCompleted(log: seq<Call>) {
    forall j :: 0 <= j < |log| && log[j].Verify? && log[j].endpoint == Claim ==>
      j > 0 && log[j - 1] == Verify(log[j].questId, Completed, Some(true))
  }

  /** Every `/quests/completed` call in `log` that returned true is followed at once
      by the claim for the same quest. */
  predicate TruthyCompletedClaimed(log: seq<Call>) {
    forall j :: 0 <= j < |log| && log[j].Verify? && log[j].endpoint == Completed && Truthy(log[j].result) ==>
      j + 1 < |log| && log[j + 1].Verify? && log[j + 1].endpoint == Claim && log[j + 1].questId == log[j].questId
  }

  /** Every call is made for an actionable quest (unclaimed, code not disabled):
      claimed or disabled quests produce no call, and a telegram quest produces
      none while JOIN_TG_CHANNELS is off. */
  lemma {:induction false} CallsOnlyForActionableTasks(cfg: Settings, tasks: seq<Task>, answers: nat -> Replies, n: nat)
    requires n <= |tasks|
    ensures CallsActionable(cfg, tasks, n, Pipeline(cfg, tasks, answers, n).0)
    decreases n
  {
    if n > 0 {
      CallsOnlyForActionableTasks(cfg, tasks, answers, n - 1);
      var prev := Pipeline(cfg, tasks, answers, n - 1).0;
      forall j | 0 <= j < |prev|
        ensures ForActionable(cfg, tasks, n, prev[j])
      {
        ForActionableWidens(cfg, tasks, n - 1, n, prev[j]);
      }
      if !Pipeline(cfg, tasks, answers, n - 1).1 {
        var calls := TaskCalls(cfg, tasks[n - 1], answers(n - 1)).0;
        var log := prev + calls;
        assert Pipeline(cfg, tasks, answers, n).0 == log;
        forall j | 0 <= j < |log|
          ensures ForActionable(cfg, tasks, n, log[j])
        {
          if j < |prev| {
            assert log[j] == prev[j];
          } else {
            assert log[j] == calls[j - |prev|];
            assert Actionable(cfg, tasks[n - 1]) && Concerns(cfg, log[j], tasks[n - 1]);
          }
        }
      } else {
        assert Pipeline(cfg, tasks, answers, n).0 == prev;
      }
    }
  }

  /** A claim is made only right after a `/quests/completed` call for the same
      quest that returned true. */
  lemma {:induction false} ClaimOnlyAfterTruthyCompleted(cfg: Settings, tasks: seq<Task>, answers: nat -> Replies, n: nat)
    requires n <= |tasks|
    ensures ClaimsFollowTruthyCompleted(Pipeline(cfg, tasks, answers, n).0)
    decreases n
  {
    if n > 0 {
      ClaimOnlyAfterTruthyCompleted(cfg, tasks, answers, n - 1);
      var prev := Pipeline(cfg, tasks, answers, n - 1).0;
      if !Pipeline(cfg, tasks, answers, n - 1).1 {
        var calls := TaskCalls(cfg, tasks[n - 1], answers(n - 1)).0;
        var log := prev + calls;
        assert Pipeline(cfg, tasks, answers, n).0 == log;
        forall j | 0 <= j < |log| && log[j].Verify? && log[j].endpoint == Claim
          ensures j > 0 && log[j - 1] == Verify(log[j].questId, Completed, Some(true))
        {
          if j < |prev| {
            assert log[j] == prev[j];
            assert log[j - 1] == prev[j - 1];
          } else {
            assert log[j] == calls[j - |prev|];
            assert j - |prev| == 1;
            assert log[j - 1] == calls[0];
          }
        }
      }
    }
  }

  /** A `/quests/completed` call that returned true is followed at once by the
      claim for the same quest: claim happens if and only if completion was truthy. */
  lemma {:induction false} TruthyCompletedIsClaimed(cfg: Settings, tasks: seq<Task>, answers: nat -> Replies, n: nat)
    requires n <= |tasks|
    ensures TruthyCompletedClaimed(Pipeline(cfg, tasks, answers, n).0)
    decreases n
  {
    if n > 0 {
      TruthyCompletedIsClaimed(cfg, tasks, answers, n - 1);
      var prev := Pipeline(cfg, tasks, answers, n - 1).0;
      if !Pipeline(cfg, tasks, answers, n - 1).1 {
        var calls := TaskCalls(cfg, tasks[n - 1], answers(n - 1)).0;
        var log := prev + calls;
        assert Pipeline(cfg, tasks, answers, n).0 == log;
        forall j | 0 <= j < |log| && log[j].Verify? && log[j].endpoint == Completed && Truthy(log[j].result)
          ensures j + 1 < |log| && log[j + 1].Verify? && log[j + 1].endpoint == Claim
          ensures log[j + 1].questId == log[j].questId
        {
          if j < |prev| {
            assert log[j] == prev[j];
            assert log[j + 1] == prev[j + 1];
          } else {
            assert log[j] == calls[j - |prev|];
            assert j == |prev|;
            assert log[j + 1] == calls[1];
          }
        }
      }
    }
  }

  /** The batch stops only at a telegram quest joined with JOIN_TG_CHANNELS on, and
      the join is then the last thing done; with the flag off it never stops. */
  lemma {:induction false} AbortOnlyAtTelegramJoin(cfg: Settings, tasks: seq<Task>, answers: nat -> Replies, n: nat)
    requires n <= |tasks|
    ensures var (log, stopped) := Pipeline(cfg, tasks, answers, n);
      stopped ==> cfg.joinTgChannels && |log| > 0 && log[|log| - 1].JoinChannel?
    ensures !cfg.joinTgChannels ==> !Pipeline(cfg, tasks, answers, n).1
    decreases n
  {
    if n > 0 {
      AbortOnlyAtTelegramJoin(cfg, tasks, answers, n - 1);
    }
  }

  /** While the batch is not stopped, every actionable quest other than a telegram
      one gets its `/quests/completed` call: no quest is silently skipped. */
  lemma {:induction false} ActionableTasksAreVerified(cfg: Settings, tasks: seq<Task>, answers: nat -> Replies, n: nat, k: nat)
    requires k < n <= |tasks|
    requires !Pipeline(cfg, tasks, answers, n).1
    requires Actionable(cfg, tasks[k]) && tasks[k].code != TelegramCode
    ensures Verify(tasks[k].id, Completed, Retrying(answers(k).completed, VerifyRetries, 0).0)
      in Pipeline(cfg, tasks, answers, n).0
    decreases n
  {
    var prev := Pipeline(cfg, tasks, answers, n - 1).0;
    assert !Pipeline(cfg, tasks, answers, n - 1).1;
    var calls := TaskCalls(cfg, tasks[n - 1], answers(n - 1)).0;
    assert Pipeline(cfg, tasks, answers, n).0 == prev + calls;
    if k < n - 1 {
      ActionableTasksAreVerified(cfg, tasks, answers, n - 1, k);
    } else {
      assert calls[0] in prev + calls;
    }
  }
}
