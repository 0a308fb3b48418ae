/** The watchdog's poll schedule: which target pipelines are due at a given moment.
    The microbatch pipeline is due on every `poll_every_minutes`-th UTC minute; a daily
    pipeline is due once the Korean wall-clock time has reached its `poll_after_kst`. */
module Watchdog {
  import opened Common
  import RuntimeConfig

  const MICROBATCH_PIPELINE := "pipeline_a"
  const DIVISION_BY_ZERO := "integer division or modulo by zero"

  /** The part of the monitoring configuration the schedule reads: the microbatch
      period, and for every other attribute of `config.pipelines` its `poll_after_kst`
      when that is a string (`None` when it is missing or not a string). */
  datatype MonitoringConfig = MonitoringConfig(pollEveryMinutes: int, daily: map<string, Option<string>>)

  /** The current moment as the two rules see it: the UTC minute of the hour and the
      Korean wall-clock time rendered as "HH:MM". */
  datatype Moment = Moment(utcMinute: nat, kstClock: string)

  /** `_is_daily_batch_poll_due`: string comparison of "HH:MM" values. */
  predicate DailyDue(pollAfterKst: string, now: Moment) {
    StrLessEq(pollAfterKst, now.kstClock)
  }

  /** `_is_microbatch_poll_due`; a zero period raises. Python's `%` and Dafny's differ
      for a negative period, but both leave remainder zero exactly on multiples. */
  function MicrobatchDue(pollEveryMinutes: int, now: Moment): (r: Result<bool>)
    ensures pollEveryMinutes == 0 <==> r.Err?
  {
    if pollEveryMinutes == 0 then Err(DIVISION_BY_ZERO) else Ok(now.utcMinute % pollEveryMinutes == 0)
  }

  /** Whether one target is polled: `Err` carries the modulo error. */
  function Selected(p: string, config: MonitoringConfig, now: Moment): Result<bool> {
    if p == MICROBATCH_PIPELINE then MicrobatchDue(config.pollEveryMinutes, now)
    else if p !in config.daily then Ok(false)
    else match config.daily[p]
      case None => Ok(false)
      case Some(after) => Ok(DailyDue(after, now))
  }

  /** The reference schedule: the targets that are due, in their order, or the first error. */
  function Poll(targets: seq<string>, config: MonitoringConfig, now: Moment): Result<seq<string>>
  {
    if targets == [] then Ok([])
    else match Selected(targets[0], config, now)
      case Err(e) => Err(e)
      case Ok(due) => Prepend(if due then [targets[0]] else [], Poll(targets[1..], config, now))
  }

  function Prepend(front: seq<string>, r: Result<seq<string>>): Result<seq<string>> {
    match r
    case Err(e) => Err(e)
    case Ok(rest) => Ok(front + rest)
  }

  lemma PrependJoins(a: seq<string>, b: seq<string>, r: Result<seq<string>>)
    ensures Prepend([], r) == r
    ensures Prepend(a, Prepend(b, r)) == Prepend(a + b, r)
  {
    if r.Ok? {
      assert [] + r.value == r.value;
      assert a + (b + r.value) == (a + b) + r.value;
    }
  }

  /** The polled list keeps the targets' order and holds exactly the due targets;
      it fails only through the microbatch rule with a zero period. */
  lemma {:induction false} PollMeans(targets: seq<string>, config: MonitoringConfig, now: Moment)
    ensures var r := Poll(targets, config, now);
      (r.Err? <==> MICROBATCH_PIPELINE in targets && config.pollEveryMinutes == 0)
      && (r.Ok? ==> IsSubsequence(r.value, targets)
                    && forall p :: p in r.value <==> p in targets && Selected(p, config, now) == Ok(true))
  {
    if targets != [] {
      PollMeans(targets[1..], config, now);
      var r := Poll(targets[1..], config, now);
      assert targets == [targets[0]] + targets[1..];
      if Selected(targets[0], config, now).Ok? && r.Ok? {
        var out := Poll(targets, config, now).value;
        if Selected(targets[0], config, now).value {
          assert out[0] == targets[0] && out[1..] == r.value;
        } else {
          assert out == r.value;
          SubsequenceSkip(r.value, targets);
        }
      }
    }
  }

  /** `pipelines_to_poll` */
  method PipelinesToPoll(targets: seq<string>, config: MonitoringConfig, now: Moment) returns (r: Result<seq<string>>)
    ensures r == Poll(targets, config, now)
  {
    var selected: seq<string> := [];
    var i := 0;
    assert targets[0..] == targets;
    PrependJoins([], [], Poll(targets, config, now));
    while i < |targets|
      invariant 0 <= i <= |targets|
      invariant Poll(targets, config, now) == Prepend(selected, Poll(targets[i..], config, now))
    {
      var p := targets[i];
      assert targets[i..][0] == p && targets[i..][1..] == targets[i + 1..];
      ghost var rest := Poll(targets[i + 1..], config, now);
      PrependJoins(selected, [p], rest);
      PrependJoins(selected, [], rest);
      assert selected + [] == selected;
      if p == MICROBATCH_PIPELINE {
        var due := MicrobatchDue(config.pollEveryMinutes, now);
        if due.Err? {
          return Err(due.error);
        }
        if due.value {
          selected := selected + [p];
        }
      } else if p in config.daily {
        var after := config.daily[p];
        if after.Some? && DailyDue(after.value, now) {
          selected := selected + [p];
        }
      }
      i := i + 1;
    }
    assert targets[i..] == [] && selected + [] == selected;
    r := Ok(selected);
  }

  /** `run_once`: the configured targets are reported unchanged beside the polled ones. */
  method RunOnce(settings: RuntimeConfig.RuntimeSettings, config: MonitoringConfig, now: Moment)
    returns (r: Result<(seq<string>, seq<string>)>)
    ensures var polled := Poll(settings.targetPipelines, config, now);
      (polled.Err? ==> r == Err(polled.error))
      && (polled.Ok? ==> r == Ok((settings.targetPipelines, polled.value)))
  {
    var polled := PipelinesToPoll(settings.targetPipelines, config, now);
    if polled.Err? {
      return Err(polled.error);
    }
    r := Ok((settings.targetPipelines, polled.value));
  }
}
