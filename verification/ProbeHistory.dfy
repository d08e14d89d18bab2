/** Health status as it is updated by one probe result after another. */
module ProbeHistory {

  datatype Status = Starting | Healthy | Unhealthy

  datatype Result = Result(exitCode: int, output: string) {
    predicate Passed() {
      exitCode == 0
    }
  }

  /** The health record of a container, and the status events reported so far. */
  datatype Health = Health(status: Status, failingStreak: nat, log: seq<Result>, events: seq<Status>)

  const DEFAULT_PROBE_RETRIES := 3
  const MAX_LOG_ENTRIES := 5

  function EffectiveRetries(configured: int): nat {
    if configured <= 0 then DEFAULT_PROBE_RETRIES else configured
  }

  function Logged(log: seq<Result>, result: Result): seq<Result> {
    if |log| >= MAX_LOG_ENTRIES then log[|log| + 1 - MAX_LOG_ENTRIES..] + [result] else log + [result]
  }

  /** One probe result. */
  function Next(h: Health, retries: int, result: Result): Health {
    var streak := if result.Passed() then 0 else h.failingStreak + 1;
    var status :=
      if result.Passed() then Healthy else if streak >= EffectiveRetries(retries) then Unhealthy else h.status;
    Health(status, streak, Logged(h.log, result), if status != h.status then h.events + [status] else h.events)
  }

  /** The record when monitoring begins or begins anew: the log of earlier runs is kept. */
  function Reset(log: seq<Result>, events: seq<Status>): Health {
    Health(Starting, 0, log, events)
  }

  function Run(h: Health, retries: int, results: seq<Result>): Health {
    if results == [] then h else Next(Run(h, retries, results[..|results| - 1]), retries, results[|results| - 1])
  }

  // ---------------------------------------------------------------------------
  // Health as a function of the whole history

  /** The length of the longest suffix of failures. */
  function Streak(results: seq<Result>): nat {
    if results == [] || results[|results| - 1].Passed() then 0 else 1 + Streak(results[..|results| - 1])
  }

  predicate AnyPassed(results: seq<Result>) {
    exists r :: r in results && r.Passed()
  }

  function StatusOf(results: seq<Result>, retries: int): Status {
    if Streak(results) >= EffectiveRetries(retries) then Unhealthy
    else if AnyPassed(results) then Healthy
    else Starting
  }

  /** The points of the history at which the status is another than just before. */
  function Changes(results: seq<Result>, retries: int): seq<Status> {
    if results == [] then []
    else
      var init := results[..|results| - 1];
      Changes(init, retries) + Change(StatusOf(init, retries), StatusOf(results, retries))
  }

  function Change(before: Status, after: Status): seq<Status> {
    if after != before then [after] else []
  }

  function LastFive(log: seq<Result>): seq<Result> {
    if |log| <= MAX_LOG_ENTRIES then log else log[|log| - MAX_LOG_ENTRIES..]
  }

  lemma {:induction false} StreakIsLongestFailingSuffix(results: seq<Result>)
    ensures Streak(results) <= |results|
    ensures forall i :: |results| - Streak(results) <= i < |results| ==> !results[i].Passed()
    ensures Streak(results) < |results| ==> results[|results| - Streak(results) - 1].Passed()
  {
    if results != [] {
      StreakIsLongestFailingSuffix(results[..|results| - 1]);
    }
  }

  lemma LastFiveMore(log: seq<Result>, r: Result)
    ensures Logged(log, r) == LastFive(log + [r]) == Logged(LastFive(log), r)
  {
  }

  lemma StatusStep(init: seq<Result>, last: Result, retries: int)
    ensures Streak(init + [last]) == if last.Passed() then 0 else Streak(init) + 1
    ensures StatusOf(init + [last], retries) ==
            if last.Passed() then Healthy
            else if Streak(init) + 1 >= EffectiveRetries(retries) then Unhealthy
            else StatusOf(init, retries)
  {
    var results := init + [last];
    assert results[..|results| - 1] == init;
    assert last in results;
    assert forall r :: r in results <==> r in init || r == last;
  }

  lemma ChangesStep(init: seq<Result>, last: Result, retries: int)
    ensures Changes(init + [last], retries) ==
            Changes(init, retries) + Change(StatusOf(init, retries), StatusOf(init + [last], retries))
  {
    assert (init + [last])[..|init + [last]| - 1] == init;
  }

  /** The record as a function of all results since monitoring began. */
  function Recorded(log: seq<Result>, events: seq<Status>, retries: int, results: seq<Result>): Health {
    Health(StatusOf(results, retries), Streak(results), if results == [] then log else LastFive(log + results),
           events + Changes(results, retries))
  }

  lemma LogStep(log: seq<Result>, init: seq<Result>, last: Result)
    ensures LastFive(log + (init + [last])) == Logged(if init == [] then log else LastFive(log + init), last)
  {
    assert log + (init + [last]) == log + init + [last];
    LastFiveMore(log + init, last);
    if init == [] {
      assert log + init == log;
    }
  }

  lemma EventStep(events: seq<Status>, init: seq<Result>, last: Result, retries: int)
    ensures events + Changes(init + [last], retries) ==
            events + Changes(init, retries) + Change(StatusOf(init, retries), StatusOf(init + [last], retries))
  {
    ChangesStep(init, last, retries);
  }

  lemma RecordedStep(log: seq<Result>, events: seq<Status>, retries: int, init: seq<Result>, last: Result)
    ensures Recorded(log, events, retries, init + [last]) == Next(Recorded(log, events, retries, init), retries, last)
  {
    StatusStep(init, last, retries);
    EventStep(events, init, last, retries);
    LogStep(log, init, last);
  }

  /** The incremental record is that function. */
  lemma {:induction false} HistoryDetermines(log: seq<Result>, events: seq<Status>, retries: int, results: seq<Result>)
    ensures Run(Reset(log, events), retries, results) == Recorded(log, events, retries, results)
  {
    if results == [] {
      assert events + [] == events;
    } else {
      var init, last := results[..|results| - 1], results[|results| - 1];
      HistoryDetermines(log, events, retries, init);
      RecordedStep(log, events, retries, init, last);
      assert results == init + [last];
    }
  }

  // ---------------------------------------------------------------------------
  // What the record tells a reader

  /** The last `n` results are failures. */
  ghost predicate AllFailed(results: seq<Result>, n: nat) {
    n <= |results| && forall i :: |results| - n <= i < |results| ==> results[i].exitCode != 0
  }

  lemma StreakReachesIff(results: seq<Result>, n: nat)
    ensures Streak(results) >= n <==> AllFailed(results, n)
  {
    StreakIsLongestFailingSuffix(results);
    if Streak(results) < n <= |results| {
      assert results[|results| - Streak(results) - 1].exitCode == 0;
    }
  }

  /** Unhealthy exactly when as many of the last results as configured, or three, are failures; otherwise healthy as
      soon as any has passed. */
  lemma StatusMeaning(results: seq<Result>, retries: int)
    ensures StatusOf(results, retries).Unhealthy? <==> AllFailed(results, if retries <= 0 then 3 else retries)
    ensures StatusOf(results, retries).Starting? <==>
            && !AllFailed(results, if retries <= 0 then 3 else retries)
            && forall i :: 0 <= i < |results| ==> results[i].exitCode != 0
  {
    StreakReachesIff(results, if retries <= 0 then 3 else retries);
    if i :| 0 <= i < |results| && results[i].exitCode == 0 {
      assert results[i] in results && results[i].Passed();
    }
  }

  /** The log holds the last five results, counting those of earlier runs. */
  lemma LogMeaning(log: seq<Result>, events: seq<Status>, retries: int, results: seq<Result>)
    requires results != []
    ensures var all := log + results;
            Recorded(log, events, retries, results).log == if |all| <= 5 then all else all[|all| - 5..]
  {
  }

  /** Reported statuses alternate, and the last one reported is the current one. */
  lemma {:induction false} ChangesMeaning(results: seq<Result>, retries: int)
    ensures var events := Changes(results, retries);
            && StatusOf(results, retries) == (if events == [] then Starting else events[|events| - 1])
            && (events != [] ==> !events[0].Starting?)
            && forall i :: 0 < i < |events| ==> events[i] != events[i - 1]
  {
    if results != [] {
      ChangesMeaning(results[..|results| - 1], retries);
    }
  }

  // ---------------------------------------------------------------------------

  class Monitored {
    var status: Status
    var failingStreak: nat
    var log: seq<Result>
    var events: seq<Status>

    constructor ()
      ensures State() == Reset([], [])
    {
      status, failingStreak, log, events := Starting, 0, [], [];
    }

    ghost function State(): Health
      reads this
    {
      Health(status, failingStreak, log, events)
    }

    method HandleProbeResult(retries: int, result: Result)
      modifies this
      ensures State() == Next(old(State()), retries, result)
    {
      var limit := retries;
      if limit <= 0 {
        limit := DEFAULT_PROBE_RETRIES;
      }
      var oldStatus := status;
      if |log| >= MAX_LOG_ENTRIES {
        log := log[|log| + 1 - MAX_LOG_ENTRIES..] + [result];
      } else {
        log := log + [result];
      }
      if result.exitCode == 0 {
        failingStreak := 0;
        status := Healthy;
      } else {
        failingStreak := failingStreak + 1;
        if failingStreak >= limit {
          status := Unhealthy;
        }
      }
      if oldStatus != status {
        events := events + [status];
      }
    }
  }
}
