/**
 * autonomize.py: a task retried a fixed number of times with a capped
 * exponential backoff between attempts, and a self-healing reset once every
 * attempt has failed. Whether an attempt succeeds is a parameter of the
 * model; the sleeps and calls the source makes are recorded as events.
 */
module Autonomize {
  import opened Powers

  /** The longest backoff, in seconds. */
  const Cap: nat := 60

  /** What a run of `resilient_function` does, in order. */
  datatype Event =
    | Task(attempt: nat)   // one call of `automate_task`
    | Sleep(seconds: nat)  // one `time.sleep` between attempts
    | Reset                // the `reset_system_state` call of the self-healing procedure

  /** `exponential_backoff`: 2^attempt seconds, capped at 60. */
  function ExponentialBackoff(attempt: nat): (seconds: nat)
    ensures seconds <= Cap
    ensures seconds == Pow2(attempt) || seconds == Cap
  {
    if Pow2(attempt) < Cap then Pow2(attempt) else Cap
  }

  lemma {:induction false} Pow2Monotone(a: nat, b: nat)
    requires a <= b
    ensures Pow2(a) <= Pow2(b)
    decreases b - a
  {
    if a < b {
      Pow2Monotone(a, b - 1);
    }
  }

  /** Below the cap the backoff doubles exactly: 2, 4, ..., 32 seconds for attempts 1 to 5. */
  lemma BackoffUncapped(attempt: nat)
    requires attempt <= 5
    ensures ExponentialBackoff(attempt) == Pow2(attempt)
  {
    Pow2Monotone(attempt, 5);
  }

  /** From attempt 6 on (2^6 = 64) the backoff is the 60-second cap. */
  lemma BackoffCapped(attempt: nat)
    requires attempt >= 6
    ensures ExponentialBackoff(attempt) == Cap
  {
    Pow2Monotone(6, attempt);
  }

  /** A later attempt never waits less. */
  lemma BackoffMonotone(a: nat, b: nat)
    requires a <= b
    ensures ExponentialBackoff(a) <= ExponentialBackoff(b)
  {
    Pow2Monotone(a, b);
  }

  /**
   * The events of `resilient_function` from attempt `attempt` on: `automate_task`,
   * then either the return on success or the backoff sleep and the next attempt;
   * past the last attempt, the for-else branch runs the self-healing reset.
   */
  function Run(attempt: nat, attempts: nat, succeeds: nat -> bool): seq<Event>
    decreases attempts + 1 - attempt
  {
    if attempt > attempts then [Reset]
    else if succeeds(attempt) then [Task(attempt)]
    else [Task(attempt), Sleep(ExponentialBackoff(attempt))] + Run(attempt + 1, attempts, succeeds)
  }

  /**
   * The whole run: attempts are numbered from 1, as `range(1, attempts + 1)`
   * does. It starts with the first attempt (or at once with the reset when
   * there are no attempts) and ends with the reset or with a successful attempt.
   */
  function RetryTrace(attempts: nat, succeeds: nat -> bool): (r: seq<Event>)
    ensures r != [] && r[0] == if attempts == 0 then Reset else Task(1)
    ensures r[|r| - 1] == Reset || (r[|r| - 1].Task? && succeeds(r[|r| - 1].attempt))
  {
    RunEnds(1, attempts, succeeds);
    Run(1, attempts, succeeds)
  }

  /** A run from `attempt` on starts with that attempt (or the reset) and ends with the reset or a success. */
  lemma {:induction false} RunEnds(attempt: nat, attempts: nat, succeeds: nat -> bool)
    ensures var r := Run(attempt, attempts, succeeds);
            r != [] && r[0] == (if attempt > attempts then Reset else Task(attempt)) &&
            (r[|r| - 1] == Reset || (r[|r| - 1].Task? && succeeds(r[|r| - 1].attempt)))
    decreases attempts + 1 - attempt
  {
    if attempt <= attempts && !succeeds(attempt) {
      RunEnds(attempt + 1, attempts, succeeds);
      var rest := Run(attempt + 1, attempts, succeeds);
      var r := [Task(attempt), Sleep(ExponentialBackoff(attempt))] + rest;
      assert r[|r| - 1] == rest[|rest| - 1];
    }
  }

  /** How many times `automate_task` is called. */
  function Tasks(trace: seq<Event>): nat {
    if trace == [] then 0 else Tasks(trace[..|trace| - 1]) + if trace[|trace| - 1].Task? then 1 else 0
  }

  lemma {:induction false} TasksAppend(front: seq<Event>, back: seq<Event>)
    ensures Tasks(front + back) == Tasks(front) + Tasks(back)
  {
    if back != [] {
      var all := front + back;
      assert all[..|all| - 1] == front + back[..|back| - 1];
      TasksAppend(front, back[..|back| - 1]);
    } else {
      assert front + back == front;
    }
  }

  /** At most one call of `automate_task` per remaining attempt. */
  lemma {:induction false} RunTaskBound(attempt: nat, attempts: nat, succeeds: nat -> bool)
    requires attempt >= 1
    ensures Tasks(Run(attempt, attempts, succeeds)) <= if attempt > attempts then 0 else attempts + 1 - attempt
    decreases attempts + 1 - attempt
  {
    var trace := Run(attempt, attempts, succeeds);
    if attempt > attempts {
      assert trace == [Reset] && trace[..0] == [];
    } else if succeeds(attempt) {
      assert trace == [Task(attempt)] && trace[..0] == [];
    } else {
      var head := [Task(attempt), Sleep(ExponentialBackoff(attempt))];
      var rest := Run(attempt + 1, attempts, succeeds);
      assert trace == head + rest;
      assert head[..1] == [Task(attempt)] && head[..1][..0] == [];
      assert Tasks(head[..1]) == 1;
      assert Tasks(head) == 1;
      TasksAppend(head, rest);
      RunTaskBound(attempt + 1, attempts, succeeds);
    }
  }

  /** `automate_task` is called at most `attempts` times. */
  lemma TasksAtMostAttempts(attempts: nat, succeeds: nat -> bool)
    ensures Tasks(RetryTrace(attempts, succeeds)) <= attempts
  {
    RunTaskBound(1, attempts, succeeds);
  }

  /**
   * The first success ends the run: when attempt k succeeds after every earlier
   * one failed, the last event is that task and no reset follows.
   */
  lemma {:induction false} StopsAtFirstSuccess(attempt: nat, attempts: nat, succeeds: nat -> bool, k: nat)
    requires attempt <= k <= attempts && succeeds(k)
    requires forall j :: attempt <= j < k ==> !succeeds(j)
    ensures var trace := Run(attempt, attempts, succeeds);
            trace != [] && trace[|trace| - 1] == Task(k) && Reset !in trace
    decreases k - attempt
  {
    if attempt < k {
      StopsAtFirstSuccess(attempt + 1, attempts, succeeds, k);
    }
  }

  /** The self-healing reset runs exactly when every attempt fails, and it is then the last event. */
  lemma {:induction false} ResetIffAllFail(attempt: nat, attempts: nat, succeeds: nat -> bool)
    ensures var trace := Run(attempt, attempts, succeeds);
            (Reset in trace <==> forall j :: attempt <= j <= attempts ==> !succeeds(j)) &&
            (Reset in trace ==> trace[|trace| - 1] == Reset && Reset !in trace[..|trace| - 1])
    decreases attempts + 1 - attempt
  {
    if attempt <= attempts && !succeeds(attempt) {
      ResetIffAllFail(attempt + 1, attempts, succeeds);
      var rest := Run(attempt + 1, attempts, succeeds);
      var head := [Task(attempt), Sleep(ExponentialBackoff(attempt))];
      assert Reset !in head;
      if Reset in rest {
        assert (head + rest)[..|head + rest| - 1] == head + rest[..|rest| - 1];
      }
    }
  }

  /** Every failed attempt is followed at once by a sleep of its backoff, the last failure included. */
  lemma {:induction false} SleepAfterFailure(attempt: nat, attempts: nat, succeeds: nat -> bool, i: nat)
    requires attempt >= 1
    requires var trace := Run(attempt, attempts, succeeds);
             i < |trace| && trace[i].Task? && !succeeds(trace[i].attempt)
    ensures var trace := Run(attempt, attempts, succeeds);
            i + 1 < |trace| && trace[i + 1] == Sleep(ExponentialBackoff(trace[i].attempt))
    decreases attempts + 1 - attempt
  {
    if i >= 2 {
      SleepAfterFailure(attempt + 1, attempts, succeeds, i - 2);
    }
  }

  /** All three attempts failing: task, 2 s, task, 4 s, task, 8 s, then the reset. */
  lemma AllFailTrace(succeeds: nat -> bool)
    requires !succeeds(1) && !succeeds(2) && !succeeds(3)
    ensures RetryTrace(3, succeeds) == [Task(1), Sleep(2), Task(2), Sleep(4), Task(3), Sleep(8), Reset]
  {
  }

  /** `automate_task` as written always returns, so the source's run is a single task call. */
  lemma AsWrittenRun()
    ensures RetryTrace(3, _ => true) == [Task(1)]
  {
  }

  /** After a failed attempt the events so far are the call of `automate_task` and its backoff sleep, and the run goes on from the next attempt. */
  lemma FailedAttempt(front: seq<Event>, attempt: nat, attempts: nat, succeeds: nat -> bool)
    requires attempt <= attempts && !succeeds(attempt)
    ensures front + [Task(attempt)] + [Sleep(ExponentialBackoff(attempt))] + Run(attempt + 1, attempts, succeeds)
            == front + Run(attempt, attempts, succeeds)
  {
  }

  class Autonomizer {
    const attempts: nat

    /** `__init__`: three attempts. */
    constructor()
      ensures attempts == 3
    {
      attempts := 3;
    }

    /** `self_healing_procedure`: a single call of `reset_system_state` between its log lines. */
    method SelfHealingProcedure() returns (events: seq<Event>)
      ensures events == [Reset]
    {
      events := [Reset];
    }

    /**
     * `resilient_function`: try `automate_task` up to `attempts` times, sleeping the
     * backoff after each failure; return at the first success; if every attempt
     * failed, heal. `succeeds(k)` says whether attempt k raises.
     */
    method ResilientFunction(succeeds: nat -> bool) returns (trace: seq<Event>)
      ensures trace == RetryTrace(attempts, succeeds)
    {
      ghost var goal := Run(1, attempts, succeeds);
      trace := [];
      for attempt := 1 to attempts + 1
        invariant trace + Run(attempt, attempts, succeeds) == goal
      {
        ghost var front := trace;
        trace := trace + [Task(attempt)];
        if succeeds(attempt) {
          assert Run(attempt, attempts, succeeds) == [Task(attempt)];
          return;
        }
        trace := trace + [Sleep(ExponentialBackoff(attempt))];
        FailedAttempt(front, attempt, attempts, succeeds);
      }
      assert Run(attempts + 1, attempts, succeeds) == [Reset];
      var healing := SelfHealingProcedure();
      trace := trace + healing;
    }
  }
}
