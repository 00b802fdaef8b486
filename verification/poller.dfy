/**
 * The status poller (`poll_for_result`, identical in both clients): record the
 * start time, then repeatedly check the elapsed time against the limit, query
 * the job's status once, and stop on COMPLETED, FAILED or an error; every other
 * status means sleep two seconds and ask again.
 *
 * The network is a script of replies, `script(k)` answering the k-th status
 * query, and the wall clock is a sequence of readings: `clock(0)` is the start
 * time and `clock(k + 1)` the reading taken just before the k-th query.
 */
module Poller {
  import opened Wire
  import opened Configuration
  import opened Api

  /** How the loop reads the `status` field of a status reply. */
  datatype Status = Completed | Failed | Pending | Unrecognised

  function Classify(body: Object): Status
  {
    var status := Lookup(body, "status");
    if status == Some(Str("COMPLETED")) then Completed
    else if status == Some(Str("FAILED")) then Failed
    else if status == Some(Str("IN_QUEUE")) || status == Some(Str("IN_PROGRESS")) then Pending
    else Unrecognised
  }

  /**
   * What the loop does with one status reply: `None` to sleep and ask again,
   * or `Some` of the outcome it stops with.
   */
  function Verdict(reply: Reply): (v: Option<Outcome<Object>>)
    ensures v != Some(Exit(TimedOut))
    ensures v == None <==> reply.Response? && !RaisesForStatus(reply.code) && Classify(reply.body) in {Pending, Unrecognised}
    ensures reply.ConnectionError? ==> v == Some(Exit(StatusQueryError(None)))
    ensures reply.Response? && RaisesForStatus(reply.code) ==> v == Some(Exit(StatusQueryError(Some(reply.code))))
    ensures reply.Response? && !RaisesForStatus(reply.code) && Lookup(reply.body, "status") == Some(Str("COMPLETED")) ==>
              v == Some(Done(reply.body))
    ensures reply.Response? && !RaisesForStatus(reply.code) && Lookup(reply.body, "status") == Some(Str("FAILED")) ==>
              v == Some(Exit(JobFailed(reply.body)))
  {
    match Received(reply)
    case Err(code) => Some(Exit(StatusQueryError(code)))
    case Ok(body) =>
      match Classify(body)
      case Completed => Some(Done(body))
      case Failed => Some(Exit(JobFailed(body)))
      case Pending => None
      case Unrecognised => None
  }

  /** The elapsed time the loop computes before its k-th query. */
  function Elapsed(clock: nat -> int, k: nat): int
  {
    clock(k + 1) - clock(0)
  }

  /**
   * The clock never runs backwards, and every round after the first spans a
   * two-second sleep, so consecutive readings after the first are at least two apart.
   */
  ghost predicate ClockAdvances(clock: nat -> int)
  {
    clock(0) <= clock(1) && forall k: nat :: 1 <= k ==> clock(k) + 2 <= clock(k + 1)
  }

  lemma {:induction false} ElapsedAtLeast(clock: nat -> int, k: nat)
    requires ClockAdvances(clock)
    ensures Elapsed(clock, k) >= 2 * k
  {
    if k > 0 {
      ElapsedAtLeast(clock, k - 1);
      assert clock(k) + 2 <= clock(k + 1);
    }
  }

  /** How a poll ended, and how many status queries it issued. */
  datatype PollRun = PollRun(outcome: Outcome<Object>, queries: nat)

  /**
   * The reference run of the loop, entered before the k-th query: the
   * specification the imperative `PollForResult` is proved against.
   */
  function Poll(script: nat -> Reply, clock: nat -> int, maxWait: int, k: nat): (r: PollRun)
    requires ClockAdvances(clock)
    ensures k <= r.queries
    ensures r.outcome == Exit(TimedOut) || k < r.queries
    decreases maxWait + 2 - 2 * k
  {
    if Elapsed(clock, k) > maxWait then PollRun(Exit(TimedOut), k)
    else
      match Verdict(script(k))
      case Some(outcome) => PollRun(outcome, k + 1)
      case None =>
        ElapsedAtLeast(clock, k);
        Poll(script, clock, maxWait, k + 1)
  }

  /**
   * `poll_for_result`. Returns the job's final body on COMPLETED; every other
   * ending is an `Exit`. The ghost `trace` lists the status queries issued.
   */
  method PollForResult(cfg: Config, jobId: string, maxWait: int, script: nat -> Reply, clock: nat -> int)
    returns (outcome: Outcome<Object>, ghost trace: seq<Request>)
    requires ClockAdvances(clock)
    ensures outcome == Poll(script, clock, maxWait, 0).outcome
    ensures |trace| == Poll(script, clock, maxWait, 0).queries
    ensures forall i :: 0 <= i < |trace| ==> trace[i] == StatusRequest(cfg, jobId)
  {
    var startTime := clock(0);
    var k: nat := 0;
    trace := [];
    while true
      invariant |trace| == k
      invariant forall i :: 0 <= i < |trace| ==> trace[i] == StatusRequest(cfg, jobId)
      invariant Poll(script, clock, maxWait, k) == Poll(script, clock, maxWait, 0)
      decreases maxWait + 2 - 2 * k
    {
      var elapsed := clock(k + 1) - startTime;
      if elapsed > maxWait {
        outcome := Exit(TimedOut);
        return;
      }
      trace := trace + [StatusRequest(cfg, jobId)];
      var reply := script(k);
      match reply {
        case ConnectionError =>
          outcome := Exit(StatusQueryError(None));
          return;
        case Response(code, body) =>
          if RaisesForStatus(code) {
            outcome := Exit(StatusQueryError(Some(code)));
            return;
          }
          var status := Classify(body);
          if status == Completed {
            outcome := Done(body);
            return;
          } else if status == Failed {
            outcome := Exit(JobFailed(body));
            return;
          }
          // IN_QUEUE, IN_PROGRESS, any other value or no status at all: sleep and ask again.
      }
      ElapsedAtLeast(clock, k);
      k := k + 1;
    }
  }

  /**
   * The run entered before query k stops at the first round that either finds
   * the time limit exceeded or gets a terminal reply: every query it issues is
   * within the limit, every reply but the last says "ask again", and the
   * outcome is the timeout (with the reading past the limit) or the last reply's verdict.
   */
  lemma {:induction false} PollStopsAtFirstVerdict(script: nat -> Reply, clock: nat -> int, maxWait: int, k: nat)
    requires ClockAdvances(clock)
    ensures var r := Poll(script, clock, maxWait, k);
      && (forall j: nat :: k <= j < r.queries ==> Elapsed(clock, j) <= maxWait)
      && (forall j: nat :: k <= j < r.queries - 1 ==> Verdict(script(j)) == None)
      && (if r.outcome == Exit(TimedOut)
          then Elapsed(clock, r.queries) > maxWait
          else Verdict(script(r.queries - 1)) == Some(r.outcome))
    decreases maxWait + 2 - 2 * k
  {
    if Elapsed(clock, k) <= maxWait && Verdict(script(k)) == None {
      ElapsedAtLeast(clock, k);
      PollStopsAtFirstVerdict(script, clock, maxWait, k + 1);
    }
  }

  /** No status query is issued once the elapsed time exceeds the limit, and a timeout is reported only then. */
  lemma NoQueryPastLimit(script: nat -> Reply, clock: nat -> int, maxWait: int)
    requires ClockAdvances(clock)
    ensures var r := Poll(script, clock, maxWait, 0);
      && (forall j: nat :: j < r.queries ==> Elapsed(clock, j) <= maxWait)
      && (r.outcome == Exit(TimedOut) ==> Elapsed(clock, r.queries) > maxWait)
  {
    PollStopsAtFirstVerdict(script, clock, maxWait, 0);
  }

  /**
   * The poll ends at the first terminal reply: COMPLETED returns that reply's
   * body, FAILED exits with it, an HTTP or connection error exits with a
   * status-query error, and no query follows any of them.
   */
  lemma StopsAtFirstTerminal(script: nat -> Reply, clock: nat -> int, maxWait: int)
    requires ClockAdvances(clock)
    ensures var r := Poll(script, clock, maxWait, 0);
      && (forall j: nat :: j < r.queries - 1 ==> Verdict(script(j)) == None)
      && (r.outcome != Exit(TimedOut) ==>
            var last := script(r.queries - 1);
            && (last.ConnectionError? ==> r.outcome == Exit(StatusQueryError(None)))
            && (last.Response? && RaisesForStatus(last.code) ==> r.outcome == Exit(StatusQueryError(Some(last.code))))
            && (last.Response? && !RaisesForStatus(last.code) && Lookup(last.body, "status") == Some(Str("COMPLETED")) ==>
                  r.outcome == Done(last.body))
            && (last.Response? && !RaisesForStatus(last.code) && Lookup(last.body, "status") == Some(Str("FAILED")) ==>
                  r.outcome == Exit(JobFailed(last.body))))
      && (r.outcome.Done? ==> exists code :: script(r.queries - 1) == Response(code, r.outcome.value)
                                              && !RaisesForStatus(code) && Classify(r.outcome.value) == Completed)
      && (r.outcome.Exit? && r.outcome.failure.JobFailed? ==>
            exists code :: script(r.queries - 1) == Response(code, r.outcome.failure.body)
                           && !RaisesForStatus(code) && Classify(r.outcome.failure.body) == Failed)
  {
    PollStopsAtFirstVerdict(script, clock, maxWait, 0);
    var r := Poll(script, clock, maxWait, 0);
    if r.outcome.Done? || (r.outcome.Exit? && r.outcome.failure.JobFailed?) {
      var last := script(r.queries - 1);
      assert last.Response?;
      assert last == Response(last.code, last.body);
    }
  }

  /**
   * IN_QUEUE, IN_PROGRESS, an unrecognised status or a missing one never
   * ends the poll: within the time limit the loop simply asks again.
   */
  lemma NonTerminalStatusRepeats(script: nat -> Reply, clock: nat -> int, maxWait: int, k: nat)
    requires ClockAdvances(clock)
    requires Elapsed(clock, k) <= maxWait
    requires script(k).Response? && !RaisesForStatus(script(k).code)
    requires Lookup(script(k).body, "status") !in {Some(Str("COMPLETED")), Some(Str("FAILED"))}
    ensures Poll(script, clock, maxWait, k) == Poll(script, clock, maxWait, k + 1)
  {
  }

  /**
   * A query within the limit whose reply is terminal ends the poll right
   * there, with that reply's verdict: COMPLETED gives its body, FAILED a job
   * failure carrying its body, an HTTP or connection error a status-query error.
   */
  lemma TerminalReplyEndsPoll(script: nat -> Reply, clock: nat -> int, maxWait: int, k: nat)
    requires ClockAdvances(clock)
    requires Elapsed(clock, k) <= maxWait
    requires Verdict(script(k)).Some?
    ensures Poll(script, clock, maxWait, k) == PollRun(Verdict(script(k)).value, k + 1)
  {
  }

  /** A reading exactly at the limit is not a timeout: the query is still issued. */
  lemma ReadingAtLimitStillQueries(script: nat -> Reply, clock: nat -> int, maxWait: int, k: nat)
    requires ClockAdvances(clock)
    requires Elapsed(clock, k) == maxWait
    ensures Poll(script, clock, maxWait, k).queries > k
  {
  }

  /**
   * With every round lasting at least two seconds, a poll issues at most
   * `maxWait / 2 + 1` status queries, and none at all when the first reading
   * is already past the limit.
   */
  lemma QueryBound(script: nat -> Reply, clock: nat -> int, maxWait: int)
    requires ClockAdvances(clock)
    ensures var r := Poll(script, clock, maxWait, 0);
      && (Elapsed(clock, 0) > maxWait ==> r.queries == 0)
      && (maxWait >= 0 ==> r.queries <= maxWait / 2 + 1)
  {
    var r := Poll(script, clock, maxWait, 0);
    PollStopsAtFirstVerdict(script, clock, maxWait, 0);
    if r.queries > 0 {
      ElapsedAtLeast(clock, r.queries - 1);
      assert Elapsed(clock, r.queries - 1) <= maxWait;
    }
  }

  /** A successful status reply whose body is just `{"status": status}`. */
  function StatusReply(status: string): Reply
  {
    Response(200, map["status" := Str(status)])
  }

  /**
   * Queued once, then completed with output "hi": the poll returns the second
   * reply's body after exactly two queries.
   */
  lemma QueuedThenCompleted(clock: nat -> int, maxWait: int)
    requires ClockAdvances(clock)
    requires Elapsed(clock, 1) <= maxWait
    ensures var done := map["status" := Str("COMPLETED"), "output" := Str("hi")];
      Poll(k => if k == 0 then StatusReply("IN_QUEUE") else Response(200, done), clock, maxWait, 0)
        == PollRun(Done(done), 2)
  {
  }

  /**
   * A job that stays IN_PROGRESS under a limit of 4 with an ideal clock
   * (first reading at the start, then exactly 2 per round) is queried at
   * elapsed 0, 2 and 4 (the strict comparison lets the reading at 4 through)
   * and times out at 6.
   */
  lemma AlwaysInProgressTimesOut()
    ensures var clock := (k: nat) => if k == 0 then 0 else 2 * (k - 1);
      ClockAdvances(clock) &&
      Poll(_ => StatusReply("IN_PROGRESS"), clock, 4, 0) == PollRun(Exit(TimedOut), 3)
  {
  }

  /**
   * The same job under a slower clock (readings 1, 3, 5 after a start at 0,
   * each round taking more than the 2-second sleep) is queried at elapsed 1
   * and 3 and times out at 5: two queries.
   */
  lemma SlowRoundsInProgressTimesOut()
    ensures var clock := (k: nat) => if k == 0 then 0 else 2 * k - 1;
      ClockAdvances(clock) &&
      Poll(_ => StatusReply("IN_PROGRESS"), clock, 4, 0) == PollRun(Exit(TimedOut), 2)
  {
  }

  /** A FAILED reply ends the poll with a job failure carrying that reply's whole body. */
  lemma FailedCarriesBody(clock: nat -> int, maxWait: int)
    requires ClockAdvances(clock)
    requires Elapsed(clock, 0) <= maxWait
    ensures var failed := map["status" := Str("FAILED"), "error" := Str("oom")];
      Poll(_ => Response(200, failed), clock, maxWait, 0) == PollRun(Exit(JobFailed(failed)), 1)
  {
  }
}
