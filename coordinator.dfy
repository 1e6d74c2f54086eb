/** The run-completion logic of src/cli.js:15-21 and 119-136: every glob
    match pushes a compile job, the glob's `end` takes `Promise.all` of the
    jobs pushed so far, and `finished` is set once that resolves; on
    `beforeExit` an unfinished run exits with status 1. Interleaving is
    reduced to the order in which these events are delivered. */
module Coordinator {
  import opened Wrappers

  datatype JobStatus = Pending | Succeeded | Failed

  /** `match` pushes a job, a job settles, or the glob ends. */
  datatype Event = Match | JobOk(job: nat) | JobFail(job: nat) | End

  /** `jobs`, the number of jobs `Promise.all` was given at `end` (if it has
      happened), and the `finished` flag. */
  datatype RunState = RunState(jobs: seq<JobStatus>, snapshot: Option<nat>, finished: bool)

  const Initial: RunState := RunState([], None, false)

  predicate AllSucceeded(jobs: seq<JobStatus>, n: nat)
    requires n <= |jobs|
  {
    forall j | 0 <= j < n :: jobs[j] == Succeeded
  }

  /** `.then(() => { finished = true; })`: runs once every job handed to
      `Promise.all` has succeeded. */
  function Conclude(s: RunState): RunState
  {
    if s.snapshot.Some? && s.snapshot.value <= |s.jobs| && AllSucceeded(s.jobs, s.snapshot.value)
    then s.(finished := true)
    else s
  }

  /** A job settles; a job that does not exist or has already settled is
      left alone (a promise settles once). */
  function SettleJob(s: RunState, job: nat, status: JobStatus): RunState
  {
    if job < |s.jobs| && s.jobs[job] == Pending
    then Conclude(s.(jobs := s.jobs[job := status]))
    else s
  }

  /** The event of job `job` settling. */
  function Settled(job: nat, success: bool): (e: Event)
    ensures e == JobOk(job) || e == JobFail(job)
    ensures e.JobOk? <==> success
  {
    if success then JobOk(job) else JobFail(job)
  }

  function Step(s: RunState, e: Event): RunState
  {
    match e
    case Match => s.(jobs := s.jobs + [Pending])
    case JobOk(job) => SettleJob(s, job, Succeeded)
    case JobFail(job) => SettleJob(s, job, Failed)
    case End => if s.snapshot.None? then Conclude(s.(snapshot := Some(|s.jobs|))) else s
  }

  function Run(s: RunState, events: seq<Event>): RunState
    decreases |events|
  {
    if events == [] then s else Run(Step(s, events[0]), events[1..])
  }

  /** The exit status: `beforeExit` calls `process.exit(1)` when the run
      has not finished; otherwise the process ends normally. */
  function ExitCode(s: RunState): (code: int)
    ensures code == 0 || code == 1
    ensures code == 0 <==> s.finished
  {
    if s.finished then 0 else 1
  }

  /** What `finished` means: `end` has happened and every job it saw has
      succeeded. */
  ghost predicate Inv(s: RunState)
  {
    && (s.snapshot.Some? ==> s.snapshot.value <= |s.jobs|)
    && (s.finished <==> s.snapshot.Some? && AllSucceeded(s.jobs, s.snapshot.value))
  }

  lemma StepKeepsInv(s: RunState, e: Event)
    requires Inv(s)
    ensures Inv(Step(s, e))
  {
    match e
    case Match => {
      var t := Step(s, e);
      if s.snapshot.Some? {
        assert forall j | 0 <= j < s.snapshot.value :: t.jobs[j] == s.jobs[j];
      }
    }
    case JobOk(job) => {}
    case JobFail(job) => {}
    case End => {}
  }

  lemma {:induction false} RunKeepsInv(s: RunState, events: seq<Event>)
    requires Inv(s)
    ensures Inv(Run(s, events))
    decreases |events|
  {
    if events != [] {
      StepKeepsInv(s, events[0]);
      RunKeepsInv(Step(s, events[0]), events[1..]);
    }
  }

  function CountMatches(events: seq<Event>): nat
  {
    if events == [] then 0 else (if events[0] == Match then 1 else 0) + CountMatches(events[1..])
  }

  /** Index of the first `end`, or |events| if there is none. */
  function FirstEnd(events: seq<Event>): (k: nat)
    ensures k <= |events|
    ensures forall i | 0 <= i < k :: events[i] != End
    ensures k < |events| ==> events[k] == End
  {
    if events == [] || events[0] == End then 0 else 1 + FirstEnd(events[1..])
  }

  /** One job per `match`, and `Promise.all` is given exactly the jobs
      pushed before the first `end`; later `end`s change nothing. */
  lemma {:induction false} RunCounts(s: RunState, events: seq<Event>)
    ensures |Run(s, events).jobs| == |s.jobs| + CountMatches(events)
    ensures s.snapshot.Some? ==> Run(s, events).snapshot == s.snapshot
    ensures s.snapshot.None? ==>
              Run(s, events).snapshot == (if End in events then Some(|s.jobs| + CountMatches(events[..FirstEnd(events)])) else None)
    decreases |events|
  {
    if events != [] {
      var t := Step(s, events[0]);
      var rest := events[1..];
      RunCounts(t, rest);
      assert End in events <==> events[0] == End || End in rest;
      if events[0] != End {
        assert events[..FirstEnd(events)] == [events[0]] + rest[..FirstEnd(rest)];
        assert ([events[0]] + rest[..FirstEnd(rest)])[1..] == rest[..FirstEnd(rest)];
      } else {
        assert events[..FirstEnd(events)] == [];
      }
    }
  }

  /** `finished` holds exactly when `end` has been seen and every job
      pushed before it succeeded. */
  lemma FinishedIff(events: seq<Event>)
    ensures var s := Run(Initial, events);
      && |s.jobs| == CountMatches(events)
      && (s.finished <==>
            End in events
            && var n := CountMatches(events[..FirstEnd(events)]);
               n <= |s.jobs| && forall j | 0 <= j < n :: s.jobs[j] == Succeeded)
  {
    RunKeepsInv(Initial, events);
    RunCounts(Initial, events);
  }

  /** Without any match, the run finishes at `end`, and only then. */
  lemma NoMatchFinishes(events: seq<Event>)
    requires forall i | 0 <= i < |events| :: events[i] != Match
    ensures Run(Initial, events).finished <==> End in events
  {
    FinishedIff(events);
    NoMatchCount(events);
  }

  lemma {:induction false} NoMatchCount(events: seq<Event>)
    requires forall i | 0 <= i < |events| :: events[i] != Match
    ensures CountMatches(events) == 0
    ensures forall k | 0 <= k <= |events| :: CountMatches(events[..k]) == 0
    decreases |events|
  {
    if events != [] {
      NoMatchCount(events[1..]);
      forall k | 0 <= k <= |events| ensures CountMatches(events[..k]) == 0 {
        if k > 0 {
          assert events[..k][1..] == events[1..][..k - 1];
        }
      }
    }
  }

  /** A failed job that `Promise.all` was (or will be) given keeps the run
      unfinished whatever happens next, so the process exits with 1. */
  lemma {:induction false} FailureIsFinal(s: RunState, events: seq<Event>, job: nat)
    requires Inv(s)
    requires job < |s.jobs| && s.jobs[job] == Failed
    requires s.snapshot.Some? ==> job < s.snapshot.value
    ensures !Run(s, events).finished
    ensures ExitCode(Run(s, events)) == 1
    decreases |events|
  {
    if events != [] {
      var t := Step(s, events[0]);
      StepKeepsInv(s, events[0]);
      assert t.jobs[job] == Failed;
      FailureIsFinal(t, events[1..], job);
    } else if s.snapshot.Some? {
      assert s.jobs[job] != Succeeded;
    }
  }

  /** Once finished, the run stays finished. */
  lemma {:induction false} FinishedIsFinal(s: RunState, events: seq<Event>)
    requires s.finished
    ensures Run(s, events).finished
    decreases |events|
  {
    if events != [] {
      FinishedIsFinal(Step(s, events[0]), events[1..]);
    }
  }

  function Matches(n: nat): (r: seq<Event>)
    ensures |r| == n && forall i | 0 <= i < n :: r[i] == Match
  {
    if n == 0 then [] else Matches(n - 1) + [Match]
  }

  /** `JobOk(lo)`, `JobOk(lo + 1)`, …, `JobOk(hi - 1)`. */
  function Successes(lo: nat, hi: nat): (r: seq<Event>)
    requires lo <= hi
    ensures |r| == hi - lo
    ensures forall i | 0 <= i < |r| :: r[i] == JobOk(lo + i)
    decreases hi - lo
  {
    if lo == hi then [] else [JobOk(lo)] + Successes(lo + 1, hi)
  }

  lemma {:induction false} MatchesRun(n: nat)
    ensures Run(Initial, Matches(n)) == RunState(seq(n, _ => Pending), None, false)
  {
    if n > 0 {
      MatchesRun(n - 1);
      RunAppend(Initial, Matches(n - 1), [Match]);
      assert Matches(n) == Matches(n - 1) + [Match];
      assert seq(n - 1, _ => Pending) + [Pending] == seq(n, _ => Pending);
    }
  }

  lemma {:induction false} RunAppend(s: RunState, a: seq<Event>, b: seq<Event>)
    ensures Run(s, a + b) == Run(Run(s, a), b)
    decreases |a|
  {
    if a != [] {
      assert a + b != [] && (a + b)[0] == a[0];
      assert (a + b)[1..] == a[1..] + b;
      RunAppend(Step(s, a[0]), a[1..], b);
    } else {
      assert a + b == b;
    }
  }

  lemma {:induction false} SuccessesRun(s: RunState, from: nat)
    requires Inv(s) && s.snapshot == Some(|s.jobs|) && from <= |s.jobs|
    requires forall j | 0 <= j < from :: s.jobs[j] == Succeeded
    requires forall j | from <= j < |s.jobs| :: s.jobs[j] == Pending
    ensures Run(s, Successes(from, |s.jobs|)).finished
    decreases |s.jobs| - from
  {
    if from == |s.jobs| {
      assert AllSucceeded(s.jobs, |s.jobs|);
      assert Successes(from, |s.jobs|) == [];
    } else {
      var t := Step(s, JobOk(from));
      var rest := Successes(from + 1, |s.jobs|);
      assert t.jobs == s.jobs[from := Succeeded];
      assert Successes(from, |s.jobs|) == [JobOk(from)] + rest;
      assert ([JobOk(from)] + rest)[1..] == rest;
      StepKeepsInv(s, JobOk(from));
      SuccessesRun(t, from + 1);
    }
  }

  /** `n` matches, then `end`, then every job succeeds: the run finishes
      and the process exits with 0. */
  lemma SuccessfulRun(n: nat)
    ensures var s := Run(Initial, Matches(n) + [End] + Successes(0, n));
      s.finished && ExitCode(s) == 0
  {
    MatchesRun(n);
    var s0 := Run(Initial, Matches(n));
    RunAppend(Initial, Matches(n), [End]);
    RunAppend(Initial, Matches(n) + [End], Successes(0, n));
    var s1 := Step(s0, End);
    assert Run(s0, [End]) == s1;
    RunKeepsInv(Initial, Matches(n));
    StepKeepsInv(s0, End);
    SuccessesRun(s1, 0);
  }

  /** The module-level state of src/cli.js: the `jobs` array, the array
      `Promise.all` was handed at `end`, and `finished`. */
  class Completion {
    var jobs: seq<JobStatus>
    var snapshot: Option<nat>
    var finished: bool

    function State(): RunState
      reads this
    {
      RunState(jobs, snapshot, finished)
    }

    constructor ()
      ensures State() == Initial
    {
      jobs, snapshot, finished := [], None, false;
    }

    /** `glob.on('match', …)`: `jobs.push(compile(filename))`; the
        returned index names the job. */
    method OnMatch() returns (job: nat)
      modifies this
      ensures State() == Step(old(State()), Match)
      ensures job == |old(jobs)| && jobs[job] == Pending
    {
      job := |jobs|;
      jobs := jobs + [Pending];
    }

    /** A compile job settles. */
    method OnSettle(job: nat, success: bool)
      modifies this
      ensures State() == Step(old(State()), Settled(job, success))
    {
      if job < |jobs| && jobs[job] == Pending {
        jobs := jobs[job := if success then Succeeded else Failed];
        if snapshot.Some? && snapshot.value <= |jobs| && AllSucceeded(jobs, snapshot.value) {
          finished := true;
        }
      }
    }

    /** `glob.on('end', …)`: `Promise.all(jobs)`. */
    method OnEnd()
      modifies this
      ensures State() == Step(old(State()), End)
    {
      if snapshot.None? {
        snapshot := Some(|jobs|);
        if AllSucceeded(jobs, |jobs|) {
          finished := true;
        }
      }
    }

    /** `process.on('beforeExit', …)`: the exit status. */
    method BeforeExit() returns (code: int)
      ensures code == ExitCode(State())
      ensures code == 1 <==> !finished
    {
      if !finished {
        code := 1;
      } else {
        code := 0;
      }
    }
  }
}
