/**
 * The process harness shared by every run helper of src/compiler.ts
 * (`handleProcess`): one child process, its stdin written once, stdout and
 * stderr accumulated, a kill timer, and a promise that settles at most once.
 *
 * Node delivers the child's activity as events. `Step` says what one event
 * does to the harness state and `Run` folds a whole event trace; the class
 * `ProcessHarness` holds the same state in fields and has one method per
 * event handler, each proved to perform `Step`.
 */
module Process {
  import opened JsText

  /** The default of `timeoutMs` in every run helper. */
  const DefaultTimeoutMs: nat := 10000

  /** Why a run promise was rejected. */
  datatype Failure =
    | TimeLimitExceeded(timeoutMs: nat)   // the timer fired; the message shows the configured limit
    | ExitFailure(stderr: string)         // non-zero or signal exit; the message is exactly the stderr buffer
    | StdinWriteFailed(cause: string)     // writing or ending stdin threw
    | SpawnError(cause: string)           // the child emitted 'error' (for instance, binary not found)

  /** How a run promise settled. */
  datatype Outcome = Resolved(stdout: string) | Rejected(failure: Failure)

  /** What the child process and the timer can deliver after launch. */
  datatype Event =
    | StdoutData(chunk: string)
    | StderrData(chunk: string)
    | TimerFired
    | Close(exitCode: Option<int>)   // None: the child was ended by a signal
    | ProcessError(cause: string)

  datatype HarnessState = HarnessState(
    stdout: string,
    stderr: string,
    killed: bool,            // set by the timer just before proc.kill()
    timerPending: bool,      // the timer is armed: neither fired nor cleared
    settled: Option<Outcome>,
    timeoutMs: nat)

  /**
   * The invariant every reachable state keeps: the timer is armed exactly
   * while the promise is unsettled, and a killed process has been rejected
   * with the time-limit failure.
   */
  predicate Consistent(s: HarnessState) {
    && (s.timerPending <==> s.settled.None?)
    && (s.killed ==> s.settled == Some(Rejected(TimeLimitExceeded(s.timeoutMs))))
  }

  /** resolve/reject on a JavaScript promise: only the first call has an effect. */
  function Settle(s: HarnessState, o: Outcome): HarnessState {
    if s.settled.None? then s.(settled := Some(o)) else s
  }

  /**
   * A promise settles once: the first resolve/reject fixes the outcome, and a
   * second one on the settled promise is a no-op.
   */
  lemma SettleOnce(s: HarnessState, o1: Outcome, o2: Outcome)
    ensures Settle(s, o1).settled.Some?
    ensures s.settled.None? ==> Settle(s, o1).settled == Some(o1)
    ensures Settle(Settle(s, o1), o2) == Settle(s, o1)
  {
  }

  /**
   * The state right after `handleProcess` has armed the timer and written the
   * input: a write that throws clears the timer and rejects at once.
   */
  function Start(timeoutMs: nat, writeError: Option<string>): (s: HarnessState)
    ensures Consistent(s)
    ensures s.stdout == "" && s.stderr == "" && !s.killed && s.timeoutMs == timeoutMs
    ensures s.settled.Some? <==> writeError.Some?
    ensures writeError.Some? ==> s.settled == Some(Rejected(StdinWriteFailed(writeError.value)))
  {
    var armed := HarnessState("", "", false, true, None, timeoutMs);
    match writeError
    case None => armed
    case Some(e) => Settle(armed.(timerPending := false), Rejected(StdinWriteFailed(e)))
  }

  /** One event handler of `handleProcess`. */
  function Step(s: HarnessState, e: Event): HarnessState {
    match e
    case StdoutData(c) => s.(stdout := s.stdout + c)
    case StderrData(c) => s.(stderr := s.stderr + c)
    case TimerFired =>
      if !s.timerPending then s   // a cleared timer never fires
      else Settle(s.(killed := true, timerPending := false), Rejected(TimeLimitExceeded(s.timeoutMs)))
    case Close(code) =>
      if s.killed then s
      else Settle(s.(timerPending := false),
                  if code == Some(0) then Resolved(s.stdout) else Rejected(ExitFailure(s.stderr)))
    case ProcessError(c) => Settle(s.(timerPending := false), Rejected(SpawnError(c)))
  }

  /** The harness state after a trace of events, delivered in order. */
  function Run(s: HarnessState, trace: seq<Event>): HarnessState
    decreases |trace|
  {
    if trace == [] then s else Run(Step(s, trace[0]), trace[1..])
  }

  predicate IsData(e: Event) {
    e.StdoutData? || e.StderrData?
  }

  predicate AllData(trace: seq<Event>) {
    forall i :: 0 <= i < |trace| ==> IsData(trace[i])
  }

  /** The stdout chunks of a trace, concatenated in arrival order. */
  function StdoutOf(trace: seq<Event>): string {
    if trace == [] then ""
    else (if trace[0].StdoutData? then trace[0].chunk else "") + StdoutOf(trace[1..])
  }

  /** The stderr chunks of a trace, concatenated in arrival order. */
  function StderrOf(trace: seq<Event>): string {
    if trace == [] then ""
    else (if trace[0].StderrData? then trace[0].chunk else "") + StderrOf(trace[1..])
  }

  /** Every handler keeps the harness consistent. */
  lemma StepConsistent(s: HarnessState, e: Event)
    requires Consistent(s)
    ensures Consistent(Step(s, e))
    ensures Step(s, e).timeoutMs == s.timeoutMs
  {
  }

  lemma {:induction false} RunConsistent(s: HarnessState, trace: seq<Event>)
    requires Consistent(s)
    ensures Consistent(Run(s, trace))
    decreases |trace|
  {
    if trace != [] {
      StepConsistent(s, trace[0]);
      RunConsistent(Step(s, trace[0]), trace[1..]);
    }
  }

  lemma {:induction false} RunAppend(s: HarnessState, a: seq<Event>, b: seq<Event>)
    ensures Run(s, a + b) == Run(Run(s, a), b)
    decreases |a|
  {
    if a == [] {
      assert a + b == b;
    } else {
      assert (a + b)[0] == a[0];
      assert (a + b)[1..] == a[1..] + b;
      RunAppend(Step(s, a[0]), a[1..], b);
    }
  }

  lemma RunSingle(s: HarnessState, e: Event)
    ensures Run(s, [e]) == Step(s, e)
  {
    assert [e][1..] == [];
  }

  /** Once the promise has settled, no later event changes how it settled. */
  lemma {:induction false} SettledOnce(s: HarnessState, trace: seq<Event>)
    requires s.settled.Some?
    ensures Run(s, trace).settled == s.settled
    decreases |trace|
  {
    if trace != [] {
      SettledOnce(Step(s, trace[0]), trace[1..]);
    }
  }

  /** Data events only grow the two buffers, each by its own chunks in arrival order. */
  lemma {:induction false} DataOnlyBuffers(s: HarnessState, trace: seq<Event>)
    requires AllData(trace)
    ensures Run(s, trace) == s.(stdout := s.stdout + StdoutOf(trace), stderr := s.stderr + StderrOf(trace))
    decreases |trace|
  {
    if trace == [] {
      assert s.stdout + StdoutOf(trace) == s.stdout;
      assert s.stderr + StderrOf(trace) == s.stderr;
    } else {
      var e, rest := trace[0], trace[1..];
      assert IsData(e);
      assert AllData(rest) by {
        forall i | 0 <= i < |rest| ensures IsData(rest[i]) {
          assert rest[i] == trace[i + 1];
        }
      }
      var s' := Step(s, e);
      assert Run(s, trace) == Run(s', rest);
      DataOnlyBuffers(s', rest);
      DataStep(s, e, rest);
    }
  }

  lemma DataStep(s: HarnessState, e: Event, rest: seq<Event>)
    requires IsData(e)
    ensures var s' := Step(s, e);
      && s'.stdout + StdoutOf(rest) == s.stdout + StdoutOf([e] + rest)
      && s'.stderr + StderrOf(rest) == s.stderr + StderrOf([e] + rest)
      && s' == s.(stdout := s'.stdout, stderr := s'.stderr)
  {
    var t := [e] + rest;
    assert t[0] == e && t[1..] == rest;
    if e.StdoutData? {
      assert StdoutOf(t) == e.chunk + StdoutOf(rest);
      assert StderrOf(t) == StderrOf(rest);
      assert s.stdout + e.chunk + StdoutOf(rest) == s.stdout + (e.chunk + StdoutOf(rest));
    } else {
      assert StderrOf(t) == e.chunk + StderrOf(rest);
      assert StdoutOf(t) == StdoutOf(rest);
      assert s.stderr + e.chunk + StderrOf(rest) == s.stderr + (e.chunk + StderrOf(rest));
    }
  }

  /**
   * close(0) before the timeout resolves with the untrimmed stdout, which is
   * every stdout chunk received before it, in order; nothing after changes it.
   */
  lemma ExitZeroResolvesWithStdout(timeoutMs: nat, before: seq<Event>, after: seq<Event>)
    requires AllData(before)
    ensures Run(Start(timeoutMs, None), before + [Close(Some(0))] + after).settled
            == Some(Resolved(StdoutOf(before)))
  {
    var s0 := Start(timeoutMs, None);
    RunAppend(s0, before + [Close(Some(0))], after);
    RunAppend(s0, before, [Close(Some(0))]);
    DataOnlyBuffers(s0, before);
    assert "" + StdoutOf(before) == StdoutOf(before);
    RunSingle(Run(s0, before), Close(Some(0)));
    SettledOnce(Run(s0, before + [Close(Some(0))]), after);
  }

  /**
   * Any other close before the timeout rejects with exactly the accumulated
   * stderr; the stdout buffer is not a fallback.
   */
  lemma NonZeroExitRejectsWithStderr(timeoutMs: nat, before: seq<Event>, code: Option<int>, after: seq<Event>)
    requires AllData(before)
    requires code != Some(0)
    ensures Run(Start(timeoutMs, None), before + [Close(code)] + after).settled
            == Some(Rejected(ExitFailure(StderrOf(before))))
  {
    var s0 := Start(timeoutMs, None);
    RunAppend(s0, before + [Close(code)], after);
    RunAppend(s0, before, [Close(code)]);
    DataOnlyBuffers(s0, before);
    assert "" + StderrOf(before) == StderrOf(before);
    RunSingle(Run(s0, before), Close(code));
    SettledOnce(Run(s0, before + [Close(code)]), after);
  }

  /**
   * A timer that fires first kills the process and rejects with the time
   * limit, whatever output was buffered and whatever the child does next
   * (its close after the kill is ignored).
   */
  lemma TimeoutWins(timeoutMs: nat, before: seq<Event>, after: seq<Event>)
    requires AllData(before)
    ensures Run(Start(timeoutMs, None), before + [TimerFired] + after).settled
            == Some(Rejected(TimeLimitExceeded(timeoutMs)))
    ensures Run(Start(timeoutMs, None), before + [TimerFired] + after).killed
  {
    var s0 := Start(timeoutMs, None);
    RunAppend(s0, before + [TimerFired], after);
    RunAppend(s0, before, [TimerFired]);
    DataOnlyBuffers(s0, before);
    RunSingle(Run(s0, before), TimerFired);
    var s1 := Run(s0, before + [TimerFired]);
    SettledOnce(s1, after);
    KilledStaysKilled(s1, after);
  }

  lemma {:induction false} KilledStaysKilled(s: HarnessState, trace: seq<Event>)
    requires s.killed
    ensures Run(s, trace).killed
    decreases |trace|
  {
    if trace != [] {
      KilledStaysKilled(Step(s, trace[0]), trace[1..]);
    }
  }

  /** With the timer cleared and the process not killed, no later event can kill it. */
  lemma {:induction false} DisarmedNeverKilled(s: HarnessState, trace: seq<Event>)
    requires !s.timerPending && !s.killed
    ensures !Run(s, trace).killed && !Run(s, trace).timerPending
    decreases |trace|
  {
    if trace != [] {
      DisarmedNeverKilled(Step(s, trace[0]), trace[1..]);
    }
  }

  /**
   * A launch 'error' clears the timer and rejects (unless something settled
   * first); afterwards the timeout can no longer fire.
   */
  lemma SpawnErrorDisarmsTimer(s: HarnessState, cause: string, after: seq<Event>)
    requires Consistent(s) && !s.killed
    ensures s.settled.None? ==> Run(Step(s, ProcessError(cause)), after).settled == Some(Rejected(SpawnError(cause)))
    ensures !Run(Step(s, ProcessError(cause)), after).killed
  {
    var s1 := Step(s, ProcessError(cause));
    DisarmedNeverKilled(s1, after);
    SettledOnce(s1, after);
  }

  /** A failed stdin write decides the outcome for good and the timer never fires. */
  lemma WriteFailureIsFinal(timeoutMs: nat, cause: string, trace: seq<Event>)
    ensures Run(Start(timeoutMs, Some(cause)), trace).settled == Some(Rejected(StdinWriteFailed(cause)))
    ensures !Run(Start(timeoutMs, Some(cause)), trace).killed
  {
    var s0 := Start(timeoutMs, Some(cause));
    SettledOnce(s0, trace);
    DisarmedNeverKilled(s0, trace);
  }

  /**
   * `handleProcess` as an object: the two buffers, the killed flag, the timer
   * and the single-assignment promise cell are fields that the event handlers
   * update in place.
   */
  class ProcessHarness {
    const input: string        // the payload written to the child's stdin
    const timeoutMs: nat
    var stdout: string
    var stderr: string
    var killed: bool
    var timerPending: bool
    var settled: Option<Outcome>

    function State(): HarnessState
      reads this
    {
      HarnessState(stdout, stderr, killed, timerPending, settled, timeoutMs)
    }

    predicate Valid()
      reads this
    {
      Consistent(State())
    }

    /** Arms the timer, then writes `input` and ends stdin; `writeError` is what that write threw, if anything. */
    constructor (input: string, timeoutMs: nat, writeError: Option<string>)
      ensures Valid()
      ensures this.input == input
      ensures State() == Start(timeoutMs, writeError)
    {
      this.input := input;
      this.timeoutMs := timeoutMs;
      stdout, stderr := "", "";
      killed := false;
      timerPending := true;
      settled := None;
      new;
      if writeError.Some? {
        timerPending := false;
        SettleWith(Rejected(StdinWriteFailed(writeError.value)));
      }
    }

    /** resolve or reject: a no-op once the promise has settled. */
    method SettleWith(o: Outcome)
      modifies this
      ensures State() == Settle(old(State()), o)
    {
      if settled.None? {
        settled := Some(o);
      }
    }

    method OnStdout(chunk: string)
      requires Valid()
      modifies this
      ensures Valid()
      ensures State() == Step(old(State()), StdoutData(chunk))
    {
      stdout := stdout + chunk;
    }

    method OnStderr(chunk: string)
      requires Valid()
      modifies this
      ensures Valid()
      ensures State() == Step(old(State()), StderrData(chunk))
    {
      stderr := stderr + chunk;
    }

    method OnTimer()
      requires Valid()
      modifies this
      ensures Valid()
      ensures State() == Step(old(State()), TimerFired)
    {
      if timerPending {
        killed := true;
        timerPending := false;
        SettleWith(Rejected(TimeLimitExceeded(timeoutMs)));
      }
    }

    method OnClose(exitCode: Option<int>)
      requires Valid()
      modifies this
      ensures Valid()
      ensures State() == Step(old(State()), Close(exitCode))
    {
      if killed {
        return;
      }
      timerPending := false;
      if exitCode == Some(0) {
        SettleWith(Resolved(stdout));
      } else {
        SettleWith(Rejected(ExitFailure(stderr)));
      }
    }

    method OnError(cause: string)
      requires Valid()
      modifies this
      ensures Valid()
      ensures State() == Step(old(State()), ProcessError(cause))
    {
      timerPending := false;
      SettleWith(Rejected(SpawnError(cause)));
    }
  }
}
