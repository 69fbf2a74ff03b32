/**
 * One supervised `kubectl port-forward` child (proc/process.go).
 *
 * `Start`, `Restart` and `SendSigTerm` have value receivers in the source, so
 * `Start` works on a copy of the caller's `RestartableProcess`: it resets the
 * copy's counter and running flag, records the new process handle in the copy,
 * and the two monitor goroutines close over that copy. The class `Session` is
 * such a started copy together with the state of its one-slot success channel
 * and of its stdout monitor. The caller's object is never changed.
 *
 * The monitors are modelled as events applied one at a time: `OnStdoutLine`
 * for a line on stdout and `OnStderrLine` for a line on stderr. Each is
 * specified by a pure step function over `SessionState`; the lemmas at the end
 * are about runs of such events.
 */
module Process {
  import opened Base

  /** `MAX_RETRIES`: connection-refused retries one started copy tolerates. */
  const MAX_RETRIES: int := 10
  /** `CONNECTION_RETRY_INTERVAL`, in seconds. */
  const CONNECTION_RETRY_INTERVAL: int := 30
  /** The text the unanchored pattern `.*connection refused` searches for. */
  const CONNECTION_FAILURE_TEXT: string := "connection refused"

  /** The OS process behind an `*exec.Cmd`. */
  datatype Handle = Handle(pid: int)

  datatype OsError = OsError(message: string)

  /** What `StderrPipe` and `StdoutPipe` report; the first failure wins. */
  datatype PipeOutcome = PipesOk | StderrPipeFailed(err: OsError) | StdoutPipeFailed(err: OsError)

  /** What the OS does when `Start` spawns a child. */
  datatype Spawn = Spawn(pipes: PipeOutcome, handle: Handle)

  // ---------------------------------------------------------------------------
  // The connection-failure classifier
  // ---------------------------------------------------------------------------

  predicate OccursAt(pat: string, s: string, i: int)
  {
    0 <= i && i + |pat| <= |s| && s[i..i + |pat|] == pat
  }

  /** Substring search, scanning start positions from the left. */
  predicate Contains(s: string, pat: string)
    decreases |s|
  {
    |pat| <= |s| && (s[..|pat|] == pat || Contains(s[1..], pat))
  }

  lemma {:induction false} ContainsWitness(s: string, pat: string) returns (i: int)
    requires Contains(s, pat)
    ensures OccursAt(pat, s, i)
    decreases |s|
  {
    if s[..|pat|] == pat {
      i := 0;
    } else {
      var j := ContainsWitness(s[1..], pat);
      assert s[1..][j..j + |pat|] == s[j + 1..j + 1 + |pat|];
      i := j + 1;
    }
  }

  lemma {:induction false} OccursImpliesContains(s: string, pat: string, i: int)
    requires OccursAt(pat, s, i)
    ensures Contains(s, pat)
    decreases i
  {
    if i > 0 && s[..|pat|] != pat {
      assert s[1..][i - 1..i - 1 + |pat|] == s[i..i + |pat|];
      OccursImpliesContains(s[1..], pat, i - 1);
    }
  }

  /** The substring search finds `pat` exactly when it occurs somewhere in `s`. */
  lemma ContainsIff(s: string, pat: string)
    ensures Contains(s, pat) <==> exists i :: OccursAt(pat, s, i)
  {
    if Contains(s, pat) {
      var i := ContainsWitness(s, pat);
    }
    if exists i :: OccursAt(pat, s, i) {
      var i :| OccursAt(pat, s, i);
      OccursImpliesContains(s, pat, i);
    }
  }

  /** `K8S_CONNECTION_FAILURE_TEST.MatchString(line)`. */
  predicate IsConnectionFailure(line: string)
  {
    Contains(line, CONNECTION_FAILURE_TEXT)
  }

  // ---------------------------------------------------------------------------
  // The decision taken for one stderr line
  // ---------------------------------------------------------------------------

  datatype Decision =
    | Restart                          // a success line was pending: restart unconditionally
    | RetryAfter(seconds: int)         // connection refused within budget: sleep, count, restart
    | Terminate(givingUpLogged: bool)  // anything else: SIGTERM, no restart

  function Decide(hasOutput: bool, line: string, restartCount: int): Decision
  {
    if hasOutput then Restart
    else if IsConnectionFailure(line) && restartCount <= MAX_RETRIES then RetryAfter(CONNECTION_RETRY_INTERVAL)
    else Terminate(restartCount > MAX_RETRIES)
  }

  /** The four outcomes of `Decide`, each characterised by its inputs. */
  lemma DecideCases(hasOutput: bool, line: string, restartCount: int)
    ensures Decide(hasOutput, line, restartCount) == Restart <==> hasOutput
    ensures Decide(hasOutput, line, restartCount).RetryAfter?
        <==> !hasOutput && restartCount <= MAX_RETRIES
             && exists i :: OccursAt(CONNECTION_FAILURE_TEXT, line, i)
    ensures Decide(hasOutput, line, restartCount).RetryAfter?
        ==> Decide(hasOutput, line, restartCount).seconds == 30
    ensures Decide(hasOutput, line, restartCount) == Terminate(true)
        <==> !hasOutput && restartCount > MAX_RETRIES
    ensures Decide(hasOutput, line, restartCount) == Terminate(false)
        <==> !hasOutput && restartCount <= MAX_RETRIES
             && !exists i :: OccursAt(CONNECTION_FAILURE_TEXT, line, i)
  {
    ContainsIff(line, CONNECTION_FAILURE_TEXT);
  }

  // ---------------------------------------------------------------------------
  // The state of one started copy and its two event steps
  // ---------------------------------------------------------------------------

  /**
   * The fields of a started copy that the monitors read or write, plus the
   * success slot (`output <- true` not yet received) and whether the stdout
   * monitor has already acted on its one line.
   */
  datatype SessionState = SessionState(
    restartCount: int,
    running: bool,
    successPending: bool,
    stdoutDone: bool,
    hasOnRestarted: bool)

  /** Every copy `Start` launches begins here. */
  function Started(hasOnRestarted: bool): SessionState
  {
    SessionState(0, false, false, false, hasOnRestarted)
  }

  /**
   * A stdout line. The first one records the pending success, sets `Running`
   * and calls `OnRestarted` (the second result) when the copy's counter is
   * positive and a callback is set; later ones are never read.
   */
  function StdoutStep(s: SessionState): (r: (SessionState, bool))
    ensures s.stdoutDone ==> r == (s, false)
    ensures !s.stdoutDone ==> r.0.successPending && r.0.running && r.0.stdoutDone
    ensures !s.stdoutDone ==> r.0.restartCount == s.restartCount && r.0.hasOnRestarted == s.hasOnRestarted
    ensures r.1 <==> !s.stdoutDone && s.restartCount > 0 && s.hasOnRestarted
  {
    if s.stdoutDone then (s, false)
    else (s.(successPending := true, running := true, stdoutDone := true),
          s.restartCount > 0 && s.hasOnRestarted)
  }

  /**
   * A stderr line: `Running` is cleared, the pending success (if any) is
   * consumed, and the counter grows by one exactly when the line is retried.
   */
  function StderrStep(s: SessionState, line: string): (r: (SessionState, Decision))
    ensures !r.0.running && !r.0.successPending
    ensures s.successPending ==> r.1 == Restart
    ensures !s.successPending ==> r.1 != Restart
    ensures r.0.restartCount == s.restartCount + (if r.1.RetryAfter? then 1 else 0)
    ensures r.0.stdoutDone == s.stdoutDone && r.0.hasOnRestarted == s.hasOnRestarted
  {
    var d := Decide(s.successPending, line, s.restartCount);
    (s.(running := false,
        successPending := false,
        restartCount := if d.RetryAfter? then s.restartCount + 1 else s.restartCount),
     d)
  }

  // ---------------------------------------------------------------------------
  // The Go struct and its started copies
  // ---------------------------------------------------------------------------

  /** `RestartableProcess`; `OnRestarted` is represented by whether it is non-nil. */
  class RestartableProcess {
    const command: string
    const arguments: seq<string>
    const hasOnRestarted: bool
    var process: Option<Handle>
    var restartCount: int
    var running: bool

    /** `proc.Create`: no process yet, counter 0, not running. */
    constructor Create(command: string, arguments: seq<string>, hasOnRestarted: bool)
      ensures this.command == command && this.arguments == arguments
      ensures this.hasOnRestarted == hasOnRestarted
      ensures process == None && restartCount == 0 && !running
    {
      this.command := command;
      this.arguments := arguments;
      this.hasOnRestarted := hasOnRestarted;
      process := None;
      restartCount := 0;
      running := false;
    }

    /** The copy a value receiver gets. */
    constructor CopyOf(p: RestartableProcess)
      ensures command == p.command && arguments == p.arguments && hasOnRestarted == p.hasOnRestarted
      ensures process == p.process && restartCount == p.restartCount && running == p.running
    {
      command := p.command;
      arguments := p.arguments;
      hasOnRestarted := p.hasOnRestarted;
      process := p.process;
      restartCount := p.restartCount;
      running := p.running;
    }

    /**
     * SIGTERM to the recorded process; `signal` is what the OS answers. The
     * error comes back unchanged. A missing handle is a nil dereference in the
     * source, hence the precondition.
     */
    method SendSigTerm(signal: Option<OsError>) returns (target: Handle, err: Option<OsError>)
      requires process.Some?
      ensures target == process.value
      ensures err == signal
    {
      target := process.value;
      err := signal;
    }

    /**
     * `Start` on a copy of this object: reset the copy, fail with the first
     * pipe error, otherwise record the handle in the copy and hand it to its
     * monitors. The error of launching the child itself is ignored.
     */
    method Start(spawn: Spawn) returns (err: Option<OsError>, session: Session?)
      ensures err.None? <==> spawn.pipes.PipesOk?
      ensures err.Some? ==> session == null && err.value == spawn.pipes.err
      ensures err.None? ==> session != null && fresh(session) && fresh(session.proc)
      ensures session != null ==>
        && session.Valid()
        && session.State() == Started(hasOnRestarted)
        && session.proc.process == Some(spawn.handle)
        && session.proc.command == command
        && session.proc.arguments == arguments
    {
      var p := new RestartableProcess.CopyOf(this);
      p.restartCount := 0;
      p.running := false;
      match spawn.pipes
      case StderrPipeFailed(e) =>
        err, session := Some(e), null;
      case StdoutPipeFailed(e) =>
        err, session := Some(e), null;
      case PipesOk =>
        p.process := Some(spawn.handle);
        session := new Session(p);
        err := None;
    }

    /**
     * `Restart`: SIGTERM to the recorded handle, and `Start` only when the
     * signal was delivered. A failed signal suspends the restart for good.
     */
    method Restart(signal: Option<OsError>, spawn: Spawn) returns (signalled: Handle, next: Session?)
      requires process.Some?
      ensures signalled == process.value
      ensures next != null <==> signal.None? && spawn.pipes.PipesOk?
      ensures next != null ==>
        && fresh(next) && fresh(next.proc) && next.Valid()
        && next.State() == Started(hasOnRestarted)
        && next.proc.process == Some(spawn.handle)
        && next.proc.command == command
        && next.proc.arguments == arguments
    {
      var err;
      signalled, err := SendSigTerm(signal);
      if err.None? {
        var _, s := Start(spawn);
        next := s;
      } else {
        next := null;
      }
    }
  }

  /** A started copy, shared by its stdout and stderr monitors. */
  class Session {
    const proc: RestartableProcess
    var successPending: bool
    var stdoutDone: bool

    ghost predicate Valid()
      reads this, proc
    {
      proc.process.Some?
    }

    function State(): SessionState
      reads this, proc
    {
      SessionState(proc.restartCount, proc.running, successPending, stdoutDone, proc.hasOnRestarted)
    }

    constructor (p: RestartableProcess)
      requires p.process.Some?
      ensures proc == p && !successPending && !stdoutDone
      ensures Valid()
    {
      proc := p;
      successPending := false;
      stdoutDone := false;
    }

    /** The body of the stdout monitor's loop; it breaks after one line. */
    method OnStdoutLine() returns (restartedCalled: bool)
      requires Valid()
      modifies this, proc
      ensures Valid() && proc.process == old(proc.process)
      ensures (State(), restartedCalled) == StdoutStep(old(State()))
    {
      if stdoutDone {
        restartedCalled := false;
      } else {
        successPending := true;
        proc.running := true;
        restartedCalled := proc.restartCount > 0 && proc.hasOnRestarted;
        stdoutDone := true;
      }
    }

    /**
     * The body of the stderr monitor's loop for one line. Whatever the
     * decision, the line sends one SIGTERM to the copy's handle (`signalled`);
     * `signal` is the OS's answer to it and `spawn` the outcome of the
     * respawn; `next` is the new started copy, if one was launched.
     */
    method OnStderrLine(line: string, signal: Option<OsError>, spawn: Spawn)
      returns (d: Decision, signalled: Handle, next: Session?)
      requires Valid()
      modifies this, proc
      ensures Valid() && proc.process == old(proc.process)
      ensures signalled == old(proc.process).value
      ensures (State(), d) == StderrStep(old(State()), line)
      ensures next != null <==> !d.Terminate? && signal.None? && spawn.pipes.PipesOk?
      ensures next != null ==>
        && fresh(next) && fresh(next.proc) && next.Valid()
        && next.State() == Started(proc.hasOnRestarted)
        && next.proc.process == Some(spawn.handle)
        && next.proc.command == proc.command
        && next.proc.arguments == proc.arguments
    {
      proc.running := false;
      var hasOutput := successPending;
      successPending := false;
      d := Decide(hasOutput, line, proc.restartCount);
      match d
      case Restart =>
        signalled, next := proc.Restart(signal, spawn);
      case RetryAfter(_) =>
        proc.restartCount := proc.restartCount + 1;
        signalled, next := proc.Restart(signal, spawn);
      case Terminate(_) =>
        var ignored;
        signalled, ignored := proc.SendSigTerm(signal);
        next := null;
    }
  }

  // ---------------------------------------------------------------------------
  // Runs of events on one started copy
  // ---------------------------------------------------------------------------

  datatype Event = StdoutLine | StderrLine(line: string)

  function Step(s: SessionState, e: Event): SessionState
  {
    match e
    case StdoutLine => StdoutStep(s).0
    case StderrLine(line) => StderrStep(s, line).0
  }

  function Run(s: SessionState, events: seq<Event>): SessionState
    decreases |events|
  {
    if events == [] then s else Run(Step(s, events[0]), events[1..])
  }

  /** The decisions taken for the stderr lines of a run, in order. */
  function Decisions(s: SessionState, events: seq<Event>): seq<Decision>
    decreases |events|
  {
    if events == [] then []
    else
      (match events[0]
       case StdoutLine => []
       case StderrLine(line) => [StderrStep(s, line).1])
      + Decisions(Step(s, events[0]), events[1..])
  }

  /** How many times a run calls `OnRestarted`. */
  function RestartedCalls(s: SessionState, events: seq<Event>): nat
    decreases |events|
  {
    if events == [] then 0
    else
      (if events[0].StdoutLine? && StdoutStep(s).1 then 1 else 0)
      + RestartedCalls(Step(s, events[0]), events[1..])
  }

  function Retries(ds: seq<Decision>): nat
  {
    if ds == [] then 0 else (if ds[0].RetryAfter? then 1 else 0) + Retries(ds[1..])
  }

  lemma {:induction false} RetriesAppend(a: seq<Decision>, b: seq<Decision>)
    ensures Retries(a + b) == Retries(a) + Retries(b)
  {
    if a == [] {
      assert a + b == b;
    } else {
      assert (a + b)[1..] == a[1..] + b;
      RetriesAppend(a[1..], b);
    }
  }

  /** The counter of a copy grows by exactly one per retry, and only then. */
  lemma {:induction false} CountIsRetries(s: SessionState, events: seq<Event>)
    ensures Run(s, events).restartCount == s.restartCount + Retries(Decisions(s, events))
    decreases |events|
  {
    if events != [] {
      var head := match events[0] case StdoutLine => [] case StderrLine(line) => [StderrStep(s, line).1];
      CountIsRetries(Step(s, events[0]), events[1..]);
      RetriesAppend(head, Decisions(Step(s, events[0]), events[1..]));
    }
  }

  /**
   * The retry budget: a copy whose counter is within `0..MAX_RETRIES + 1`
   * retries at most `MAX_RETRIES + 1 - restartCount` more times, and its
   * counter stays in that range (so the source's int16 never wraps).
   */
  lemma {:induction false} RetryBudget(s: SessionState, events: seq<Event>)
    requires 0 <= s.restartCount <= MAX_RETRIES + 1
    ensures Retries(Decisions(s, events)) <= MAX_RETRIES + 1 - s.restartCount
    ensures 0 <= Run(s, events).restartCount <= MAX_RETRIES + 1
    decreases |events|
  {
    if events != [] {
      var head := match events[0] case StdoutLine => [] case StderrLine(line) => [StderrStep(s, line).1];
      RetryBudget(Step(s, events[0]), events[1..]);
      RetriesAppend(head, Decisions(Step(s, events[0]), events[1..]));
    }
  }

  /** A copy launched by `Start` retries at most eleven times. */
  lemma StartedRetriesAtMostEleven(hasOnRestarted: bool, events: seq<Event>)
    ensures Retries(Decisions(Started(hasOnRestarted), events)) <= MAX_RETRIES + 1
  {
    RetryBudget(Started(hasOnRestarted), events);
  }

  /** Once the counter is past `MAX_RETRIES`, no stderr line is retried. */
  lemma {:induction false} NoRetryPastBudget(s: SessionState, events: seq<Event>)
    requires s.restartCount > MAX_RETRIES
    ensures forall k :: 0 <= k < |Decisions(s, events)| ==> !Decisions(s, events)[k].RetryAfter?
    decreases |events|
  {
    if events != [] {
      NoRetryPastBudget(Step(s, events[0]), events[1..]);
    }
  }

  /** `OnRestarted` is called at most once per started copy. */
  lemma {:induction false} RestartedCalledAtMostOnce(s: SessionState, events: seq<Event>)
    ensures RestartedCalls(s, events) <= if s.stdoutDone then 0 else 1
    decreases |events|
  {
    if events != [] {
      RestartedCalledAtMostOnce(Step(s, events[0]), events[1..]);
    }
  }

  lemma {:induction false} CountNeverDecreases(s: SessionState, events: seq<Event>)
    ensures Run(s, events).restartCount >= s.restartCount
    decreases |events|
  {
    CountIsRetries(s, events);
  }

  /**
   * Because `Start` resets the copy's counter, `OnRestarted` can only be
   * called on a copy that has itself retried a connection-refused line
   * before its first stdout line.
   */
  lemma {:induction false} RestartedCallNeedsRetry(s: SessionState, events: seq<Event>)
    requires s.restartCount >= 0
    requires RestartedCalls(s, events) > 0
    ensures s.restartCount > 0 || Retries(Decisions(s, events)) > 0
    decreases |events|
  {
    var s' := Step(s, events[0]);
    var head := match events[0] case StdoutLine => [] case StderrLine(line) => [StderrStep(s, line).1];
    RetriesAppend(head, Decisions(s', events[1..]));
    if !(events[0].StdoutLine? && StdoutStep(s).1) {
      RestartedCallNeedsRetry(s', events[1..]);
    }
  }

  /** A copy fresh from `Start` never calls `OnRestarted` unless it retried first. */
  lemma StartedCopyCallsOnRestartedOnlyAfterRetry(hasOnRestarted: bool, events: seq<Event>)
    requires RestartedCalls(Started(hasOnRestarted), events) > 0
    ensures Retries(Decisions(Started(hasOnRestarted), events)) > 0
  {
    RestartedCallNeedsRetry(Started(hasOnRestarted), events);
  }
}
