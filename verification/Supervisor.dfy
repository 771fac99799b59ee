/** The backend supervisor of the desktop host: spawn, kill, restart and shutdown of the sidecar and its two
workers, and the watchdog that restarts them. */
module Supervisor {
  import opened Common

  const POLL_FAILS_BEFORE_RESTART := 8
  const RESTART_BACKOFF_MS := 60_000
  const POST_RESTART_GRACE_MS := 90_000

  datatype Status = Stopped | Starting | Restarting | Healthy | Unhealthy | StartFailed

  /** The fields of `SidecarState` and of the status shown to the user. */
  datatype Stack = Stack(
    sidecar: bool, worker: bool, valuation: bool, port: Option<nat>,
    shuttingDown: bool, status: Status, reportedPort: Option<nat>, restartCount: nat)
  {
    predicate Present() { sidecar && worker && valuation && port.Some? }

    predicate Missing() { !sidecar && !worker && !valuation && port.None? }

    /** The watchdog's test for an empty stack that should be running. */
    predicate ShouldRecover() {
      Missing() && status in {StartFailed, Stopped, Unhealthy, Starting, Restarting}
    }
  }

  /** What the operating system does with one start of the stack. */
  datatype SpawnEnv = SpawnEnv(
    freePort: Option<nat>, sidecarStarts: bool, ready: bool, workerStarts: bool, valuationStarts: bool)
  {
    predicate SidecarComesUp() { freePort.Some? && sidecarStarts && ready }

    predicate AllComeUp() { SidecarComesUp() && workerStarts && valuationStarts }
  }

  // ---------------------------------------------------------------- the operations

  function Killed(s: Stack): Stack {
    s.(sidecar := false, worker := false, valuation := false, port := None)
  }

  function StoppedStack(s: Stack): Stack {
    Killed(s.(shuttingDown := true)).(status := Stopped, reportedPort := None)
  }

  function SidecarSpawned(s: Stack, env: SpawnEnv): (Stack, Option<nat>) {
    if s.shuttingDown then (s, None)
    else if s.port.Some? then (s, s.port)
    else if env.freePort.None? || !env.sidecarStarts then (s, None)
    else if env.ready then (s.(sidecar := true, port := env.freePort), env.freePort)
    else (s.(sidecar := false, port := None), None)
  }

  function StackSpawned(s: Stack, env: SpawnEnv): (Stack, Option<nat>) {
    if s.shuttingDown then (s, None) else
    var begun := s.(status := if s.restartCount > 0 then Restarting else Starting);
    var (s1, port) := SidecarSpawned(begun, env);
    if port.None? then (s1, None)
    else if !s1.worker && !env.workerStarts then (Killed(s1), None)
    else
      var s2 := s1.(worker := true);
      if !s2.valuation && !env.valuationStarts then (Killed(s2), None)
      else (s2.(valuation := true, status := Healthy, reportedPort := port), port)
  }

  function StackRestarted(s: Stack, env: SpawnEnv): (Stack, Option<nat>) {
    if s.shuttingDown then (s, None) else
    var begun := Killed(s.(status := Restarting, reportedPort := None, restartCount := s.restartCount + 1));
    var (s1, port) := StackSpawned(begun, env);
    if port.Some? then (s1, port) else (s1.(status := StartFailed, reportedPort := None), None)
  }

  /** Sidecar, both workers and port come and go together; "healthy" means they are there, on the reported port;
      an empty stack can be recovered; a host that is shutting down has no stack. */
  predicate Sound(s: Stack) {
    && (s.Present() || s.Missing())
    && (s.status == Healthy ==> s.Present() && s.reportedPort == s.port)
    && (s.Missing() && !s.shuttingDown ==> s.ShouldRecover())
    && (s.shuttingDown ==> s.Missing())
  }

  class SidecarState {
    var sidecar: bool
    var worker: bool
    var valuation: bool
    var port: Option<nat>
    var shuttingDown: bool
    var status: Status
    var reportedPort: Option<nat>
    var restartCount: nat

    constructor ()
      ensures Now() == Init().stack && Now() == Stack(false, false, false, None, false, Stopped, None, 0)
    {
      sidecar, worker, valuation, port := false, false, false, None;
      shuttingDown, status, reportedPort, restartCount := false, Stopped, None, 0;
    }

    function Now(): Stack
      reads this
    {
      Stack(sidecar, worker, valuation, port, shuttingDown, status, reportedPort, restartCount)
    }

    method KillBackendStack()
      modifies this
      ensures Now() == Killed(old(Now()))
    {
      sidecar := false;
      worker := false;
      valuation := false;
      port := None;
    }

    /** Whatever state the host is in, afterwards it is shutting down and sound: nothing runs. */
    method StopBackendStack()
      modifies this
      ensures Now() == StoppedStack(old(Now()))
      ensures shuttingDown && Now().Missing() && Sound(Now())
    {
      shuttingDown := true;
      KillBackendStack();
      status := Stopped;
      reportedPort := None;
    }

    /** `kill_sidecar`: afterwards nothing runs, and unless the app is shutting down the watchdog may recover it. */
    method KillSidecar()
      modifies this
      ensures Now() == Killed(old(Now())).(status := Stopped, reportedPort := None)
      ensures Now().ShouldRecover() && Sound(Now()) && shuttingDown == old(shuttingDown)
    {
      KillBackendStack();
      status := Stopped;
      reportedPort := None;
    }

    /** Succeeds exactly when the app is not shutting down and a sidecar is there or comes up. Failure leaves
        everything as it was, if there was no stray sidecar without port. */
    method SpawnSidecar(env: SpawnEnv) returns (result: Option<nat>)
      modifies this
      ensures (Now(), result) == SidecarSpawned(old(Now()), env)
      ensures result.Some? <==> !shuttingDown && (old(port).Some? || env.SidecarComesUp())
      ensures result.Some? ==> port == result && (old(port).None? ==> sidecar)
      ensures result.None? && (old(port).None? ==> !old(sidecar)) ==> Now() == old(Now())
    {
      if shuttingDown {
        return None;
      }
      if port.Some? {
        return port;
      }
      if env.freePort.None? || !env.sidecarStarts {
        return None;
      }
      sidecar := true;
      port := env.freePort;
      if env.ready {
        return port;
      }
      sidecar := false;
      port := None;
      return None;
    }

    method SpawnWorker(starts: bool) returns (ok: bool)
      modifies this
      ensures ok == (old(worker) || starts) && Now() == old(Now()).(worker := ok)
    {
      if worker {
        return true;
      }
      if !starts {
        return false;
      }
      worker := true;
      return true;
    }

    method SpawnValuationWorker(starts: bool) returns (ok: bool)
      modifies this
      ensures ok == (old(valuation) || starts) && Now() == old(Now()).(valuation := ok)
    {
      if valuation {
        return true;
      }
      if !starts {
        return false;
      }
      valuation := true;
      return true;
    }

    /** All or nothing: from a sound state the stack is there afterwards exactly when a port is returned, healthy
        and on that port; that is when the app is not shutting down and the stack was there or all of it comes up. */
    method SpawnBackendStack(env: SpawnEnv) returns (result: Option<nat>)
      modifies this
      ensures (Now(), result) == StackSpawned(old(Now()), env)
      ensures old(Sound(Now())) ==>
                && Sound(Now())
                && (result.Some? <==> !shuttingDown && (old(Now().Present()) || env.AllComeUp()))
                && (if result.Some? then Now().Present() && status == Healthy && port == result else Now().Missing())
    {
      if shuttingDown {
        return None;
      }
      status := if restartCount > 0 then Restarting else Starting;
      result := SpawnSidecar(env);
      if result.None? {
        return None;
      }
      var ok := SpawnWorker(env.workerStarts);
      if !ok {
        KillBackendStack();
        return None;
      }
      ok := SpawnValuationWorker(env.valuationStarts);
      if !ok {
        KillBackendStack();
        return None;
      }
      status := Healthy;
      reportedPort := result;
    }

    /** Unless the app is shutting down, whatever was there is replaced: by a whole healthy stack if all of it
        comes up, else by nothing, reported as failed. */
    method RestartBackendStack(env: SpawnEnv) returns (result: Option<nat>)
      modifies this
      ensures (Now(), result) == StackRestarted(old(Now()), env)
      ensures old(shuttingDown) ==> result.None? && Now() == old(Now())
      ensures !old(shuttingDown) ==>
                && Sound(Now()) && (result.Some? <==> env.AllComeUp())
                && (if result.Some? then Now().Present() && status == Healthy && port == result
                    else Now().Missing() && status == StartFailed)
    {
      if shuttingDown {
        return None;
      }
      status := Restarting;
      reportedPort := None;
      restartCount := restartCount + 1;
      KillBackendStack();
      result := SpawnBackendStack(env);
      if result.None? {
        status := StartFailed;
        reportedPort := None;
      }
    }
  }

  // ---------------------------------------------------------------- the watchdogs

  datatype Cause = ProcessExit | HealthCheck | EmptyStack | WorkerExit | ValuationExit

  datatype Attempt = Attempt(cause: Cause, at: int)

  /** One watchdog's timestamp of its last restart attempt, in milliseconds, and its attempts so far. */
  datatype Record = Record(lastRestartAt: Option<int>, attempts: seq<Attempt>)

  /** The other local variables of the sidecar watchdog. */
  datatype Watchdog = Watchdog(streak: nat, lastCompletedAt: Option<int>)

  /** What one poll of the sidecar watchdog observes: process exits, probe answers, and the clock at each use. */
  datatype Poll = Poll(
    exited: bool, probeOk: bool, probedAt: int, exitedAtGate: bool, confirmOk: bool,
    ensureAt: int, env: SpawnEnv, completedAt: int)

  /** One pass of the worker watchdog: exits of both workers, the clock and the start for each. */
  datatype WorkerPass = WorkerPass(
    workerExited: bool, workerAt: int, workerEnv: SpawnEnv,
    valuationExited: bool, valuationAt: int, valuationEnv: SpawnEnv)

  /** The stack, the sidecar watchdog, and the restart records of both watchdogs. */
  datatype Host = Host(stack: Stack, dog: Watchdog, record: Record, workerRecord: Record)

  predicate InBackoff(last: Option<int>, now: int) {
    last.Some? && (now - last.value) / 1000 < RESTART_BACKOFF_MS / 1000
  }

  predicate InGrace(last: Option<int>, now: int) {
    last.Some? && (now - last.value) / 1000 < POST_RESTART_GRACE_MS / 1000
  }

  /** `ensure_backend_stack_running`: the stack and the caller's record afterwards, and whether it restarted. */
  function EnsureRunning(s: Stack, r: Record, cause: Cause, at: int, env: SpawnEnv): (Stack, Record, bool) {
    if s.shuttingDown then (s, r, false)
    else if InBackoff(r.lastRestartAt, at) then (s.(status := Unhealthy), r, false)
    else
      var (s', port) := StackRestarted(s, env);
      (s', Record(Some(at), r.attempts + [Attempt(cause, at)]), port.Some?)
  }

  /** The same, called by the sidecar watchdog. Success also sets the completion time, from which the grace period
      runs, unless the restart filled an empty stack. */
  function Ensured(h: Host, cause: Cause, p: Poll): Host {
    var (s, r, ok) := EnsureRunning(h.stack, h.record, cause, p.ensureAt, p.env);
    h.(stack := s, record := r,
       dog := if ok && cause != EmptyStack then h.dog.(lastCompletedAt := Some(p.completedAt)) else h.dog)
  }

  /** The watchdog writes "healthy" for the port it probed, and starts its streak over. */
  function ReportsHealthy(h: Host, port: nat): Host {
    h.(dog := h.dog.(streak := 0), stack := h.stack.(status := Healthy, reportedPort := Some(port)))
  }

  /** A failed probe outside the grace period is counted and reported. */
  function Counted(h: Host, port: nat): Host {
    h.(dog := h.dog.(streak := h.dog.streak + 1), stack := h.stack.(status := Unhealthy, reportedPort := Some(port)))
  }

  /** The end of a poll that asked for confirmation: `alive` was read before the confirming probe. */
  function Confirmed(h: Host, p: Poll, port: nat, alive: bool): Host {
    if alive && p.confirmOk then ReportsHealthy(h, port)
    else Ensured(h.(dog := h.dog.(streak := 0)), HealthCheck, p)
  }

  predicate Alive(h: Host, p: Poll) { h.stack.sidecar && !p.exitedAtGate }

  /** The rest of a poll, once the probe of `port` has an answer: it acts on the stack as it is by then. */
  function Reported(h: Host, p: Poll, port: nat): Host {
    if p.probeOk then ReportsHealthy(h, port)
    else if InGrace(h.dog.lastCompletedAt, p.probedAt) then h
    else
      var counted := Counted(h, port);
      if counted.dog.streak < POLL_FAILS_BEFORE_RESTART then counted
      else Confirmed(counted, p, port, Alive(counted, p))
  }

  /** The poll finds a port to probe; it reads that port before the probe. */
  predicate Probes(h: Host, p: Poll) {
    !h.stack.shuttingDown && !(h.stack.sidecar && p.exited) && h.stack.port.Some?
  }

  /** One pass of the sidecar watchdog's loop. */
  function Polled(h: Host, p: Poll): Host {
    if h.stack.shuttingDown then h
    else if h.stack.sidecar && p.exited then Ensured(h.(dog := h.dog.(streak := 0)), ProcessExit, p)
    else if h.stack.port.Some? then Reported(h, p, h.stack.port.value)
    else
      var idle := h.(dog := h.dog.(streak := 0));
      if h.stack.ShouldRecover() then Ensured(idle, EmptyStack, p) else idle
  }

  /** One pass of the worker watchdog's loop; the second check sees what the first one did. */
  function WorkersPolled(h: Host, w: WorkerPass): Host {
    if h.stack.shuttingDown then h else
    var (s1, r1, _) := if h.stack.worker && w.workerExited
                       then EnsureRunning(h.stack, h.workerRecord, WorkerExit, w.workerAt, w.workerEnv)
                       else (h.stack, h.workerRecord, false);
    var (s2, r2, _) := if s1.valuation && w.valuationExited
                       then EnsureRunning(s1, r1, ValuationExit, w.valuationAt, w.valuationEnv)
                       else (s1, r1, false);
    h.(stack := s2, workerRecord := r2)
  }

  // ---------------------------------------------------------------- every reachable state

  /** An operation of the host, each taken as one atomic action. */
  datatype Op =
    | AutoStart(env: SpawnEnv)
    | Spawn(env: SpawnEnv)
    | Restart(env: SpawnEnv)
    | Kill
    | Shutdown
    | WatchdogPoll(poll: Poll)
    | WorkerWatchdogPass(pass: WorkerPass)

  function KilledByUser(s: Stack): Stack { Killed(s).(status := Stopped, reportedPort := None) }

  /** What the callers that report a failed start write. */
  function FailureReported(s: Stack): Stack { s.(status := StartFailed, reportedPort := None) }

  function Apply(h: Host, op: Op): Host {
    match op
    case AutoStart(env) =>
      var (s, port) := StackSpawned(h.stack, env);
      if h.stack.shuttingDown then h
      else h.(stack := if port.Some? then s else FailureReported(s))
    case Spawn(env) => h.(stack := StackSpawned(h.stack, env).0)
    case Restart(env) => h.(stack := StackRestarted(h.stack, env).0)
    case Kill => h.(stack := KilledByUser(h.stack))
    case Shutdown => if h.stack.shuttingDown then h else h.(stack := StoppedStack(h.stack))
    case WatchdogPoll(poll) => Polled(h, poll)
    case WorkerWatchdogPass(pass) => WorkersPolled(h, pass)
  }

  function Run(h: Host, ops: seq<Op>): Host
    decreases |ops|
  {
    if ops == [] then h else Run(Apply(h, ops[0]), ops[1..])
  }

  function Init(): Host {
    Host(Stack(false, false, false, None, false, Stopped, None, 0), Watchdog(0, None), Record(None, []),
        Record(None, []))
  }

  lemma EnsureKeepsSound(s: Stack, r: Record, cause: Cause, at: int, env: SpawnEnv)
    requires Sound(s)
    ensures Sound(EnsureRunning(s, r, cause, at, env).0)
    ensures EnsureRunning(s, r, cause, at, env).0.shuttingDown == s.shuttingDown
  {
  }

  lemma PollKeepsSound(h: Host, p: Poll)
    requires Sound(h.stack)
    ensures Sound(Polled(h, p).stack) && Polled(h, p).stack.shuttingDown == h.stack.shuttingDown
  {
    EnsureKeepsSound(h.stack, h.record, ProcessExit, p.ensureAt, p.env);
    EnsureKeepsSound(h.stack, h.record, EmptyStack, p.ensureAt, p.env);
    if Probes(h, p) {
      var counted := Counted(h, h.stack.port.value);
      EnsureKeepsSound(counted.stack, h.record, HealthCheck, p.ensureAt, p.env);
    }
  }

  lemma WorkersPassKeepsSound(h: Host, w: WorkerPass)
    requires Sound(h.stack)
    ensures Sound(WorkersPolled(h, w).stack) && WorkersPolled(h, w).stack.shuttingDown == h.stack.shuttingDown
  {
    EnsureKeepsSound(h.stack, h.workerRecord, WorkerExit, w.workerAt, w.workerEnv);
    var (s1, r1, _) := if h.stack.worker && w.workerExited
                       then EnsureRunning(h.stack, h.workerRecord, WorkerExit, w.workerAt, w.workerEnv)
                       else (h.stack, h.workerRecord, false);
    EnsureKeepsSound(s1, r1, ValuationExit, w.valuationAt, w.valuationEnv);
  }

  lemma ApplyKeepsSound(h: Host, op: Op)
    requires Sound(h.stack)
    ensures Sound(Apply(h, op).stack)
    ensures h.stack.shuttingDown ==> Apply(h, op).stack.shuttingDown
  {
    match op
    case WatchdogPoll(poll) => PollKeepsSound(h, poll);
    case WorkerWatchdogPass(pass) => WorkersPassKeepsSound(h, pass);
    case _ =>
  }

  /** Every reachable state is sound, and once shutdown has begun the stack stays empty forever. */
  lemma {:induction false} ReachableSound(h: Host, ops: seq<Op>)
    requires Sound(h.stack)
    ensures Sound(Run(h, ops).stack)
    ensures h.stack.shuttingDown ==> Run(h, ops).stack.shuttingDown && Run(h, ops).stack.Missing()
    decreases |ops|
  {
    if ops != [] {
      ApplyKeepsSound(h, ops[0]);
      ReachableSound(Apply(h, ops[0]), ops[1..]);
    }
  }

  /** Recovery: from every reachable empty state, unless shutting down, one poll outside the backoff whose start
      succeeds brings the whole stack back. */
  lemma EmptyStackRecovers(ops: seq<Op>, p: Poll)
    requires var s := Run(Init(), ops).stack; !s.shuttingDown && !s.Present()
    requires !InBackoff(Run(Init(), ops).record.lastRestartAt, p.ensureAt)
    requires p.env.AllComeUp()
    ensures var s := Polled(Run(Init(), ops), p).stack; s.Present() && s.status == Healthy && s.port == p.env.freePort
  {
    ReachableSound(Init(), ops);
  }

  /** What the user's operations come to, from every reachable state. A start, automatic or by the user, keeps a whole
      stack and otherwise makes one exactly when all of it comes up; only the automatic start reports a failure. A
      restart replaces whatever there is. A kill and a shutdown leave nothing. */
  lemma OperationsOutcome(ops: seq<Op>, env: SpawnEnv)
    ensures var h := Run(Init(), ops);
            var auto, spawned := Apply(h, AutoStart(env)).stack, Apply(h, Spawn(env)).stack;
            var restarted, killed := Apply(h, Restart(env)).stack, Apply(h, Kill).stack;
            var stopped := Apply(h, Shutdown).stack;
            && (h.stack.shuttingDown ==> auto == spawned == restarted == stopped == h.stack)
            && (!h.stack.shuttingDown ==>
                  if h.stack.Present() || env.AllComeUp()
                  then auto == spawned && auto.Present() && auto.status == Healthy && auto.reportedPort == auto.port
                       && auto.port == (if h.stack.Present() then h.stack.port else env.freePort)
                  else auto.Missing() && auto.status == StartFailed && auto.reportedPort.None?
                       && spawned.Missing() && spawned.status in {Starting, Restarting})
            && (!h.stack.shuttingDown ==>
                  restarted.restartCount == h.stack.restartCount + 1 && auto.restartCount == h.stack.restartCount
                  && if env.AllComeUp() then restarted.Present() && restarted.status == Healthy
                                             && restarted.port == restarted.reportedPort == env.freePort
                     else restarted.Missing() && restarted.status == StartFailed && restarted.reportedPort.None?)
            && killed.Missing() && killed.status == Stopped && killed.reportedPort.None?
            && killed.shuttingDown == h.stack.shuttingDown
            && stopped.Missing() && stopped.shuttingDown
            && (!h.stack.shuttingDown ==> stopped.status == Stopped && stopped.reportedPort.None?)
  {
    ReachableSound(Init(), ops);
  }

  // ---------------------------------------------------------------- restarts are spaced and justified

  predicate Spaced(attempts: seq<Attempt>) {
    forall i, j :: 0 <= i < j < |attempts| ==> attempts[j].at - attempts[i].at >= RESTART_BACKOFF_MS
  }

  /** The attempts are spaced, and the timestamp is the last one's. */
  ghost predicate Remembers(r: Record) {
    && Spaced(r.attempts)
    && (r.attempts == [] <==> r.lastRestartAt.None?)
    && (r.attempts != [] ==> r.lastRestartAt == Some(r.attempts[|r.attempts| - 1].at))
  }

  lemma EnsureRemembers(s: Stack, r: Record, cause: Cause, at: int, env: SpawnEnv)
    requires Remembers(r)
    ensures Remembers(EnsureRunning(s, r, cause, at, env).1)
  {
  }

  lemma PollRemembers(h: Host, p: Poll)
    requires Remembers(h.record)
    ensures Remembers(Polled(h, p).record) && Polled(h, p).workerRecord == h.workerRecord
  {
    EnsureRemembers(h.stack, h.record, ProcessExit, p.ensureAt, p.env);
    EnsureRemembers(h.stack, h.record, EmptyStack, p.ensureAt, p.env);
    if Probes(h, p) {
      EnsureRemembers(Counted(h, h.stack.port.value).stack, h.record, HealthCheck, p.ensureAt, p.env);
    }
  }

  lemma WorkersPassRemembers(h: Host, w: WorkerPass)
    requires Remembers(h.workerRecord)
    ensures Remembers(WorkersPolled(h, w).workerRecord) && WorkersPolled(h, w).record == h.record
  {
    EnsureRemembers(h.stack, h.workerRecord, WorkerExit, w.workerAt, w.workerEnv);
    var (s1, r1, _) := if h.stack.worker && w.workerExited
                       then EnsureRunning(h.stack, h.workerRecord, WorkerExit, w.workerAt, w.workerEnv)
                       else (h.stack, h.workerRecord, false);
    EnsureRemembers(s1, r1, ValuationExit, w.valuationAt, w.valuationEnv);
  }

  /** Any two restart attempts of one watchdog start at least the backoff apart, whatever else happens: both for the
      sidecar watchdog and for the worker watchdog, which may try twice in a pass. */
  lemma {:induction false} RestartsSpaced(h: Host, ops: seq<Op>)
    requires Remembers(h.record) && Remembers(h.workerRecord)
    ensures Remembers(Run(h, ops).record) && Remembers(Run(h, ops).workerRecord)
    decreases |ops|
  {
    if ops != [] {
      if ops[0].WatchdogPoll? { PollRemembers(h, ops[0].poll); }
      if ops[0].WorkerWatchdogPass? { WorkersPassRemembers(h, ops[0].pass); }
      RestartsSpaced(Apply(h, ops[0]), ops[1..]);
    }
  }

  /** The poll asks for a confirming probe: the eighth failure in a row, and the process still lives. */
  predicate AsksToConfirm(h: Host, p: Poll) {
    && Probes(h, p) && !p.probeOk && !InGrace(h.dog.lastCompletedAt, p.probedAt)
    && h.dog.streak + 1 >= POLL_FAILS_BEFORE_RESTART && Alive(h, p)
  }

  /** The poll saw the running sidecar answer, at once or when asked to confirm. */
  predicate SeesSuccess(h: Host, p: Poll) {
    (Probes(h, p) && p.probeOk) || (AsksToConfirm(h, p) && p.confirmOk)
  }

  /** The poll's probe failed outside the grace period of the last restart. */
  predicate SeesFailure(h: Host, p: Poll) {
    Probes(h, p) && !p.probeOk && !InGrace(h.dog.lastCompletedAt, p.probedAt)
  }

  /** Failed probes since the last success, counted from what the polls of a run saw; `n` before it. */
  function Failures(h: Host, n: nat, ops: seq<Op>): nat
    decreases |ops|
  {
    if ops == [] then n else Failures(Apply(h, ops[0]), FailuresAfter(h, n, ops[0]), ops[1..])
  }

  function FailuresAfter(h: Host, n: nat, op: Op): nat {
    if !op.WatchdogPoll? then n
    else if SeesSuccess(h, op.poll) then 0
    else if SeesFailure(h, op.poll) then n + 1
    else n
  }

  lemma StreakFollows(h: Host, n: nat, op: Op)
    requires h.dog.streak <= n && h.dog.streak < POLL_FAILS_BEFORE_RESTART
    ensures Apply(h, op).dog.streak <= FailuresAfter(h, n, op) && Apply(h, op).dog.streak < POLL_FAILS_BEFORE_RESTART
  {
  }

  lemma {:induction false} StreakIsFailures(h: Host, n: nat, ops: seq<Op>)
    requires h.dog.streak <= n && h.dog.streak < POLL_FAILS_BEFORE_RESTART
    ensures Run(h, ops).dog.streak <= Failures(h, n, ops)
    ensures Run(h, ops).dog.streak < POLL_FAILS_BEFORE_RESTART
    decreases |ops|
  {
    if ops != [] {
      StreakFollows(h, n, ops[0]);
      StreakIsFailures(Apply(h, ops[0]), FailuresAfter(h, n, ops[0]), ops[1..]);
    }
  }

  /** Every health-driven restart attempt comes after at least eight failed probes since the last success, the
      eighth in this very poll, and then a dead process or a failed confirming probe; the streak starts over. */
  lemma HealthRestartsJustified(ops: seq<Op>, p: Poll)
    requires var h := Run(Init(), ops);
             Polled(h, p).record.attempts == h.record.attempts + [Attempt(HealthCheck, p.ensureAt)]
    ensures var h := Run(Init(), ops);
            && SeesFailure(h, p) && Failures(Init(), 0, ops) + 1 >= POLL_FAILS_BEFORE_RESTART
            && (p.exitedAtGate || !p.confirmOk)
            && Polled(h, p).dog.streak == 0
  {
    var h := Run(Init(), ops);
    StreakIsFailures(Init(), 0, ops);
    ReachableSound(Init(), ops);
    assert Polled(h, p).record.attempts[|h.record.attempts|].cause == HealthCheck;
  }

  // ---------------------------------------------------------------- restarts come when they are due

  /** No attempt of this watchdog in the last 60 s. */
  predicate BackoffOver(attempts: seq<Attempt>, now: int) {
    attempts == [] || now - attempts[|attempts| - 1].at >= RESTART_BACKOFF_MS
  }

  /** The stack was replaced: by a whole healthy one on the free port if all of it came up, else by nothing. */
  predicate Replaced(before: Stack, after: Stack, env: SpawnEnv) {
    && after.restartCount == before.restartCount + 1 && !after.shuttingDown
    && if env.AllComeUp() then after.Present() && after.status == Healthy
                               && after.port == after.reportedPort == env.freePort
       else after.Missing() && after.status == StartFailed && after.reportedPort.None?
  }

  lemma EnsureAttempts(s: Stack, r: Record, cause: Cause, at: int, env: SpawnEnv)
    requires Remembers(r) && !s.shuttingDown
    ensures var (s', r', ok) := EnsureRunning(s, r, cause, at, env);
            if BackoffOver(r.attempts, at)
            then Replaced(s, s', env) && r'.attempts == r.attempts + [Attempt(cause, at)] && (ok <==> env.AllComeUp())
            else s' == s.(status := Unhealthy) && r' == r && !ok
  {
  }

  /** The probe of this poll fails, 90 s or more after the last restart completed, if there was one. */
  predicate Unanswered(p: Poll, completedAt: Option<int>) {
    !p.exited && !p.probeOk && (completedAt.None? || p.probedAt - completedAt.value >= POST_RESTART_GRACE_MS)
  }

  /** The attempt a poll makes, if any, from what it sees. */
  function DueAttempt(h: Host, p: Poll): seq<Attempt> {
    if h.stack.shuttingDown || !BackoffOver(h.record.attempts, p.ensureAt) then []
    else if h.stack.Missing() then [Attempt(EmptyStack, p.ensureAt)]
    else if p.exited then [Attempt(ProcessExit, p.ensureAt)]
    else if Unanswered(p, h.dog.lastCompletedAt) && h.dog.streak >= 7 && (p.exitedAtGate || !p.confirmOk)
    then [Attempt(HealthCheck, p.ensureAt)]
    else []
  }

  lemma PollAttempts(h: Host, p: Poll)
    requires Sound(h.stack) && Remembers(h.record)
    ensures Polled(h, p).record.attempts == h.record.attempts + DueAttempt(h, p)
    ensures DueAttempt(h, p) != [] ==> Replaced(h.stack, Polled(h, p).stack, p.env) && Polled(h, p).dog.streak == 0
    ensures Polled(h, p).dog.lastCompletedAt
            == if DueAttempt(h, p) != [] && DueAttempt(h, p)[0].cause != EmptyStack && p.env.AllComeUp()
               then Some(p.completedAt) else h.dog.lastCompletedAt
  {
    if !h.stack.shuttingDown {
      EnsureAttempts(h.stack, h.record, ProcessExit, p.ensureAt, p.env);
      EnsureAttempts(h.stack, h.record, EmptyStack, p.ensureAt, p.env);
      if Probes(h, p) {
        EnsureAttempts(Counted(h, h.stack.port.value).stack, h.record, HealthCheck, p.ensureAt, p.env);
      }
    }
  }

  /** From every reachable state a poll makes exactly the attempt that is due: for an empty stack, for a sidecar that
      has exited, and for the eighth failure in a row with the process dead or the confirming probe failed; not within
      60 s of the last attempt, and the stack is then replaced. */
  lemma PollAttemptsWhenDue(ops: seq<Op>, p: Poll)
    ensures var h := Run(Init(), ops);
            && Polled(h, p).record.attempts == h.record.attempts + DueAttempt(h, p)
            && (DueAttempt(h, p) != [] ==> Replaced(h.stack, Polled(h, p).stack, p.env) && Polled(h, p).dog.streak == 0)
  {
    ReachableSound(Init(), ops);
    RestartsSpaced(Init(), ops);
    PollAttempts(Run(Init(), ops), p);
  }

  /** The attempts a pass of the worker watchdog makes: one for each stored worker that has exited. The second one is
      looked for in what the first restart left. */
  function DueWorkerAttempts(h: Host, w: WorkerPass): seq<Attempt> {
    if h.stack.shuttingDown then [] else
    var first := h.stack.worker && w.workerExited && BackoffOver(h.workerRecord.attempts, w.workerAt);
    var tried := if first then [Attempt(WorkerExit, w.workerAt)] else [];
    var second := w.valuationExited && (if first then w.workerEnv.AllComeUp() else h.stack.valuation)
                  && BackoffOver(h.workerRecord.attempts + tried, w.valuationAt);
    tried + if second then [Attempt(ValuationExit, w.valuationAt)] else []
  }

  /** From every state that remembers its attempts, sound or not, so also after a race. */
  lemma WorkerPassAttempts(h: Host, w: WorkerPass)
    requires Remembers(h.workerRecord)
    ensures var after, due := WorkersPolled(h, w), DueWorkerAttempts(h, w);
            && after.workerRecord.attempts == h.workerRecord.attempts + due
            && (|due| == 2 ==> Replaced(StackRestarted(h.stack, w.workerEnv).0, after.stack, w.valuationEnv))
            && (|due| == 1 && due[0].cause == ValuationExit ==> Replaced(h.stack, after.stack, w.valuationEnv))
            && (|due| == 1 && due[0].cause == WorkerExit && !w.valuationExited ==>
                  Replaced(h.stack, after.stack, w.workerEnv))
            && (!w.workerExited && !w.valuationExited ==> after == h)
  {
    if !h.stack.shuttingDown {
      EnsureAttempts(h.stack, h.workerRecord, WorkerExit, w.workerAt, w.workerEnv);
      EnsureRemembers(h.stack, h.workerRecord, WorkerExit, w.workerAt, w.workerEnv);
      var (s1, r1, _) := if h.stack.worker && w.workerExited
                         then EnsureRunning(h.stack, h.workerRecord, WorkerExit, w.workerAt, w.workerEnv)
                         else (h.stack, h.workerRecord, false);
      EnsureAttempts(s1, r1, ValuationExit, w.valuationAt, w.valuationEnv);
    }
  }

  /** From every reachable whole stack: a worker that has exited is replaced together with the rest of the stack,
      unless there was an attempt less than 60 s before. */
  lemma WorkerExitRestarts(ops: seq<Op>, w: WorkerPass)
    requires Run(Init(), ops).stack.Present() && w.workerExited != w.valuationExited
    requires BackoffOver(Run(Init(), ops).workerRecord.attempts, if w.workerExited then w.workerAt else w.valuationAt)
    ensures var h := Run(Init(), ops);
            Replaced(h.stack, WorkersPolled(h, w).stack, if w.workerExited then w.workerEnv else w.valuationEnv)
  {
    ReachableSound(Init(), ops);
    RestartsSpaced(Init(), ops);
    WorkerPassAttempts(Run(Init(), ops), w);
  }

  /** What a poll reports of a whole stack that has not exited: an answer, at once or to the confirming probe, makes it
      healthy and starts the count over; a failure outside the grace period makes it unhealthy and is counted; inside
      it nothing changes. The stack itself stays. */
  lemma PollReports(h: Host, p: Poll)
    requires Sound(h.stack) && Remembers(h.record) && h.stack.Present() && !p.exited && DueAttempt(h, p) == []
    ensures var after := Polled(h, p);
            && after.stack == h.stack.(status := after.stack.status, reportedPort := after.stack.reportedPort)
            && (after == h || after.stack.reportedPort == h.stack.port)
            && (p.probeOk ==> after.stack.status == Healthy && after.dog.streak == 0)
            && (Unanswered(p, h.dog.lastCompletedAt) && h.dog.streak < 7 ==>
                  after.stack.status == Unhealthy && after.dog.streak == h.dog.streak + 1)
            && (Unanswered(p, h.dog.lastCompletedAt) && h.dog.streak >= 7 && !p.exitedAtGate && p.confirmOk ==>
                  after.stack.status == Healthy && after.dog.streak == 0)
            && (!p.probeOk && !Unanswered(p, h.dog.lastCompletedAt) ==> after == h)
  {
    if Probes(h, p) {
      EnsureAttempts(Counted(h, h.stack.port.value).stack, h.record, HealthCheck, p.ensureAt, p.env);
    }
  }

  /** A stack that has stopped answering is restarted: from a whole stack with `streak` failures counted, after
      8 - `streak` more polls whose probes fail, the last one with the process dead or the confirming probe failed and
      outside the backoff, there has been exactly one more attempt, in the last poll. */
  lemma {:induction false} FailuresRestart(h: Host, polls: seq<Poll>)
    requires Sound(h.stack) && h.stack.Present() && Remembers(h.record)
    requires h.dog.streak < 8 && |polls| == 8 - h.dog.streak
    requires forall i :: 0 <= i < |polls| ==> Unanswered(polls[i], h.dog.lastCompletedAt)
    requires var last := polls[|polls| - 1];
             (last.exitedAtGate || !last.confirmOk) && BackoffOver(h.record.attempts, last.ensureAt)
    ensures var last, after := polls[|polls| - 1], RunPolls(h, polls);
            && after.record.attempts == h.record.attempts + [Attempt(HealthCheck, last.ensureAt)]
            && Replaced(h.stack, after.stack, last.env) && after.dog.streak == 0
    decreases |polls|
  {
    assert Unanswered(polls[0], h.dog.lastCompletedAt);
    if |polls| == 1 {
      PollAttempts(h, polls[0]);
      assert RunPolls(h, polls) == RunPolls(Polled(h, polls[0]), polls[1..]) == Polled(h, polls[0]);
    } else {
      assert Polled(h, polls[0]) == Counted(h, h.stack.port.value);
      FailuresRestart(Polled(h, polls[0]), polls[1..]);
    }
  }

  /** From every reachable whole stack: eight polls in a row are always enough. */
  lemma UnansweredIsRestarted(ops: seq<Op>, polls: seq<Poll>)
    requires Run(Init(), ops).stack.Present() && |polls| == 8
    requires forall i :: 0 <= i < |polls| ==>
               Unanswered(polls[i], Run(Init(), ops).dog.lastCompletedAt) && !polls[i].confirmOk
               && BackoffOver(Run(Init(), ops).record.attempts, polls[i].ensureAt)
    ensures var h := Run(Init(), ops);
            exists n :: 0 < n <= 8 && Replaced(h.stack, RunPolls(h, polls[..n]).stack, polls[n - 1].env)
              && RunPolls(h, polls[..n]).record.attempts
                 == h.record.attempts + [Attempt(HealthCheck, polls[n - 1].ensureAt)]
  {
    var h := Run(Init(), ops);
    ReachableSound(Init(), ops);
    RestartsSpaced(Init(), ops);
    StreakIsFailures(Init(), 0, ops);
    var n := 8 - h.dog.streak;
    assert polls[..n][n - 1] == polls[n - 1];
    FailuresRestart(h, polls[..n]);
  }

  /** A first start has no grace period: the first failed probe after it is counted. */
  lemma FirstFailureCounts(env: SpawnEnv, p: Poll)
    requires env.AllComeUp() && !p.exited && !p.probeOk
    ensures var h := Polled(Run(Init(), [AutoStart(env)]), p); h.dog.streak == 1 && h.stack.status == Unhealthy
  {
    assert Run(Init(), [AutoStart(env)]) == Run(Apply(Init(), AutoStart(env)), []);
  }

  /** After a restart for an exit or for failed probes has succeeded, failed probes in the next 90 s change nothing. */
  lemma GraceHolds(h: Host, p: Poll, next: Poll)
    requires Sound(h.stack) && Remembers(h.record) && DueAttempt(h, p) != [] && DueAttempt(h, p)[0].cause != EmptyStack
    requires p.env.AllComeUp() && !next.exited && !next.probeOk
    requires next.probedAt - p.completedAt < POST_RESTART_GRACE_MS
    ensures Polled(Polled(h, p), next) == Polled(h, p)
  {
    PollAttempts(h, p);
  }

  // ---------------------------------------------------------------- a spawn, step by step

  /** Where a thread stands inside `do_spawn_backend_stack`; at `GiveUp` the start has failed. */
  datatype Phase =
    | MarkStarting
    | StartSidecar
    | AwaitReady(port: nat)
    | StartWorker(port: nat)
    | StartValuation(port: nat)
    | MarkHealthy(port: nat)
    | GiveUp
    | Finished

  /** The next action of that thread; the poll for readiness is the only one that looks for a shutdown. After a
      failure the automatic start and a restart report it (`reports`), the plain spawn command does not. */
  function SpawnStep(s: Stack, phase: Phase, env: SpawnEnv, reports: bool): (Stack, Phase) {
    match phase
    case MarkStarting =>
      if s.shuttingDown then (s, GiveUp)
      else (s.(status := if s.restartCount > 0 then Restarting else Starting), StartSidecar)
    case StartSidecar =>
      if s.shuttingDown then (s, GiveUp)
      else if s.port.Some? then (s, StartWorker(s.port.value))
      else if env.freePort.None? || !env.sidecarStarts then (s, GiveUp)
      else (s.(sidecar := true, port := env.freePort), AwaitReady(env.freePort.value))
    case AwaitReady(port) =>
      if s.shuttingDown || !env.ready then (s.(sidecar := false, port := None), GiveUp) else (s, StartWorker(port))
    case StartWorker(port) =>
      if !s.worker && !env.workerStarts then (Killed(s), GiveUp) else (s.(worker := true), StartValuation(port))
    case StartValuation(port) =>
      if !s.valuation && !env.valuationStarts then (Killed(s), GiveUp)
      else (s.(valuation := true), MarkHealthy(port))
    case MarkHealthy(port) => (s.(status := Healthy, reportedPort := Some(port)), Finished)
    case GiveUp => (if reports then FailureReported(s) else s, Finished)
    case Finished => (s, Finished)
  }

  function PhaseIndex(phase: Phase): nat {
    match phase
    case MarkStarting => 6
    case StartSidecar => 5
    case AwaitReady(_) => 4
    case StartWorker(_) => 3
    case StartValuation(_) => 2
    case MarkHealthy(_) => 1
    case GiveUp => 1
    case Finished => 0
  }

  /** The rest of the thread's work with nothing in between. */
  function SpawnRest(s: Stack, phase: Phase, env: SpawnEnv, reports: bool): Stack
    decreases PhaseIndex(phase)
  {
    if phase == Finished then s else
    var (s', phase') := SpawnStep(s, phase, env, reports);
    SpawnRest(s', phase', env, reports)
  }

  function GivenUp(s: Stack, reports: bool): Stack { if reports then FailureReported(s) else s }

  function WorkersDone(s: Stack, port: nat, env: SpawnEnv, reports: bool): Stack {
    if !s.worker && !env.workerStarts then GivenUp(Killed(s), reports)
    else if !s.valuation && !env.valuationStarts then GivenUp(Killed(s), reports)
    else s.(worker := true, valuation := true, status := Healthy, reportedPort := Some(port))
  }

  lemma LastSteps(s: Stack, port: nat, env: SpawnEnv, reports: bool)
    ensures SpawnRest(s, GiveUp, env, reports) == GivenUp(s, reports)
    ensures SpawnRest(s, MarkHealthy(port), env, reports) == s.(status := Healthy, reportedPort := Some(port))
    ensures SpawnRest(s, StartValuation(port), env, reports)
            == if !s.valuation && !env.valuationStarts then GivenUp(Killed(s), reports)
               else s.(valuation := true, status := Healthy, reportedPort := Some(port))
  {
    assert SpawnRest(Killed(s), GiveUp, env, reports) == GivenUp(Killed(s), reports);
    var stored := s.(valuation := true);
    assert SpawnRest(stored, MarkHealthy(port), env, reports) == stored.(status := Healthy, reportedPort := Some(port));
  }

  lemma WorkersRest(s: Stack, port: nat, env: SpawnEnv, reports: bool)
    ensures SpawnRest(s, StartWorker(port), env, reports) == WorkersDone(s, port, env, reports)
  {
    LastSteps(Killed(s), port, env, reports);
    LastSteps(s.(worker := true), port, env, reports);
  }

  lemma ReadyRest(s: Stack, port: nat, env: SpawnEnv, reports: bool)
    ensures SpawnRest(s, AwaitReady(port), env, reports)
            == if s.shuttingDown || !env.ready then GivenUp(s.(sidecar := false, port := None), reports)
               else WorkersDone(s, port, env, reports)
  {
    LastSteps(s.(sidecar := false, port := None), port, env, reports);
    WorkersRest(s, port, env, reports);
  }

  lemma SidecarRest(s: Stack, env: SpawnEnv, reports: bool)
    ensures SpawnRest(s, StartSidecar, env, reports)
            == if s.shuttingDown then GivenUp(s, reports)
               else if s.port.Some? then WorkersDone(s, s.port.value, env, reports)
               else if env.freePort.None? || !env.sidecarStarts then GivenUp(s, reports)
               else SpawnRest(s.(sidecar := true, port := env.freePort), AwaitReady(env.freePort.value), env, reports)
  {
    LastSteps(s, 0, env, reports);
    if s.port.Some? { WorkersRest(s, s.port.value, env, reports); }
  }

  lemma StepsOfStart(s: Stack, env: SpawnEnv, reports: bool)
    requires !s.shuttingDown
    ensures SpawnRest(s, MarkStarting, env, reports)
            == var (after, port) := StackSpawned(s, env); if port.Some? then after else GivenUp(after, reports)
  {
    var begun := s.(status := if s.restartCount > 0 then Restarting else Starting);
    SidecarRest(begun, env, reports);
    if env.freePort.Some? {
      ReadyRest(begun.(sidecar := true, port := env.freePort), env.freePort.value, env, reports);
    }
  }

  /** Uninterrupted, the steps add up to the atomic operation, and for a caller that reports failures to the
      automatic start. */
  lemma StepsAddUp(s: Stack, env: SpawnEnv, reports: bool)
    ensures SpawnRest(s, MarkStarting, env, reports)
            == var (after, port) := StackSpawned(s, env); if port.Some? then after else GivenUp(after, reports)
  {
    if s.shuttingDown { LastSteps(s, 0, env, reports); } else { StepsOfStart(s, env, reports); }
  }

  // ---------------------------------------------------------------- a spawn, interrupted

  /** What another thread does to the stack meanwhile, taken as a whole: shut the app down, kill the stack, restart it,
      spawn it, or report a successful probe of the port it finds. */
  datatype Other = ShutsDown | Kills | Restarts(env: SpawnEnv) | Spawns(env: SpawnEnv) | ProbesHealthy

  function Done(s: Stack, other: Other): Stack {
    match other
    case ShutsDown => StoppedStack(s)
    case Kills => KilledByUser(s)
    case Restarts(env) => StackRestarted(s, env).0
    case Spawns(env) => StackSpawned(s, env).0
    case ProbesHealthy => if s.port.Some? then s.(status := Healthy, reportedPort := s.port) else s
  }

  /** How the stack stands while one thread spawns it and no other thread interferes. */
  predicate Standing(s: Stack, phase: Phase) {
    !s.shuttingDown &&
    match phase
    case MarkStarting => Sound(s)
    case StartSidecar => Sound(s) && s.status != Healthy
    case AwaitReady(port) => s.sidecar && s.port == Some(port) && !s.worker && !s.valuation && s.status != Healthy
    case StartWorker(port) => s.sidecar && s.port == Some(port) && s.worker == s.valuation && s.status != Healthy
    case StartValuation(port) => s.sidecar && s.port == Some(port) && s.worker && s.status != Healthy
    case MarkHealthy(port) => s.Present() && s.port == Some(port) && s.status != Healthy
    case GiveUp => s.Missing() && s.status != Healthy
    case Finished => Sound(s)
  }

  /** From a sound state each step of a spawn leads to such a standing, and the end of the spawn is sound. */
  lemma StepKeepsStanding(s: Stack, phase: Phase, env: SpawnEnv, reports: bool)
    requires Standing(s, phase)
    ensures var (s', phase') := SpawnStep(s, phase, env, reports); Standing(s', phase')
  {
  }

  lemma {:induction false} UninterruptedIsSound(s: Stack, phase: Phase, env: SpawnEnv, reports: bool)
    requires Standing(s, phase)
    ensures Sound(SpawnRest(s, phase, env, reports))
    decreases PhaseIndex(phase)
  {
    if phase != Finished {
      StepKeepsStanding(s, phase, env, reports);
      var (s', phase') := SpawnStep(s, phase, env, reports);
      UninterruptedIsSound(s', phase', env, reports);
    }
  }

  /** The exact condition under which a spawn that stands at `phase` ends in a sound state although another thread
      interferes there. */
  predicate Survives(s: Stack, phase: Phase, env: SpawnEnv, reports: bool, other: Other) {
    match phase
    case AwaitReady(port) => SurvivesUnready(port, env, reports, other)
    case StartWorker(port) => SurvivesNoWorkers(s.worker, port, env, reports, other)
    case StartValuation(port) => SurvivesOneWorker(s.valuation, port, env, reports, other)
    case MarkHealthy(port) =>
      || other.Spawns? || other.ProbesHealthy?
      || (other.Restarts? && other.env.AllComeUp() && other.env.freePort == Some(port))
    case _ => true
  }

  predicate SurvivesUnready(port: nat, env: SpawnEnv, reports: bool, other: Other) {
    var goesOn := env.ready && env.workerStarts && env.valuationStarts;
    match other
    case ShutsDown => true
    case Kills => !goesOn
    case Restarts(e) => if e.AllComeUp() then env.ready && e.freePort == Some(port) else !goesOn
    case Spawns(e) => if e.workerStarts && e.valuationStarts then env.ready else !goesOn
    case ProbesHealthy => reports || goesOn
  }

  predicate SurvivesNoWorkers(stored: bool, port: nat, env: SpawnEnv, reports: bool, other: Other) {
    var goesOn := env.workerStarts && env.valuationStarts;
    match other
    case ShutsDown => !goesOn
    case Kills => !goesOn
    case Restarts(e) => if e.AllComeUp() then e.freePort == Some(port) else !goesOn
    case Spawns(e) => stored || (e.workerStarts && e.valuationStarts) || !goesOn
    case ProbesHealthy => reports || stored || goesOn
  }

  predicate SurvivesOneWorker(stored: bool, port: nat, env: SpawnEnv, reports: bool, other: Other) {
    match other
    case ShutsDown => !env.valuationStarts
    case Kills => !env.valuationStarts
    case Restarts(e) => if e.AllComeUp() then e.freePort == Some(port) else !env.valuationStarts
    case Spawns(e) => stored || e.valuationStarts || !env.valuationStarts
    case ProbesHealthy => reports || stored || env.valuationStarts
  }

  lemma InterruptedUnready(s: Stack, port: nat, env: SpawnEnv, reports: bool, other: Other)
    requires Standing(s, AwaitReady(port))
    ensures Sound(SpawnRest(Done(s, other), AwaitReady(port), env, reports))
            <==> SurvivesUnready(port, env, reports, other)
  {
    ReadyRest(Done(s, other), port, env, reports);
  }

  lemma InterruptedNoWorkers(s: Stack, port: nat, env: SpawnEnv, reports: bool, other: Other)
    requires Standing(s, StartWorker(port))
    ensures Sound(SpawnRest(Done(s, other), StartWorker(port), env, reports))
            <==> SurvivesNoWorkers(s.worker, port, env, reports, other)
  {
    WorkersRest(Done(s, other), port, env, reports);
  }

  lemma InterruptedOneWorker(s: Stack, port: nat, env: SpawnEnv, reports: bool, other: Other)
    requires Standing(s, StartValuation(port))
    ensures Sound(SpawnRest(Done(s, other), StartValuation(port), env, reports))
            <==> SurvivesOneWorker(s.valuation, port, env, reports, other)
  {
    LastSteps(Done(s, other), port, env, reports);
  }

  lemma DoneKeepsSound(s: Stack, other: Other)
    requires Sound(s)
    ensures Sound(Done(s, other))
  {
  }

  lemma SidecarRestIsSound(s: Stack, env: SpawnEnv, reports: bool)
    requires Sound(s)
    ensures Sound(SpawnRest(s, StartSidecar, env, reports))
  {
    SidecarRest(s, env, reports);
    if env.freePort.Some? { ReadyRest(s.(sidecar := true, port := env.freePort), env.freePort.value, env, reports); }
  }

  /** Before the sidecar is started and after the end, an interruption is harmless. */
  lemma InterruptedOutside(s: Stack, phase: Phase, env: SpawnEnv, reports: bool, other: Other)
    requires Standing(s, phase) && (phase.MarkStarting? || phase.StartSidecar? || phase.GiveUp? || phase.Finished?)
    ensures Sound(SpawnRest(Done(s, other), phase, env, reports))
  {
    var t := Done(s, other);
    DoneKeepsSound(s, other);
    LastSteps(t, 0, env, reports);
    if phase.MarkStarting? && !t.shuttingDown { UninterruptedIsSound(t, MarkStarting, env, reports); }
    SidecarRestIsSound(t, env, reports);
  }

  /** The races of a spawn, exactly: wherever one thread stands in a spawn and whatever one operation another thread
      does there, the spawn ends in a sound state if and only if `Survives` says so. */
  lemma InterruptedSoundIff(s: Stack, phase: Phase, env: SpawnEnv, reports: bool, other: Other)
    requires Standing(s, phase)
    ensures Sound(SpawnRest(Done(s, other), phase, env, reports)) <==> Survives(s, phase, env, reports, other)
  {
    match phase
    case AwaitReady(port) => InterruptedUnready(s, port, env, reports, other);
    case StartWorker(port) => InterruptedNoWorkers(s, port, env, reports, other);
    case StartValuation(port) => InterruptedOneWorker(s, port, env, reports, other);
    case MarkHealthy(port) => LastSteps(Done(s, other), port, env, reports);
    case _ => InterruptedOutside(s, phase, env, reports, other);
  }

  /** Nothing there that a poll could probe or would recover. */
  predicate Stuck(s: Stack) { !s.shuttingDown && !s.sidecar && s.port.None? && !s.ShouldRecover() }

  /** A whole stack, but reported on the wrong port. */
  predicate WrongPort(s: Stack) { s.Present() && s.status == Healthy && s.reportedPort != s.port }

  lemma UnreadyRaceLeaves(s: Stack, port: nat, env: SpawnEnv, reports: bool, other: Other)
    requires Standing(s, AwaitReady(port)) && !SurvivesUnready(port, env, reports, other) && !other.ShutsDown?
    ensures var after := SpawnRest(Done(s, other), AwaitReady(port), env, reports); Stuck(after) || WrongPort(after)
  {
    ReadyRest(Done(s, other), port, env, reports);
  }

  lemma NoWorkersRaceLeaves(s: Stack, port: nat, env: SpawnEnv, reports: bool, other: Other)
    requires Standing(s, StartWorker(port)) && !SurvivesNoWorkers(s.worker, port, env, reports, other)
             && !other.ShutsDown?
    ensures var after := SpawnRest(Done(s, other), StartWorker(port), env, reports); Stuck(after) || WrongPort(after)
  {
    WorkersRest(Done(s, other), port, env, reports);
  }

  /** What such a race leaves, unless the app is shutting down: a stack that no poll touches again, or a whole stack
      that is reported on the wrong port. */
  lemma RaceLeaves(s: Stack, phase: Phase, env: SpawnEnv, reports: bool, other: Other)
    requires Standing(s, phase) && !Survives(s, phase, env, reports, other) && !other.ShutsDown?
    ensures var after := SpawnRest(Done(s, other), phase, env, reports); Stuck(after) || WrongPort(after)
  {
    match phase
    case AwaitReady(port) => UnreadyRaceLeaves(s, port, env, reports, other);
    case StartWorker(port) => NoWorkersRaceLeaves(s, port, env, reports, other);
    case StartValuation(port) => LastSteps(Done(s, other), port, env, reports);
    case MarkHealthy(port) => LastSteps(Done(s, other), port, env, reports);
    case _ =>
  }

  /** A shutdown during a spawn leaves a worker running if and only if it lands after the sidecar became ready and
      before the last worker is stored, and that worker starts. */
  lemma ShutdownDuringSpawn(s: Stack, phase: Phase, env: SpawnEnv, reports: bool)
    ensures SpawnRest(StoppedStack(s), phase, env, reports).Missing()
            <==> !((phase.StartWorker? && env.workerStarts && env.valuationStarts)
                   || (phase.StartValuation? && env.valuationStarts))
  {
    var t := StoppedStack(s);
    match phase
    case MarkStarting => LastSteps(t, 0, env, reports);
    case StartSidecar => SidecarRest(t, env, reports);
    case AwaitReady(port) => ReadyRest(t, port, env, reports);
    case StartWorker(port) => WorkersRest(t, port, env, reports);
    case StartValuation(port) => LastSteps(t, port, env, reports);
    case MarkHealthy(port) => LastSteps(t, port, env, reports);
    case _ => LastSteps(t, 0, env, reports);
  }

  // ---------------------------------------------------------------- a poll and its probes

  function RunPolls(h: Host, polls: seq<Poll>): Host
    decreases |polls|
  {
    if polls == [] then h else RunPolls(Polled(h, polls[0]), polls[1..])
  }

  lemma {:induction false} StuckStays(h: Host, polls: seq<Poll>)
    requires Stuck(h.stack)
    ensures RunPolls(h, polls).stack == h.stack && RunPolls(h, polls).record == h.record
    decreases |polls|
  {
    if polls != [] {
      StuckStays(Polled(h, polls[0]), polls[1..]);
    }
  }

  /** A race of a spawn that is stuck stays so over any number of polls, and it happens: a kill of the first start
      after its sidecar became ready leaves two workers and no sidecar, marked healthy. */
  lemma KilledDuringSpawnSticks(env: SpawnEnv, reports: bool, polls: seq<Poll>)
    requires env.AllComeUp()
    ensures var port := env.freePort.value;
            var ready := Init().stack.(status := Starting, sidecar := true, port := Some(port));
            var after := SpawnRest(KilledByUser(ready), StartWorker(port), env, reports);
            && SpawnRest(Init().stack, MarkStarting, env, reports) == SpawnRest(ready, StartWorker(port), env, reports)
            && !after.Present() && !after.Missing() && after.status == Healthy
            && RunPolls(Init().(stack := after), polls).stack == after
  {
    var port := env.freePort.value;
    var ready := Init().stack.(status := Starting, sidecar := true, port := Some(port));
    StepsAddUp(Init().stack, env, reports);
    WorkersRest(ready, port, env, reports);
    WorkersRest(KilledByUser(ready), port, env, reports);
    StuckStays(Init().(stack := SpawnRest(KilledByUser(ready), StartWorker(port), env, reports)), polls);
  }

  /** The host while the probe that sees success is in flight: the first one, or the confirming one, after the failure
      has been counted and the process found alive. */
  function InFlight(h: Host, p: Poll): Host
    requires Probes(h, p)
  {
    if p.probeOk then h else Counted(h, h.stack.port.value)
  }

  /** With nothing in between, that probe and its report are the poll. */
  lemma ProbeThenReport(h: Host, p: Poll)
    requires SeesSuccess(h, p)
    ensures Polled(h, p) == ReportsHealthy(InFlight(h, p), h.stack.port.value)
  {
  }

  /** From every reachable state, whatever is done while such a probe is in flight, the first or the confirming one:
      the report leaves a sound state exactly when the probed stack is still there. */
  lemma {:induction false} ReportSoundIffStillPresent(ops: seq<Op>, p: Poll, between: seq<Op>)
    requires SeesSuccess(Run(Init(), ops), p)
    ensures var h := Run(Init(), ops);
            var now := Run(InFlight(h, p), between);
            Sound(ReportsHealthy(now, h.stack.port.value).stack) <==> now.stack.port == h.stack.port
  {
    ReachableSound(Init(), ops);
    ReachableSound(InFlight(Run(Init(), ops), p), between);
  }

  /** The race: from every reachable state with a stack, a kill, or a restart that fails, during such a probe leaves
      the host without a stack and marked healthy, and no later poll of the watchdog starts anything. */
  lemma {:induction false} KilledDuringProbeSticks(ops: seq<Op>, p: Poll, op: Op, polls: seq<Poll>)
    requires SeesSuccess(Run(Init(), ops), p)
    requires op == Kill || (op.Restart? && !op.env.AllComeUp())
    ensures var h := Run(Init(), ops);
            var after := ReportsHealthy(Apply(InFlight(h, p), op), h.stack.port.value);
            && after.stack.Missing() && after.stack.status == Healthy && !after.stack.shuttingDown
            && RunPolls(after, polls).stack == after.stack && RunPolls(after, polls).record == h.record
  {
    var h := Run(Init(), ops);
    StuckStays(ReportsHealthy(Apply(InFlight(h, p), op), h.stack.port.value), polls);
  }

  /** It happens: a first start that succeeds, then any poll with a successful probe. */
  lemma RaceHappens(env: SpawnEnv, p: Poll)
    requires env.AllComeUp() && !p.exited && p.probeOk
    ensures SeesSuccess(Run(Init(), [AutoStart(env)]), p) && Run(Init(), [AutoStart(env)]).stack.Present()
  {
    assert Run(Init(), [AutoStart(env)]) == Run(Apply(Init(), AutoStart(env)), []);
  }
}
