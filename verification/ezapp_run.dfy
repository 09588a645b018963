/** The `Run` of pkg/ezapp/run.go as a decision function.

    The goroutines, channels and `os.Exit` are abstracted into an event trace
    of signals arriving and runnables returning, in the order they happen,
    together with the point in that trace at which the main goroutine reaches
    its `select`.  Whatever happened before that point is buffered: the first
    signal in `sigChan`, the first error in `errChan`, and `done` is closed once
    every runnable has returned.  When several cases are ready there, Go picks
    one at random, so a closed `done` can hide an error that is still in
    `errChan`.  Once the `select` is blocked, the first event that makes a case
    ready decides it: a runnable puts its error on the channel before its
    deferred `wg.Done`, so an error is observed before the `done` it causes. */
module EzappRun {
  import opened Base
  import Strconv
  import EzappApp

  const TermTimeoutEnv := "EZAPP_TERM_TIMEOUT"
  const DefaultCleanupSeconds := 15
  const AllCompleted := "All runnables completed successfully"

  /** `GetCleanupTimeout()` given the value of EZAPP_TERM_TIMEOUT ("" when unset),
      in whole seconds.  An invalid value silently falls back to the default. */
  function GetCleanupTimeout(env: string): (seconds: int)
    ensures !Strconv.AtoiAccepts(env) ==> seconds == DefaultCleanupSeconds
    ensures Strconv.AtoiAccepts(env) ==> seconds == Strconv.NumeralValue(env)
  {
    if env == "" then DefaultCleanupSeconds
    else
      match Strconv.Atoi(env)
      case None => DefaultCleanupSeconds
      case Some(n) => n
  }

  /** The two signals `Run` subscribes to. */
  datatype Sig = SIGINT | SIGTERM

  /** `sig.String()`. */
  function SigString(s: Sig): string {
    match s
    case SIGINT => "interrupt"
    case SIGTERM => "terminated"
  }

  /** The `select` case `waitForShutdown` takes. */
  datatype Trigger = Signal(sig: Sig) | RunnableError(err: Error) | AllDone

  /** What `waitForShutdown` returns, and whether it called `cancel` itself. */
  datatype Shutdown = Shutdown(exitCode: int, reason: string, cancels: bool)

  /** `waitForShutdown`: exit code 1 exactly for a runnable error.  The reason
      for all-done is told apart from the other two by its text alone, which is
      what the `shutdownReason != ...` test in `Run` relies on. */
  function WaitForShutdown(t: Trigger): (s: Shutdown)
    ensures s.exitCode == 1 <==> t.RunnableError?
    ensures s.exitCode == 0 <==> !t.RunnableError?
    ensures t.Signal? ==> s.reason == "Received signal " + SigString(t.sig)
    ensures t.RunnableError? ==> s.reason == "Runnable error: " + Text(t.err)
    ensures t.AllDone? ==> s.reason == AllCompleted
    ensures s.reason == AllCompleted <==> t.AllDone?
    ensures s.cancels <==> t.Signal?
  {
    match t
    case Signal(sig) =>
      var r := "Received signal " + SigString(sig);
      assert r[0] != AllCompleted[0];
      Shutdown(0, r, true)
    case RunnableError(err) =>
      var r := "Runnable error: " + Text(err);
      assert r[0] != AllCompleted[0];
      Shutdown(1, r, false)
    case AllDone =>
      Shutdown(0, AllCompleted, false)
  }

  /** `runCleanup`: the cleanup runs with a context whose timeout comes from
      EZAPP_TERM_TIMEOUT; a failure gives (1, err), success (0, nil).
      `cleanup` is what the cleanup function returns for a given timeout. */
  function RunCleanup(cleanup: int -> Option<Error>, termEnv: string): (r: (int, Option<Error>))
    ensures r.1 == cleanup(GetCleanupTimeout(termEnv))
    ensures r.0 == 1 <==> r.1.Some?
    ensures r.0 == 0 <==> r.1.None?
  {
    var err := cleanup(GetCleanupTimeout(termEnv));
    if err.Some? then (1, err) else (0, None)
  }

  /** One observation by the main goroutine. */
  datatype Event = SignalArrived(sig: Sig) | RunnableReturned(err: Option<Error>)

  /** How many runnables have returned in a trace. */
  function Returns(events: seq<Event>): nat {
    if events == [] then 0
    else Returns(events[..|events| - 1]) + (if events[|events| - 1].RunnableReturned? then 1 else 0)
  }

  /** A runnable returning a non-nil error. */
  predicate IsErrorReturn(e: Event) {
    e.RunnableReturned? && e.err.Some?
  }

  /** The signal waiting in `sigChan` after the given events: the channel
      holds one signal and `signal.Notify` drops the ones that do not fit. */
  function FirstSignal(events: seq<Event>): (r: Option<Sig>)
    ensures r.None? <==> forall j | 0 <= j < |events| :: !events[j].SignalArrived?
    ensures r.Some? ==> exists j | 0 <= j < |events| :: events[j] == SignalArrived(r.value)
  {
    if events == [] then None
    else if events[0].SignalArrived? then Some(events[0].sig)
    else
      var r := FirstSignal(events[1..]);
      assert forall j | 1 <= j < |events| :: events[j] == events[1..][j - 1];
      r
  }

  /** The error at the head of `errChan` after the given events.  The first
      failing runnable always sends: nothing cancels the runnables' context
      before an error does, and the channel has room for every runnable. */
  function FirstError(events: seq<Event>): (r: Option<Error>)
    ensures r.None? <==> forall j | 0 <= j < |events| :: !IsErrorReturn(events[j])
    ensures r.Some? ==> exists j | 0 <= j < |events| :: events[j] == RunnableReturned(Some(r.value))
  {
    if events == [] then None
    else if IsErrorReturn(events[0]) then Some(events[0].err.value)
    else
      var r := FirstError(events[1..]);
      assert forall j | 1 <= j < |events| :: events[j] == events[1..][j - 1];
      r
  }

  /** The `select` cases ready when the main goroutine reaches it after the
      first `entry` events, in the order the cases are written. */
  function Ready(events: seq<Event>, n: nat, entry: nat): (r: seq<Trigger>)
    requires entry <= |events|
    ensures forall t | t in r ::
              || (t.Signal? && FirstSignal(events[..entry]) == Some(t.sig))
              || (t.RunnableError? && FirstError(events[..entry]) == Some(t.err))
              || (t.AllDone? && Returns(events[..entry]) >= n)
    ensures FirstSignal(events[..entry]).Some? ==> Signal(FirstSignal(events[..entry]).value) in r
    ensures FirstError(events[..entry]).Some? ==> RunnableError(FirstError(events[..entry]).value) in r
    ensures Returns(events[..entry]) >= n ==> AllDone in r
  {
    var before := events[..entry];
    (match FirstSignal(before) case Some(s) => [Signal(s)] case None => [])
    + (match FirstError(before) case Some(e) => [RunnableError(e)] case None => [])
    + (if Returns(before) >= n then [AllDone] else [])
  }

  /** Event k, after the `select` has blocked, makes a case ready: a signal, a
      runnable error, or the n-th return, which closes `done`. */
  predicate Fires(events: seq<Event>, n: nat, k: nat)
    requires k < |events|
  {
    match events[k]
    case SignalArrived(_) => true
    case RunnableReturned(err) => err.Some? || Returns(events[..k + 1]) == n
  }

  /** The trigger an event produces when it fires. */
  function TriggerOf(e: Event): Trigger {
    match e
    case SignalArrived(s) => Signal(s)
    case RunnableReturned(Some(err)) => RunnableError(err)
    case RunnableReturned(None) => AllDone
  }

  /** A trigger together with how many events were consumed to reach it. */
  datatype Found = Found(trigger: Trigger, consumed: nat)

  /** The blocked `select` from event i on: the first event that fires. */
  function Scan(events: seq<Event>, n: nat, i: nat, returned: nat): (r: Option<Found>)
    requires i <= |events| && returned == Returns(events[..i])
    ensures r.Some? ==> i < r.value.consumed <= |events|
    ensures r.Some? ==> Fires(events, n, r.value.consumed - 1)
    ensures r.Some? ==> r.value.trigger == TriggerOf(events[r.value.consumed - 1])
    ensures r.Some? ==> forall j | i <= j < r.value.consumed - 1 :: !Fires(events, n, j)
    ensures r.None? ==> forall j | i <= j < |events| :: !Fires(events, n, j)
    decreases |events| - i
  {
    if i == |events| then None
    else
      var returned' := returned + (if events[i].RunnableReturned? then 1 else 0);
      assert events[..i + 1][..i] == events[..i];
      assert Returns(events[..i + 1]) == returned';
      var fires := match events[i]
        case SignalArrived(_) => true
        case RunnableReturned(err) => err.Some? || returned' == n;
      if fires then Some(Found(TriggerOf(events[i]), i + 1))
      else Scan(events, n, i + 1, returned')
  }

  /** Where the main goroutine reaches the `select`: at most after the whole trace. */
  function EntryPoint(events: seq<Event>, entry: nat): (e: nat)
    ensures e <= |events|
    ensures entry <= |events| ==> e == entry
  {
    if entry <= |events| then entry else |events|
  }

  /** The case the `select` of a run of n runnables takes.  If cases are
      ready when the main goroutine arrives, Go's random pick is `choice`
      among them; otherwise the first event that fires decides.  With no
      runnables `done` is closed at once. */
  function FirstTrigger(events: seq<Event>, n: nat, entry: nat, choice: nat): (r: Option<Found>)
    ensures var e := EntryPoint(events, entry); var ready := Ready(events, n, e);
            ready != [] ==> r.Some? && r.value.consumed == e && r.value.trigger in ready
    ensures n == 0 && entry == 0 ==> r == Some(Found(AllDone, 0))
    ensures var e := EntryPoint(events, entry);
            Ready(events, n, e) == [] && r.Some? ==>
              && e < r.value.consumed <= |events|
              && Fires(events, n, r.value.consumed - 1)
              && r.value.trigger == TriggerOf(events[r.value.consumed - 1])
              && forall j | e <= j < r.value.consumed - 1 :: !Fires(events, n, j)
    ensures var e := EntryPoint(events, entry);
            Ready(events, n, e) == [] ==> (r.None? <==> forall j | e <= j < |events| :: !Fires(events, n, j))
  {
    var e := EntryPoint(events, entry);
    var ready := Ready(events, n, e);
    if ready != [] then Some(Found(ready[choice % |ready|], e))
    else Scan(events, n, e, Returns(events[..e]))
  }

  /** Where a run that never exits is blocked. */
  datatype Stage = AwaitingTrigger | AwaitingRunnables

  /** The end of `Run`: the code passed to `os.Exit` with the shutdown reason
      printed, whether the builder and the cleanup were called; or no exit. */
  datatype Outcome =
    | Exited(code: int, reason: string, builderCalled: bool, cleanupCalled: bool)
    | Stuck(stage: Stage)

  /** `Run(builder)`.  `configErr` is the result of validating and loading the
      configuration, `built` what the builder returns, `events`, `entry` and
      `choice` the trace, the point at which the `select` is reached and Go's
      pick among the cases ready there, as described above, `cleanup` the
      behaviour of the app's cleanup function and `termEnv` the value of
      EZAPP_TERM_TIMEOUT. */
  function Run(configErr: Option<Error>, built: Result<EzappApp.App>, events: seq<Event>, entry: nat, choice: nat,
               cleanup: int -> Option<Error>, termEnv: string): (o: Outcome)
    ensures configErr.Some? ==>
              o == Exited(1, "Initialization error: " + Text(configErr.value), false, false)
    ensures configErr.None? && built.Err? ==>
              o == Exited(1, "Initialization error: " + Text(built.error), true, false)
    ensures configErr.None? && built.Ok? && built.value.runnables == [] ==>
              o == Exited(0, "No runnables to execute", true, false)
    ensures o.Exited? && o.cleanupCalled ==> built.Ok? && built.value.cleanup.Some?
  {
    if configErr.Some? then Exited(1, "Initialization error: " + Text(configErr.value), false, false)
    else if built.Err? then Exited(1, "Initialization error: " + Text(built.error), true, false)
    else
      var app := built.value;
      var n := |app.runnables|;
      if n == 0 then Exited(0, "No runnables to execute", true, false)
      else
        match FirstTrigger(events, n, entry, choice)
        case None => Stuck(AwaitingTrigger)
        case Some(f) =>
          var s := WaitForShutdown(f.trigger);
          if s.reason != AllCompleted && Returns(events) < n then Stuck(AwaitingRunnables)
          else if app.cleanup.Some? then
            var (code, err) := RunCleanup(cleanup, termEnv);
            Exited(if err.Some? then code else s.exitCode, s.reason, true, true)
          else
            Exited(s.exitCode, s.reason, true, false)
  }

  /** A run that got past initialisation with at least one runnable. */
  predicate Started(configErr: Option<Error>, built: Result<EzappApp.App>) {
    configErr.None? && built.Ok? && |built.value.runnables| > 0
  }

  lemma {:induction false} ReturnsPrefix(events: seq<Event>, k: nat)
    requires k <= |events|
    ensures Returns(events[..k]) <= Returns(events)
    decreases |events| - k
  {
    if k < |events| {
      var p := events[..k + 1];
      assert p[..|p| - 1] == events[..k];
      ReturnsPrefix(events, k + 1);
    } else {
      assert events[..k] == events;
    }
  }

  /** If n runnables return somewhere in the trace, some event fires. */
  lemma {:induction false} NthReturnFires(events: seq<Event>, n: nat)
    requires 0 < n <= Returns(events)
    ensures exists k | 0 <= k < |events| :: Fires(events, n, k)
    decreases |events|
  {
    var m := |events| - 1;
    var init := events[..m];
    if Returns(init) >= n {
      NthReturnFires(init, n);
      var k :| 0 <= k < |init| && Fires(init, n, k);
      assert init[..k + 1] == events[..k + 1];
      assert Fires(events, n, k);
    } else {
      assert events[..m + 1] == events;
      assert Fires(events, n, m);
    }
  }

  /** With nothing ready when the `select` is reached, no event before that
      point would have fired a blocked `select` either. */
  lemma NothingReadyNothingFired(events: seq<Event>, n: nat, e: nat)
    requires 0 < n && e <= |events| && Ready(events, n, e) == []
    ensures forall j | 0 <= j < e :: !Fires(events, n, j)
  {
    var before := events[..e];
    forall j | 0 <= j < e
      ensures !Fires(events, n, j)
    {
      assert before[j] == events[j];
      assert !before[j].SignalArrived?;
      assert !IsErrorReturn(before[j]);
      assert before[..j + 1] == events[..j + 1];
      ReturnsPrefix(before, j + 1);
    }
  }

  /** No forced shutdown: a started run exits exactly when every runnable
      returns somewhere in the trace; otherwise it waits forever. */
  lemma ExitsIffAllReturn(configErr: Option<Error>, built: Result<EzappApp.App>, events: seq<Event>,
                          entry: nat, choice: nat, cleanup: int -> Option<Error>, termEnv: string)
    requires Started(configErr, built)
    ensures Run(configErr, built, events, entry, choice, cleanup, termEnv).Exited?
            <==> Returns(events) >= |built.value.runnables|
  {
    var n := |built.value.runnables|;
    var e := EntryPoint(events, entry);
    var ft := FirstTrigger(events, n, entry, choice);
    if Ready(events, n, e) == [] {
      NothingReadyNothingFired(events, n, e);
      if Returns(events) >= n {
        NthReturnFires(events, n);
      }
      if ft.Some? && ft.value.trigger.AllDone? {
        var k := ft.value.consumed - 1;
        assert Returns(events[..k + 1]) == n;
        ReturnsPrefix(events, k + 1);
      }
    } else if ft.value.trigger.AllDone? {
      ReturnsPrefix(events, e);
    }
  }

  /** The exit code of a started run that exits: 1 exactly when the `select`
      took a runnable error or the cleanup ran and failed. */
  lemma ExitCodeRule(configErr: Option<Error>, built: Result<EzappApp.App>, events: seq<Event>,
                     entry: nat, choice: nat, cleanup: int -> Option<Error>, termEnv: string)
    requires Started(configErr, built)
    requires Run(configErr, built, events, entry, choice, cleanup, termEnv).Exited?
    ensures FirstTrigger(events, |built.value.runnables|, entry, choice).Some?
    ensures var o := Run(configErr, built, events, entry, choice, cleanup, termEnv);
            var t := FirstTrigger(events, |built.value.runnables|, entry, choice).value.trigger;
            (o.code == 1 <==> t.RunnableError?
                              || (built.value.cleanup.Some? && cleanup(GetCleanupTimeout(termEnv)).Some?))
            && (o.code == 0 || o.code == 1)
            && o.reason == WaitForShutdown(t).reason
            && o.builderCalled
            && (o.cleanupCalled <==> built.value.cleanup.Some?)
  {
  }

  /** Exit code 1 has a cause: some runnable returned an error, or the cleanup
      ran and failed.  The converse does not hold (see `DoneCanMaskError`). */
  lemma ExitOneHasCause(configErr: Option<Error>, built: Result<EzappApp.App>, events: seq<Event>,
                        entry: nat, choice: nat, cleanup: int -> Option<Error>, termEnv: string)
    requires Started(configErr, built)
    requires Run(configErr, built, events, entry, choice, cleanup, termEnv).Exited?
    requires Run(configErr, built, events, entry, choice, cleanup, termEnv).code == 1
    ensures FirstError(events).Some? || (built.value.cleanup.Some? && cleanup(GetCleanupTimeout(termEnv)).Some?)
  {
    var n := |built.value.runnables|;
    var e := EntryPoint(events, entry);
    var t := FirstTrigger(events, n, entry, choice).value;
    if t.trigger.RunnableError? {
      if Ready(events, n, e) != [] {
        var before := events[..e];
        var j :| 0 <= j < |before| && before[j] == RunnableReturned(Some(FirstError(before).value));
        assert IsErrorReturn(events[j]);
      } else {
        assert IsErrorReturn(events[t.consumed - 1]);
      }
    }
  }

  /** The race of the `select`: when the main goroutine arrives after an
      error was sent and every runnable has returned, both `errChan` and `done`
      are ready.  One pick exits 1 with the error, another exits 0 with "All
      runnables completed successfully", the error never reported. */
  lemma DoneCanMaskError(built: Result<EzappApp.App>, events: seq<Event>, entry: nat,
                         cleanup: int -> Option<Error>, termEnv: string)
    requires Started(None, built)
    requires entry <= |events|
    requires FirstError(events[..entry]).Some?
    requires Returns(events[..entry]) >= |built.value.runnables|
    requires built.value.cleanup.Some? ==> cleanup(GetCleanupTimeout(termEnv)).None?
    ensures exists choice: nat :: Run(None, built, events, entry, choice, cleanup, termEnv)
                                  == Exited(0, AllCompleted, true, built.value.cleanup.Some?)
    ensures exists choice: nat :: Run(None, built, events, entry, choice, cleanup, termEnv)
                                  == Exited(1, "Runnable error: " + Text(FirstError(events[..entry]).value),
                                            true, built.value.cleanup.Some?)
  {
    var n := |built.value.runnables|;
    var ready := Ready(events, n, entry);
    var i :| 0 <= i < |ready| && ready[i] == AllDone;
    assert i % |ready| == i;
    assert Run(None, built, events, entry, i, cleanup, termEnv).reason == AllCompleted;
    ReturnsPrefix(events, entry);
    var k :| 0 <= k < |ready| && ready[k] == RunnableError(FirstError(events[..entry]).value);
    assert k % |ready| == k;
    assert Run(None, built, events, entry, k, cleanup, termEnv).code == 1;
  }

  /** When the `select` is already blocked before anything happens, an error
      cannot be masked: if `done` is taken, no runnable returned an error. */
  lemma BlockedSelectSeesErrors(events: seq<Event>, n: nat, choice: nat)
    requires 0 < n
    requires FirstTrigger(events, n, 0, choice).Some?
    requires FirstTrigger(events, n, 0, choice).value.trigger.AllDone?
    ensures forall j | 0 <= j < FirstTrigger(events, n, 0, choice).value.consumed :: !IsErrorReturn(events[j])
  {
    assert events[..0] == [];
    assert Ready(events, n, 0) == [];
    var f := FirstTrigger(events, n, 0, choice).value;
    forall j | 0 <= j < f.consumed
      ensures !IsErrorReturn(events[j])
    {
      if j < f.consumed - 1 {
        assert !Fires(events, n, j);
      }
    }
  }

  /** A cleanup failure makes the exit code 1 whatever the trigger. */
  lemma CleanupFailureOverrides(configErr: Option<Error>, built: Result<EzappApp.App>, events: seq<Event>,
                                entry: nat, choice: nat, cleanup: int -> Option<Error>, termEnv: string)
    requires Started(configErr, built) && built.value.cleanup.Some?
    requires cleanup(GetCleanupTimeout(termEnv)).Some?
    requires Run(configErr, built, events, entry, choice, cleanup, termEnv).Exited?
    ensures Run(configErr, built, events, entry, choice, cleanup, termEnv).code == 1
  {
  }

  /** A successful cleanup leaves the trigger's exit code as it was. */
  lemma CleanupSuccessKeepsCode(configErr: Option<Error>, built: Result<EzappApp.App>, events: seq<Event>,
                                entry: nat, choice: nat, cleanup: int -> Option<Error>, termEnv: string)
    requires Started(configErr, built)
    requires cleanup(GetCleanupTimeout(termEnv)).None?
    requires Run(configErr, built, events, entry, choice, cleanup, termEnv).Exited?
    ensures FirstTrigger(events, |built.value.runnables|, entry, choice).Some?
    ensures Run(configErr, built, events, entry, choice, cleanup, termEnv).code
            == WaitForShutdown(FirstTrigger(events, |built.value.runnables|, entry, choice).value.trigger).exitCode
  {
  }

  /** A signal before anything else, with the `select` reached before or
      just after it, ends the run with exit code 0 (if the runnables then
      return and the cleanup, if any, succeeds), whatever Go picks. */
  lemma SignalFirstExitsZero(built: Result<EzappApp.App>, sig: Sig, rest: seq<Event>, entry: nat, choice: nat,
                             cleanup: int -> Option<Error>, termEnv: string)
    requires Started(None, built)
    requires entry <= 1
    requires cleanup(GetCleanupTimeout(termEnv)).None?
    requires Returns([SignalArrived(sig)] + rest) >= |built.value.runnables|
    ensures Run(None, built, [SignalArrived(sig)] + rest, entry, choice, cleanup, termEnv)
            == Exited(0, "Received signal " + SigString(sig), true, built.value.cleanup.Some?)
  {
    var events := [SignalArrived(sig)] + rest;
    var n := |built.value.runnables|;
    assert Fires(events, n, 0);
    if entry == 1 {
      assert events[..1] == [SignalArrived(sig)];
      assert events[..1][..0] == [];
      assert Returns(events[..1]) == 0;
      assert FirstError(events[..1]).None?;
      assert FirstSignal(events[..1]) == Some(sig);
      assert Ready(events, n, 1) == [Signal(sig)];
    } else {
      assert events[..0] == [];
    }
  }
}
