/** What one step of the runtime supervisor does, event by event: the whole
    outcome (state, context and effects) for every state the event can meet. */
module RuntimeProperties {
  import opened RuntimeTypes
  import opened RuntimeMachine

  // Running a list of actions, one action at a time.

  lemma ExecAllOne(a: Action, ctx: Context, env: Env)
    ensures ExecAll(Then(a, Done), ctx, env) == Exec(a, ctx, env)
  {
    assert Exec(a, ctx, env).1 + [] == Exec(a, ctx, env).1;
  }

  /** One action list followed by another. */
  function Concat(a: Actions, b: Actions): Actions
  {
    match a
    case Done => b
    case Then(x, rest) => Then(x, Concat(rest, b))
  }

  /** Running two action lists one after the other is running their
      concatenation: the second list sees the context the first one left,
      and its effects come after the first one's. */
  lemma {:induction false} ExecAllConcat(a: Actions, b: Actions, ctx: Context, env: Env)
    ensures var (c1, f1) := ExecAll(a, ctx, env);
      var (c2, f2) := ExecAll(b, c1, env);
      ExecAll(Concat(a, b), ctx, env) == (c2, f1 + f2)
  {
    match a
    case Done =>
      assert [] + ExecAll(b, ctx, env).1 == ExecAll(b, ctx, env).1;
    case Then(x, rest) =>
      var (c0, f0) := Exec(x, ctx, env);
      ExecAllConcat(rest, b, c0, env);
      var (c1, f1) := ExecAll(rest, c0, env);
      var (c2, f2) := ExecAll(b, c1, env);
      assert f0 + (f1 + f2) == (f0 + f1) + f2;
  }

  /** No list of actions changes the app, and each action adds at most one effect. */
  lemma {:induction false} ExecAllKeepsApp(a: Actions, ctx: Context, env: Env)
    ensures ExecAll(a, ctx, env).0.subdomain == ctx.subdomain
    ensures |ExecAll(a, ctx, env).1| <= Length(a)
  {
    match a
    case Done =>
    case Then(x, rest) =>
      ExecAllKeepsApp(rest, Exec(x, ctx, env).0, env);
  }

  // Entering each state: entry actions, then the eventless transition.

  lemma EnterSpawningRuntime(ctx: Context, env: Env)
    ensures Enter(SpawningRuntime, ctx, env) ==
      (SpawningRuntime, ctx.(child := Some(env.freshChild)), [Spawn(env.freshChild, ctx.retryCount)])
  {
    ExecAllOne(SpawnRuntime, ctx, env);
  }

  lemma EnterStopped(ctx: Context, env: Env)
    ensures Enter(Stopped, ctx, env) == (Stopped, ctx.(port := None, retryCount := 0, child := None), [])
  {
    ExecAllOne(ClearOnStop, ctx, env);
  }

  lemma EnterWithoutEntryActions(s: State, ctx: Context, env: Env)
    requires s == Error || s == Running || s == PendingShutdown
    ensures Enter(s, ctx, env) == (s, ctx, [])
  {
  }

  lemma EnterMaybeRetrying(ctx: Context, env: Env)
    ensures var bumped := ctx.(retryCount := ctx.retryCount + 1);
      Enter(MaybeRetrying, ctx, env) ==
        if bumped.retryCount < MAX_RETRIES then
          (SpawningRuntime, bumped.(child := Some(env.freshChild)), [Spawn(env.freshChild, bumped.retryCount)])
        else
          (Error, bumped, [HitMaxRetries])
  {
    var bumped := ctx.(retryCount := ctx.retryCount + 1);
    ExecAllOne(IncrementRetryCount, ctx, env);
    if bumped.retryCount < MAX_RETRIES {
      EnterSpawningRuntime(bumped, env);
      assert [] + [] + [Spawn(env.freshChild, bumped.retryCount)] == [Spawn(env.freshChild, bumped.retryCount)];
    } else {
      ExecAllOne(LogMaxRetries, bumped, env);
      EnterWithoutEntryActions(Error, bumped, env);
      assert [] + [HitMaxRetries] + [] == [HitMaxRetries];
    }
  }

  /** The outcome of a restart: the old child is stopped, the context reset to
      one "Restarting server..." entry, the logs published, attempt 0 spawned. */
  function Restarted(ctx: Context, env: Env): Outcome
  {
    Outcome(SpawningRuntime,
            ctx.(errors := [], logs := [LogEntry(env.now, env.logId, "Restarting server...", Normal)],
                 port := None, retryCount := 0, child := Some(env.freshChild)),
            [StopChild(ctx.child), Publish(ctx.subdomain), Spawn(env.freshChild, 0)])
  }

  lemma EnterRestarting(ctx: Context, env: Env)
    ensures var r := Restarted(ctx, env); Enter(Restarting, ctx, env) == (r.state, r.ctx, r.effects)
  {
    var reset := ctx.(errors := [], logs := [], port := None, retryCount := 0, child := None);
    var logged := reset.(logs := [LogEntry(env.now, env.logId, "Restarting server...", Normal)]);
    ExecAllOne(PublishLogs, logged, env);
    assert reset.logs + [LogEntry(env.now, env.logId, "Restarting server...", Normal)] == logged.logs;
    var tail := Then(AppendLog("Restarting server...", Normal), Then(PublishLogs, Done));
    assert ExecAll(tail, reset, env) == (logged, [] + [Publish(ctx.subdomain)]);
    assert ExecAll(Then(ResetForRestart, tail), ctx, env) == (logged, [] + ([] + [Publish(ctx.subdomain)]));
    assert ExecAll(Always(Restarting, ctx).value.actions, ctx, env)
        == (logged, [StopChild(ctx.child)] + ([] + ([] + [Publish(ctx.subdomain)])));
    EnterSpawningRuntime(logged, env);
    assert [StopChild(ctx.child)] + ([] + ([] + [Publish(ctx.subdomain)])) == [StopChild(ctx.child), Publish(ctx.subdomain)];
    assert [] + [StopChild(ctx.child), Publish(ctx.subdomain)] + [Spawn(env.freshChild, 0)]
        == [StopChild(ctx.child), Publish(ctx.subdomain), Spawn(env.freshChild, 0)];
  }

  // Taking a transition with a target.

  lemma StepTaking(s: State, ctx: Context, e: Event, env: Env, target: State, actions: Actions)
    requires Select(s, e) == Some(Transition(Some(target), actions))
    ensures var (c1, f1) := ExecAll(actions, ctx, env);
      var (s2, c2, f2) := Enter(target, c1, env);
      Step(s, ctx, e, env) == Outcome(s2, c2, f1 + f2)
  {
  }

  lemma FailedHandler(s: State, k: FailureKind, v: RunErrorValue)
    ensures Select(s, Failed(k, v)) ==
      Some(Transition(Some(if Retryable(k) then MaybeRetrying else Error), Then(PushRuntimeErrorEvent(v), Done)))
  {
  }

  /** A spawn failure runs the error-recording action, then enters Error or MaybeRetrying. */
  lemma FailureEntersTarget(s: State, ctx: Context, k: FailureKind, v: RunErrorValue, env: Env, target: State)
    requires target == if Retryable(k) then MaybeRetrying else Error
    ensures var c1 := ctx.(errors := ctx.errors + [AppError(env.now, RuntimeErrorMessage(v), RuntimeError)]);
      var entered := Enter(target, c1, env);
      Step(s, ctx, Failed(k, v), env) == Outcome(entered.0, entered.1, entered.2)
  {
    var c1 := ctx.(errors := ctx.errors + [AppError(env.now, RuntimeErrorMessage(v), RuntimeError)]);
    FailedHandler(s, k, v);
    StepTaking(s, ctx, Failed(k, v), env, target, Then(PushRuntimeErrorEvent(v), Done));
    ExecAllOne(PushRuntimeErrorEvent(v), ctx, env);
    var entered := Enter(target, c1, env);
    assert [] + entered.2 == entered.2;
  }

  /** A non-retryable spawn failure records one runtime error and lands in Error. */
  lemma NonRetryableFailure(s: State, ctx: Context, k: FailureKind, v: RunErrorValue, env: Env)
    requires !Retryable(k)
    ensures Step(s, ctx, Failed(k, v), env) ==
      Outcome(Error, ctx.(errors := ctx.errors + [AppError(env.now, RuntimeErrorMessage(v), RuntimeError)]), [])
  {
    FailureEntersTarget(s, ctx, k, v, env, Error);
    EnterWithoutEntryActions(Error, ctx.(errors := ctx.errors + [AppError(env.now, RuntimeErrorMessage(v), RuntimeError)]), env);
  }

  /** A retryable spawn failure records one runtime error and bumps the retry
      count; it spawns again, with the bumped count as attempt, while that
      count is below MAX_RETRIES, and lands in Error otherwise. */
  lemma RetryableFailure(s: State, ctx: Context, k: FailureKind, v: RunErrorValue, env: Env)
    requires Retryable(k)
    ensures var c1 := ctx.(errors := ctx.errors + [AppError(env.now, RuntimeErrorMessage(v), RuntimeError)],
                           retryCount := ctx.retryCount + 1);
      Step(s, ctx, Failed(k, v), env) ==
        if c1.retryCount < MAX_RETRIES then
          Outcome(SpawningRuntime, c1.(child := Some(env.freshChild)), [Spawn(env.freshChild, c1.retryCount)])
        else
          Outcome(Error, c1, [HitMaxRetries])
  {
    var c0 := ctx.(errors := ctx.errors + [AppError(env.now, RuntimeErrorMessage(v), RuntimeError)]);
    FailureEntersTarget(s, ctx, k, v, env, MaybeRetrying);
    var entered := Enter(MaybeRetrying, c0, env);
    assert Step(s, ctx, Failed(k, v), env) == Outcome(entered.0, entered.1, entered.2);
    EnterMaybeRetrying(c0, env);
  }

  /** Every spawn failure appends exactly one error, of type `runtime`, whose
      message is the reported one behind the failing command when there is one;
      only port-taken and timeout can lead back to spawning. */
  lemma FailureClassification(s: State, ctx: Context, k: FailureKind, v: RunErrorValue, env: Env)
    ensures var r := Step(s, ctx, Failed(k, v), env);
      && r.ctx.errors == ctx.errors + [AppError(env.now, RuntimeErrorMessage(v), RuntimeError)]
      && r.ctx.logs == ctx.logs
      && (r.state == SpawningRuntime || r.state == Error)
      && (r.state == SpawningRuntime <==> Retryable(k) && ctx.retryCount + 1 < MAX_RETRIES)
  {
    if Retryable(k) {
      RetryableFailure(s, ctx, k, v, env);
    } else {
      NonRetryableFailure(s, ctx, k, v, env);
    }
  }

  /** `restart` is a root handler no state overrides, so from every state it
      stops the current child, resets the context to one "Restarting server..."
      log entry, publishes once and spawns attempt 0. */
  lemma RestartFromAnyState(s: State, ctx: Context, env: Env)
    ensures Step(s, ctx, Restart, env) == Restarted(ctx, env)
  {
    EnterRestarting(ctx, env);
    assert [] + Enter(Restarting, ctx, env).2 == Enter(Restarting, ctx, env).2;
  }

  /** A heartbeat always records its timestamp. It wakes PendingShutdown back
      to Running, turns Stopped into a full restart, and leaves every other
      state where it is, with no effect. */
  lemma Heartbeat(s: State, ctx: Context, t: Timestamp, env: Env)
    ensures var r := Step(s, ctx, UpdateHeartbeat(t), env);
      && r.ctx.lastHeartbeat == t
      && (s == PendingShutdown ==> r == Outcome(Running, ctx.(lastHeartbeat := t), []))
      && (s == Stopped ==> r == Restarted(ctx.(lastHeartbeat := t), env))
      && (s != PendingShutdown && s != Stopped ==> r == Outcome(s, ctx.(lastHeartbeat := t), []))
  {
    var c1 := ctx.(lastHeartbeat := t);
    ExecAllOne(SetLastHeartbeat(t), ctx, env);
    if s == PendingShutdown {
      EnterWithoutEntryActions(Running, c1, env);
      assert [] + Enter(Running, c1, env).2 == Enter(Running, c1, env).2;
    } else if s == Stopped {
      EnterRestarting(c1, env);
      assert [] + Enter(Restarting, c1, env).2 == Enter(Restarting, c1, env).2;
    }
  }

  /** `clearLogs` empties the logs and publishes once, in every state. */
  lemma ClearLogsKeepsState(s: State, ctx: Context, env: Env)
    ensures Step(s, ctx, ClearLogs, env) == Outcome(s, ctx.(logs := []), [Publish(ctx.subdomain)])
  {
    ExecAllOne(PublishLogs, ctx.(logs := []), env);
    assert [] + [Publish(ctx.subdomain)] == [Publish(ctx.subdomain)];
  }

  /** A reported log line is appended at the end and published, in every state. */
  lemma LogAppends(s: State, ctx: Context, message: string, logType: LogType, env: Env)
    ensures var r := Step(s, ctx, Log(message, logType), env);
      && r.state == s
      && r.ctx.logs == ctx.logs + [LogEntry(env.now, env.logId, message, logType)]
      && r.ctx == ctx.(logs := r.ctx.logs)
      && r.effects == [Publish(ctx.subdomain)]
  {
    var c1 := ctx.(logs := ctx.logs + [LogEntry(env.now, env.logId, message, logType)]);
    ExecAllOne(PublishLogs, c1, env);
    assert [] + [Publish(ctx.subdomain)] == [Publish(ctx.subdomain)];
  }

  /** A saved error is appended verbatim; logs are untouched and nothing is published. */
  lemma SaveErrorAppends(s: State, ctx: Context, error: AppError, env: Env)
    ensures Step(s, ctx, SaveError(error), env) == Outcome(s, ctx.(errors := ctx.errors + [error]), [])
  {
    ExecAllOne(AppendError(error), ctx, env);
  }

  /** `started` is only handled while spawning: the port is recorded, "Server
      started" logged and published, and the machine is Running. Elsewhere it
      reaches the wildcard and only produces a diagnostic. */
  lemma StartedOnlyWhileSpawning(s: State, ctx: Context, port: int, env: Env)
    ensures var r := Step(s, ctx, Started(port), env);
      if s == SpawningRuntime then
        r == Outcome(Running,
                     ctx.(port := Some(port), logs := ctx.logs + [LogEntry(env.now, env.logId, "Server started", Normal)]),
                     [Publish(ctx.subdomain)])
      else
        r == Outcome(s, ctx, [Unhandled(Started(port))])
  {
    if s == SpawningRuntime {
      var c1 := ctx.(port := Some(port));
      var c2 := c1.(logs := c1.logs + [LogEntry(env.now, env.logId, "Server started", Normal)]);
      var acts := Then(AssignPort(port), Then(AppendLog("Server started", Normal), Then(PublishLogs, Done)));
      assert Select(s, Started(port)) == Some(Transition(Some(Running), acts));
      assert ExecAll(Then(PublishLogs, Done), c2, env) == (c2, [Publish(ctx.subdomain)] + []);
      assert ExecAll(acts, ctx, env) == (c2, [] + ([] + ([Publish(ctx.subdomain)] + [])));
      StepTaking(s, ctx, Started(port), env, Running, acts);
      EnterWithoutEntryActions(Running, c2, env);
      assert [] + ([] + ([Publish(ctx.subdomain)] + [])) + [] == [Publish(ctx.subdomain)];
    } else {
      ExecAllOne(LogUnhandled(Started(port)), ctx, env);
    }
  }

  /** The idle timer moves Running to PendingShutdown and changes nothing else. */
  lemma IdleTimeoutInRunning(ctx: Context, env: Env)
    ensures Step(Running, ctx, IdleTimeout, env) == Outcome(PendingShutdown, ctx, [])
  {
    EnterWithoutEntryActions(PendingShutdown, ctx, env);
    assert [] + Enter(PendingShutdown, ctx, env).2 == Enter(PendingShutdown, ctx, env).2;
  }

  /** The shutdown timer stops the child and lands in Stopped with port,
      retry count and child handle cleared. */
  lemma ShutdownTimeoutInPendingShutdown(ctx: Context, env: Env)
    ensures Step(PendingShutdown, ctx, ShutdownTimeout, env) ==
      Outcome(Stopped, ctx.(port := None, retryCount := 0, child := None), [StopChild(ctx.child)])
  {
    ExecAllOne(StopRuntime, ctx, env);
    EnterStopped(ctx, env);
    assert [StopChild(ctx.child)] + [] == [StopChild(ctx.child)];
  }

  /** A timer event in any state other than the one that armed it changes nothing. */
  lemma StaleTimerIsNoOp(s: State, ctx: Context, e: Event, env: Env)
    requires e == IdleTimeout || e == ShutdownTimeout
    requires e == IdleTimeout ==> s != Running
    requires e == ShutdownTimeout ==> s != PendingShutdown
    ensures Step(s, ctx, e, env) == Outcome(s, ctx, [])
  {
  }

  /** `exited` lands in Stopped from every state, without stopping anything. */
  lemma ExitedStops(s: State, ctx: Context, env: Env)
    ensures Step(s, ctx, Exited, env) == Outcome(Stopped, ctx.(port := None, retryCount := 0, child := None), [])
  {
    EnterStopped(ctx, env);
    assert [] + Enter(Stopped, ctx, env).2 == Enter(Stopped, ctx, env).2;
  }

  /** After a step from a resting state the machine rests again, and its tag is
      `loading` exactly when it is spawning, `ready` exactly when it is Running
      or PendingShutdown. */
  lemma TagsAfterStep(s: State, ctx: Context, e: Event, env: Env)
    requires !Transient(s)
    ensures var r := Step(s, ctx, e, env);
      && r.state != MaybeRetrying && r.state != Restarting
      && (TagOf(r.state) == Loading <==> r.state == SpawningRuntime)
      && (TagOf(r.state) == Ready <==> r.state == Running || r.state == PendingShutdown)
      && (TagOf(r.state) == StoppedTag <==> r.state == Stopped)
      && (TagOf(r.state) == ErrorTag <==> r.state == Error)
  {
  }

  // The step as one flat table, event by event.

  /** What a step does, written per event without handlers, entry actions or
      eventless transitions. */
  function Expected(s: State, ctx: Context, e: Event, env: Env): Outcome
  {
    match e
    case ClearLogs => Outcome(s, ctx.(logs := []), [Publish(ctx.subdomain)])
    case Restart => Restarted(ctx, env)
    case SaveError(error) => Outcome(s, ctx.(errors := ctx.errors + [error]), [])
    case UpdateHeartbeat(t) =>
      if s == PendingShutdown then Outcome(Running, ctx.(lastHeartbeat := t), [])
      else if s == Stopped then Restarted(ctx.(lastHeartbeat := t), env)
      else Outcome(s, ctx.(lastHeartbeat := t), [])
    case Started(port) =>
      if s == SpawningRuntime then
        Outcome(Running,
                ctx.(port := Some(port), logs := ctx.logs + [LogEntry(env.now, env.logId, "Server started", Normal)]),
                [Publish(ctx.subdomain)])
      else Outcome(s, ctx, [Unhandled(e)])
    case Log(message, logType) =>
      Outcome(s, ctx.(logs := ctx.logs + [LogEntry(env.now, env.logId, message, logType)]), [Publish(ctx.subdomain)])
    case Exited => Outcome(Stopped, ctx.(port := None, retryCount := 0, child := None), [])
    case Failed(k, v) =>
      var recorded := ctx.(errors := ctx.errors + [AppError(env.now, RuntimeErrorMessage(v), RuntimeError)]);
      if !Retryable(k) then Outcome(Error, recorded, [])
      else
        var bumped := recorded.(retryCount := ctx.retryCount + 1);
        if bumped.retryCount < MAX_RETRIES then
          Outcome(SpawningRuntime, bumped.(child := Some(env.freshChild)), [Spawn(env.freshChild, bumped.retryCount)])
        else Outcome(Error, bumped, [HitMaxRetries])
    case IdleTimeout =>
      if s == Running then Outcome(PendingShutdown, ctx, []) else Outcome(s, ctx, [])
    case ShutdownTimeout =>
      if s == PendingShutdown then
        Outcome(Stopped, ctx.(port := None, retryCount := 0, child := None), [StopChild(ctx.child)])
      else Outcome(s, ctx, [])
  }

  /** The interpreter of the machine declaration and the flat table agree on
      every state, context, event and environment. */
  lemma StepClosedForm(s: State, ctx: Context, e: Event, env: Env)
    ensures Step(s, ctx, e, env) == Expected(s, ctx, e, env)
  {
    match e
    case ClearLogs => ClearLogsKeepsState(s, ctx, env);
    case Restart => RestartFromAnyState(s, ctx, env);
    case SaveError(error) => SaveErrorAppends(s, ctx, error, env);
    case UpdateHeartbeat(t) => Heartbeat(s, ctx, t, env);
    case Started(port) => StartedOnlyWhileSpawning(s, ctx, port, env);
    case Log(message, logType) => LogAppends(s, ctx, message, logType, env);
    case Exited => ExitedStops(s, ctx, env);
    case Failed(k, v) =>
      if Retryable(k) {
        RetryableFailure(s, ctx, k, v, env);
      } else {
        NonRetryableFailure(s, ctx, k, v, env);
      }
    case IdleTimeout =>
      if s == Running {
        IdleTimeoutInRunning(ctx, env);
      } else {
        StaleTimerIsNoOp(s, ctx, e, env);
      }
    case ShutdownTimeout =>
      if s == PendingShutdown {
        ShutdownTimeoutInPendingShutdown(ctx, env);
      } else {
        StaleTimerIsNoOp(s, ctx, e, env);
      }
  }
}
