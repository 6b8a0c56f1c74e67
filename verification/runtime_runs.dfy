/** Runs of the runtime supervisor: event sequences delivered one step at a
    time, the invariant every reachable resting configuration keeps, and the
    retry and idle-shutdown behaviour over several steps. */
module RuntimeRuns {
  import opened RuntimeTypes
  import opened RuntimeMachine
  import opened RuntimeProperties

  /** One delivered event together with the outside-world values its step reads. */
  datatype Stimulus = Stimulus(event: Event, env: Env)

  /** Delivers the stimuli in order; the effects of all steps are concatenated. */
  function Run(s: State, ctx: Context, xs: seq<Stimulus>): Outcome
    decreases |xs|, 0
  {
    if xs == [] then Outcome(s, ctx, [])
    else Continue(Step(s, ctx, xs[0].event, xs[0].env), xs[1..])
  }

  /** Delivers the remaining stimuli after a step, keeping the step's effects in front. */
  function Continue(first: Outcome, xs: seq<Stimulus>): Outcome
    decreases |xs|, 1
  {
    var rest := Run(first.state, first.ctx, xs);
    Outcome(rest.state, rest.ctx, first.effects + rest.effects)
  }

  lemma RunNil(s: State, ctx: Context)
    ensures Run(s, ctx, []) == Outcome(s, ctx, [])
  {
  }

  lemma RunCons(s: State, ctx: Context, xs: seq<Stimulus>)
    requires xs != []
    ensures var first := Step(s, ctx, xs[0].event, xs[0].env);
      var rest := Run(first.state, first.ctx, xs[1..]);
      Run(s, ctx, xs) == Outcome(rest.state, rest.ctx, first.effects + rest.effects)
  {
  }

  /** The attempt numbers of the spawns among some effects, in order. */
  function Attempts(fx: seq<Effect>): seq<nat>
    decreases |fx|
  {
    if fx == [] then []
    else (if fx[0].Spawn? then [fx[0].attempt] else []) + Attempts(fx[1..])
  }

  /** The numbers lo, lo + 1, ..., hi - 1. */
  function Count(lo: nat, hi: nat): (r: seq<nat>)
    ensures |r| == if lo <= hi then hi - lo else 0
    ensures forall i :: 0 <= i < |r| ==> r[i] == lo + i
    decreases hi - lo
  {
    if lo < hi then [lo] + Count(lo + 1, hi) else []
  }

  /** What holds in every configuration the machine rests in:
      - it is never one of the transient states;
      - Stopped has no port, no retries and no child;
      - while spawning or ready a child is owned and fewer than MAX_RETRIES
        retries have been used;
      - while ready the port is known. */
  ghost predicate Invariant(s: State, ctx: Context)
  {
    && !Transient(s)
    && (s == Stopped ==> ctx.port.None? && ctx.retryCount == 0 && ctx.child.None?)
    && (s == SpawningRuntime || s == Running || s == PendingShutdown ==>
          ctx.retryCount < MAX_RETRIES && ctx.child.Some?)
    && (s == Running || s == PendingShutdown ==> ctx.port.Some?)
  }

  lemma InitialInvariant(subdomain: string, env: Env)
    ensures Invariant(Initial(subdomain, env).state, Initial(subdomain, env).ctx)
  {
  }

  lemma StepPreservesInvariant(s: State, ctx: Context, e: Event, env: Env)
    requires Invariant(s, ctx)
    ensures var r := Step(s, ctx, e, env); Invariant(r.state, r.ctx)
  {
    StepClosedForm(s, ctx, e, env);
  }

  /** Every configuration reached from one that keeps the invariant keeps it too. */
  lemma {:induction false} RunPreservesInvariant(s: State, ctx: Context, xs: seq<Stimulus>)
    requires Invariant(s, ctx)
    ensures var r := Run(s, ctx, xs); Invariant(r.state, r.ctx)
    decreases |xs|
  {
    if xs != [] {
      var first := Step(s, ctx, xs[0].event, xs[0].env);
      StepPreservesInvariant(s, ctx, xs[0].event, xs[0].env);
      RunPreservesInvariant(first.state, first.ctx, xs[1..]);
    }
  }

  /** A step spawns at most once, and only on its way into SpawningRuntime; the
      spawn carries the retry count the machine holds on entry, which is then
      below MAX_RETRIES. */
  lemma StepSpawnAttempt(s: State, ctx: Context, e: Event, env: Env)
    ensures var r := Step(s, ctx, e, env);
      && (forall i, j :: 0 <= i < j < |r.effects| ==> !(r.effects[i].Spawn? && r.effects[j].Spawn?))
      && forall f :: f in r.effects && f.Spawn? ==>
           && r.state == SpawningRuntime
           && f.attempt == r.ctx.retryCount < MAX_RETRIES
           && r.ctx.child == Some(f.child)
  {
    StepClosedForm(s, ctx, e, env);
    ExpectedSpawnAttempt(s, ctx, e, env);
  }

  /** The same, read off the flat table. */
  lemma ExpectedSpawnAttempt(s: State, ctx: Context, e: Event, env: Env)
    ensures var r := Expected(s, ctx, e, env);
      && (forall i, j :: 0 <= i < j < |r.effects| ==> !(r.effects[i].Spawn? && r.effects[j].Spawn?))
      && forall f :: f in r.effects && f.Spawn? ==>
           && r.state == SpawningRuntime
           && f.attempt == r.ctx.retryCount < MAX_RETRIES
           && r.ctx.child == Some(f.child)
  {
  }

  /** Running two sequences one after the other is running their concatenation. */
  lemma {:induction false} RunAppend(s: State, ctx: Context, a: seq<Stimulus>, b: seq<Stimulus>)
    ensures var r1 := Run(s, ctx, a);
      var r2 := Run(r1.state, r1.ctx, b);
      Run(s, ctx, a + b) == Outcome(r2.state, r2.ctx, r1.effects + r2.effects)
    decreases |a|
  {
    if a == [] {
      assert a + b == b;
      assert [] + Run(s, ctx, b).effects == Run(s, ctx, b).effects;
    } else {
      var first := Step(s, ctx, a[0].event, a[0].env);
      assert (a + b)[0] == a[0];
      assert (a + b)[1..] == a[1..] + b;
      RunAppend(first.state, first.ctx, a[1..], b);
      var r1 := Run(first.state, first.ctx, a[1..]);
      var r2 := Run(r1.state, r1.ctx, b);
      assert first.effects + (r1.effects + r2.effects) == (first.effects + r1.effects) + r2.effects;
    }
  }

  /** No run, from any configuration, ever spawns with an attempt number of
      MAX_RETRIES or more. */
  lemma {:induction false} RunSpawnsBounded(s: State, ctx: Context, xs: seq<Stimulus>)
    ensures forall f :: f in Run(s, ctx, xs).effects && f.Spawn? ==> f.attempt < MAX_RETRIES
    decreases |xs|
  {
    if xs != [] {
      var first := Step(s, ctx, xs[0].event, xs[0].env);
      StepSpawnAttempt(s, ctx, xs[0].event, xs[0].env);
      RunSpawnsBounded(first.state, first.ctx, xs[1..]);
    }
  }

  /** Every stimulus reports a retryable spawn failure (port taken or timeout). */
  predicate AllRetryable(xs: seq<Stimulus>)
    decreases |xs|
  {
    xs == [] || (xs[0].event.Failed? && Retryable(xs[0].event.kind) && AllRetryable(xs[1..]))
  }

  /** The runtime errors such failures record, in order. */
  function RecordedErrors(xs: seq<Stimulus>): seq<AppError>
    requires AllRetryable(xs)
    decreases |xs|
  {
    if xs == [] then []
    else [AppError(xs[0].env.now, RuntimeErrorMessage(xs[0].event.value), RuntimeError)] + RecordedErrors(xs[1..])
  }

  function Min(a: nat, b: nat): nat
  {
    if a < b then a else b
  }

  /** The first of a run of retryable failures, taken while spawning. */
  lemma RunRetryableCons(ctx: Context, xs: seq<Stimulus>)
    requires xs != [] && AllRetryable(xs)
    ensures var e := xs[0].event;
      var env := xs[0].env;
      var c1 := ctx.(errors := ctx.errors + [AppError(env.now, RuntimeErrorMessage(e.value), RuntimeError)],
                     retryCount := ctx.retryCount + 1);
      if c1.retryCount < MAX_RETRIES then
        var rest := Run(SpawningRuntime, c1.(child := Some(env.freshChild)), xs[1..]);
        Run(SpawningRuntime, ctx, xs) == Outcome(rest.state, rest.ctx, [Spawn(env.freshChild, c1.retryCount)] + rest.effects)
      else
        var rest := Run(Error, c1, xs[1..]);
        Run(SpawningRuntime, ctx, xs) == Outcome(rest.state, rest.ctx, [HitMaxRetries] + rest.effects)
  {
    assert xs[0].event.Failed? && Retryable(xs[0].event.kind);
    RunCons(SpawningRuntime, ctx, xs);
    RetryableFailure(SpawningRuntime, ctx, xs[0].event.kind, xs[0].event.value, xs[0].env);
  }

  lemma AppendAssociative<T>(a: seq<T>, b: seq<T>, c: seq<T>)
    ensures a + b + c == a + (b + c)
  {
  }

  /** One recorded error per failure, each of type `runtime`. */
  lemma {:induction false} RecordedErrorsShape(xs: seq<Stimulus>)
    requires AllRetryable(xs)
    ensures |RecordedErrors(xs)| == |xs|
    ensures forall i :: 0 <= i < |xs| ==> RecordedErrors(xs)[i].errorType == RuntimeError
    decreases |xs|
  {
    if xs != [] {
      RecordedErrorsShape(xs[1..]);
    }
  }

  lemma AttemptsSpawnCons(child: ChildRef, attempt: nat, rest: seq<Effect>)
    ensures Attempts([Spawn(child, attempt)] + rest) == [attempt] + Attempts(rest)
  {
    assert ([Spawn(child, attempt)] + rest)[1..] == rest;
  }

  lemma AttemptsMaxRetries()
    ensures Attempts([HitMaxRetries]) == []
  {
  }

  lemma CountCons(lo: nat, hi: nat)
    requires lo < hi
    ensures Count(lo, hi) == [lo] + Count(lo + 1, hi)
  {
  }

  /** The retry bound, for the state and the count. Starting to spawn with k
      retries used, n consecutive retryable failures (k + n <= MAX_RETRIES)
      leave k + n retries used; the machine is spawning again while
      k + n < MAX_RETRIES and is in Error once k + n reaches it. */
  lemma {:induction false} RetryCountAfterFailures(ctx: Context, xs: seq<Stimulus>)
    requires ctx.retryCount + |xs| <= MAX_RETRIES
    requires ctx.retryCount < MAX_RETRIES
    requires AllRetryable(xs)
    ensures var r := Run(SpawningRuntime, ctx, xs);
      && r.state == (if ctx.retryCount + |xs| < MAX_RETRIES then SpawningRuntime else Error)
      && r.ctx.retryCount == ctx.retryCount + |xs|
    decreases |xs|
  {
    if xs != [] {
      var env := xs[0].env;
      var c1 := ctx.(errors := ctx.errors + [AppError(env.now, RuntimeErrorMessage(xs[0].event.value), RuntimeError)],
                     retryCount := ctx.retryCount + 1);
      RunRetryableCons(ctx, xs);
      if c1.retryCount < MAX_RETRIES {
        RetryCountAfterFailures(c1.(child := Some(env.freshChild)), xs[1..]);
      } else {
        assert xs[1..] == [];
        RunNil(Error, c1);
      }
    }
  }

  /** The same failures record one runtime error each, in order, and leave
      logs and port as they were. */
  lemma {:induction false} ErrorsAfterFailures(ctx: Context, xs: seq<Stimulus>)
    requires ctx.retryCount + |xs| <= MAX_RETRIES
    requires ctx.retryCount < MAX_RETRIES
    requires AllRetryable(xs)
    ensures var r := Run(SpawningRuntime, ctx, xs);
      && r.ctx.errors == ctx.errors + RecordedErrors(xs)
      && r.ctx.logs == ctx.logs
      && r.ctx.port == ctx.port
    decreases |xs|
  {
    if xs == [] {
      assert ctx.errors + [] == ctx.errors;
    } else {
      var env := xs[0].env;
      var entry := AppError(env.now, RuntimeErrorMessage(xs[0].event.value), RuntimeError);
      var c1 := ctx.(errors := ctx.errors + [entry], retryCount := ctx.retryCount + 1);
      RunRetryableCons(ctx, xs);
      assert RecordedErrors(xs) == [entry] + RecordedErrors(xs[1..]);
      AppendAssociative(ctx.errors, [entry], RecordedErrors(xs[1..]));
      if c1.retryCount < MAX_RETRIES {
        ErrorsAfterFailures(c1.(child := Some(env.freshChild)), xs[1..]);
      } else {
        assert xs[1..] == [];
        RunNil(Error, c1);
        assert RecordedErrors(xs[1..]) == [];
      }
    }
  }

  /** The effects of n retryable failures taken while spawning with k retries
      used: one spawn per failure, with attempts k + 1, k + 2, ..., until the
      count reaches MAX_RETRIES, where "Hit max retries" is logged instead. */
  function RetryEffects(k: nat, xs: seq<Stimulus>): seq<Effect>
    requires k + |xs| <= MAX_RETRIES
    decreases |xs|
  {
    if xs == [] then []
    else if k + 1 < MAX_RETRIES then [Spawn(xs[0].env.freshChild, k + 1)] + RetryEffects(k + 1, xs[1..])
    else [HitMaxRetries]
  }

  /** The same failures produce exactly those effects. */
  lemma {:induction false} EffectsAfterFailures(ctx: Context, xs: seq<Stimulus>)
    requires ctx.retryCount + |xs| <= MAX_RETRIES
    requires ctx.retryCount < MAX_RETRIES
    requires AllRetryable(xs)
    ensures Run(SpawningRuntime, ctx, xs).effects == RetryEffects(ctx.retryCount, xs)
    decreases |xs|
  {
    if xs != [] {
      var env := xs[0].env;
      var c1 := ctx.(errors := ctx.errors + [AppError(env.now, RuntimeErrorMessage(xs[0].event.value), RuntimeError)],
                     retryCount := ctx.retryCount + 1);
      RunRetryableCons(ctx, xs);
      if c1.retryCount < MAX_RETRIES {
        var c1' := c1.(child := Some(env.freshChild));
        EffectsAfterFailures(c1', xs[1..]);
        var spawn := Spawn(env.freshChild, c1.retryCount);
        assert RetryEffects(ctx.retryCount, xs) == [spawn] + RetryEffects(c1.retryCount, xs[1..]);
        assert Run(SpawningRuntime, ctx, xs).effects == [spawn] + Run(SpawningRuntime, c1', xs[1..]).effects;
      } else {
        assert xs[1..] == [];
        RunNil(Error, c1);
        assert [HitMaxRetries] + [] == [HitMaxRetries];
      }
    }
  }

  lemma {:induction false} RetryEffectsAttempts(k: nat, xs: seq<Stimulus>)
    requires k + |xs| <= MAX_RETRIES
    ensures Attempts(RetryEffects(k, xs)) == Count(k + 1, Min(k + |xs| + 1, MAX_RETRIES))
    decreases |xs|
  {
    if xs != [] {
      if k + 1 < MAX_RETRIES {
        RetryEffectsAttempts(k + 1, xs[1..]);
        AttemptsSpawnCons(xs[0].env.freshChild, k + 1, RetryEffects(k + 1, xs[1..]));
        CountCons(k + 1, Min(k + |xs| + 1, MAX_RETRIES));
      } else {
        AttemptsMaxRetries();
      }
    }
  }

  /** The same failures spawn attempts k + 1, k + 2, ... up to but excluding
      MAX_RETRIES, and nothing else. */
  lemma AttemptsAfterFailures(ctx: Context, xs: seq<Stimulus>)
    requires ctx.retryCount + |xs| <= MAX_RETRIES
    requires ctx.retryCount < MAX_RETRIES
    requires AllRetryable(xs)
    ensures Attempts(Run(SpawningRuntime, ctx, xs).effects)
         == Count(ctx.retryCount + 1, Min(ctx.retryCount + |xs| + 1, MAX_RETRIES))
  {
    EffectsAfterFailures(ctx, xs);
    RetryEffectsAttempts(ctx.retryCount, xs);
  }

  /** Fewer than MAX_RETRIES retryable failures followed by a start report
      reach Running, with the retry count equal to the failures seen. */
  lemma FailuresThenStarted(ctx: Context, xs: seq<Stimulus>, port: int, env: Env)
    requires ctx.retryCount + |xs| < MAX_RETRIES
    requires AllRetryable(xs)
    ensures var r := Run(SpawningRuntime, ctx, xs + [Stimulus(Started(port), env)]);
      && r.state == Running
      && r.ctx.retryCount == ctx.retryCount + |xs|
      && r.ctx.port == Some(port)
      && r.ctx.errors == ctx.errors + RecordedErrors(xs)
  {
    RetryCountAfterFailures(ctx, xs);
    ErrorsAfterFailures(ctx, xs);
    var mid := Run(SpawningRuntime, ctx, xs);
    RunAppend(SpawningRuntime, ctx, xs, [Stimulus(Started(port), env)]);
    StartedOnlyWhileSpawning(SpawningRuntime, mid.ctx, port, env);
    var last := [Stimulus(Started(port), env)];
    var st := Step(SpawningRuntime, mid.ctx, Started(port), env);
    RunCons(SpawningRuntime, mid.ctx, last);
    assert last[1..] == [];
    RunNil(st.state, st.ctx);
  }

  /** A fresh machine hit by MAX_RETRIES retryable failures in a row ends in
      Error with retryCount == 3 and three runtime errors, having spawned
      exactly three times, with attempts 0, 1 and 2. */
  lemma ThreeRetryableFailuresEndInError(subdomain: string, env: Env, xs: seq<Stimulus>)
    requires |xs| == MAX_RETRIES
    requires AllRetryable(xs)
    ensures var init := Initial(subdomain, env);
      var r := Run(init.state, init.ctx, xs);
      && r.state == Error
      && r.ctx.retryCount == 3
      && |r.ctx.errors| == 3
      && (forall i :: 0 <= i < 3 ==> r.ctx.errors[i].errorType == RuntimeError)
      && Attempts(init.effects + r.effects) == [0, 1, 2]
  {
    var init := Initial(subdomain, env);
    var c0 := Context(subdomain, [], env.now, [], None, 0, Some(env.freshChild));
    assert init == Outcome(SpawningRuntime, c0, [Spawn(env.freshChild, 0)]);
    var r := Run(SpawningRuntime, c0, xs);
    RetryCountAfterFailures(c0, xs);
    ErrorsAfterFailures(c0, xs);
    AttemptsAfterFailures(c0, xs);
    RecordedErrorsShape(xs);
    assert r.ctx.errors == RecordedErrors(xs);
    AttemptsSpawnCons(env.freshChild, 0, r.effects);
    CountCons(1, 3);
    CountCons(2, 3);
  }

  /** A fresh machine that reports started and then sees the idle timer and
      the shutdown timer fire ends Stopped without a port, having stopped the
      child it spawned first. */
  lemma IdleShutdownScenario(subdomain: string, env: Env, port: int, e1: Env, e2: Env, e3: Env)
    ensures var init := Initial(subdomain, env);
      var r := Run(init.state, init.ctx,
                   [Stimulus(Started(port), e1), Stimulus(IdleTimeout, e2), Stimulus(ShutdownTimeout, e3)]);
      && r.state == Stopped
      && r.ctx.port == None
      && r.ctx.child == None
      && r.effects == [Publish(subdomain), StopChild(Some(env.freshChild))]
  {
    var init := Initial(subdomain, env);
    var xs := [Stimulus(Started(port), e1), Stimulus(IdleTimeout, e2), Stimulus(ShutdownTimeout, e3)];
    StartedOnlyWhileSpawning(init.state, init.ctx, port, e1);
    var c1 := init.ctx.(port := Some(port), logs := init.ctx.logs + [LogEntry(e1.now, e1.logId, "Server started", Normal)]);
    IdleTimeoutInRunning(c1, e2);
    ShutdownTimeoutInPendingShutdown(c1, e3);
    var c3 := c1.(port := None, retryCount := 0, child := None);
    RunCons(init.state, init.ctx, xs);
    assert xs[1..] == [Stimulus(IdleTimeout, e2), Stimulus(ShutdownTimeout, e3)];
    RunCons(Running, c1, xs[1..]);
    assert xs[1..][1..] == [Stimulus(ShutdownTimeout, e3)];
    RunCons(PendingShutdown, c1, xs[1..][1..]);
    assert xs[1..][1..][1..] == [];
    RunNil(Stopped, c3);
    assert [Publish(subdomain)] + ([] + ([StopChild(Some(env.freshChild))] + []))
        == [Publish(subdomain), StopChild(Some(env.freshChild))];
  }

  /** A heartbeat in PendingShutdown cancels the shutdown timer: a shutdown
      timeout right after it changes nothing, and the machine stays Running. */
  lemma HeartbeatCancelsShutdown(ctx: Context, t: Timestamp, e1: Env, e2: Env)
    ensures Run(PendingShutdown, ctx, [Stimulus(UpdateHeartbeat(t), e1), Stimulus(ShutdownTimeout, e2)])
         == Outcome(Running, ctx.(lastHeartbeat := t), [])
  {
    var xs := [Stimulus(UpdateHeartbeat(t), e1), Stimulus(ShutdownTimeout, e2)];
    Heartbeat(PendingShutdown, ctx, t, e1);
    StaleTimerIsNoOp(Running, ctx.(lastHeartbeat := t), ShutdownTimeout, e2);
    RunCons(PendingShutdown, ctx, xs);
    assert xs[1..] == [Stimulus(ShutdownTimeout, e2)];
    RunCons(Running, ctx.(lastHeartbeat := t), xs[1..]);
    assert xs[1..][1..] == [];
    RunNil(Running, ctx.(lastHeartbeat := t));
  }

  /** A fresh machine that reports started, logs a line, then reports the port
      taken is spawning again, still holding the port it was given, with one
      runtime error recorded and the first child never stopped. */
  lemma StartedThenPortTaken(subdomain: string, env: Env, v: RunErrorValue, e1: Env, e2: Env, e3: Env)
    ensures var init := Initial(subdomain, env);
      var r := Run(init.state, init.ctx,
                   [Stimulus(Started(3000), e1), Stimulus(Log("hi", Normal), e2), Stimulus(Failed(PortTaken, v), e3)]);
      && r.state == SpawningRuntime
      && r.ctx.port == Some(3000)
      && r.ctx.retryCount == 1
      && |r.ctx.errors| == 1
      && r.effects == [Publish(subdomain), Publish(subdomain), Spawn(e3.freshChild, 1)]
  {
    var init := Initial(subdomain, env);
    var xs := [Stimulus(Started(3000), e1), Stimulus(Log("hi", Normal), e2), Stimulus(Failed(PortTaken, v), e3)];
    StartedOnlyWhileSpawning(init.state, init.ctx, 3000, e1);
    var c1 := init.ctx.(port := Some(3000), logs := init.ctx.logs + [LogEntry(e1.now, e1.logId, "Server started", Normal)]);
    LogAppends(Running, c1, "hi", Normal, e2);
    var c2 := Step(Running, c1, Log("hi", Normal), e2).ctx;
    RetryableFailure(Running, c2, PortTaken, v, e3);
    var r3 := Step(Running, c2, Failed(PortTaken, v), e3);
    RunCons(init.state, init.ctx, xs);
    assert xs[1..] == [Stimulus(Log("hi", Normal), e2), Stimulus(Failed(PortTaken, v), e3)];
    RunCons(Running, c1, xs[1..]);
    assert xs[1..][1..] == [Stimulus(Failed(PortTaken, v), e3)];
    RunCons(Running, c2, xs[1..][1..]);
    assert xs[1..][1..][1..] == [];
    RunNil(r3.state, r3.ctx);
    assert [Publish(subdomain)] + ([Publish(subdomain)] + ([Spawn(e3.freshChild, 1)] + []))
        == [Publish(subdomain), Publish(subdomain), Spawn(e3.freshChild, 1)];
  }

  /** Error is not final: a fresh machine that reports a non-retryable failure
      is in Error, and a retryable failure reported after it brings the
      machine back to spawning, as attempt 1. */
  lemma ErrorIsNotTerminal(subdomain: string, env: Env, k1: FailureKind, v1: RunErrorValue, e1: Env,
                           k2: FailureKind, v2: RunErrorValue, e2: Env)
    requires !Retryable(k1) && Retryable(k2)
    ensures var init := Initial(subdomain, env);
      var xs := [Stimulus(Failed(k1, v1), e1), Stimulus(Failed(k2, v2), e2)];
      && Step(init.state, init.ctx, Failed(k1, v1), e1).state == Error
      && var r := Run(init.state, init.ctx, xs);
      && r.state == SpawningRuntime
      && r.ctx.retryCount == 1
      && |r.ctx.errors| == 2
      && r.ctx.child == Some(e2.freshChild)
      && r.effects == [Spawn(e2.freshChild, 1)]
  {
    var init := Initial(subdomain, env);
    var xs := [Stimulus(Failed(k1, v1), e1), Stimulus(Failed(k2, v2), e2)];
    NonRetryableFailure(init.state, init.ctx, k1, v1, e1);
    var c1 := init.ctx.(errors := init.ctx.errors + [AppError(e1.now, RuntimeErrorMessage(v1), RuntimeError)]);
    RetryableFailure(Error, c1, k2, v2, e2);
    var r2 := Step(Error, c1, Failed(k2, v2), e2);
    RunCons(init.state, init.ctx, xs);
    assert xs[1..] == [Stimulus(Failed(k2, v2), e2)];
    RunCons(Error, c1, xs[1..]);
    assert xs[1..][1..] == [];
    RunNil(r2.state, r2.ctx);
    assert [] + ([Spawn(e2.freshChild, 1)] + []) == [Spawn(e2.freshChild, 1)];
  }
}
