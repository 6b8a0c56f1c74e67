# Runtime supervisor model

A Dafny model of the workspace's runtime supervisor, `runtimeMachine` in
`packages/workspace/src/machines/runtime.ts`. One supervisor runs per app:
it spawns a dev-server child and waits for its `started` report. It records
and classifies spawn failures. Port-taken and timeout are retried, with at
most `MAX_RETRIES` = 3 attempts in all, that is 2 retries, because the
failure is counted before the count is compared with the limit. The other
failures go straight to `Error`. The supervisor moves to `PendingShutdown` 30 s
after entering `Running` (a heartbeat in `Running` does not reset that
timer), stops the child 5 s later unless a heartbeat arrives in that window,
and restarts on demand. Along the way
it keeps `logs` and `errors` and publishes a
`runtime.log.updated` notification.

The model is a pure step function
`Step(state, context, event, env) -> Outcome(state, context, effects)`:

- `runtime_types.dfy` (`RuntimeTypes`): the data model. It holds the
  log-entry and error records, the `RunErrorValue` of spawn failures, the
  events, the seven states and their tags, and the context. It also holds the
  effects a step asks the driver to perform:
  - spawn a child with an attempt number;
  - stop a child;
  - publish;
  - report an unhandled event;
  - log "Hit max retries".
- `runtime_machine.dfy` (`RuntimeMachine`): the machine declaration as data,
  with its state-local handlers, root handlers, root wildcard, entry actions
  and eventless transitions. It also has the interpreter that applies the
  state-machine library's dispatch rules:
  - a state's own handlers come before the root handlers, which come before
    the wildcard;
  - a targeted transition runs its actions, then re-enters the target (a root
    target is re-entered even when it is the current state);
  - the transient states `MaybeRetrying` and `Restarting` are left through
    their eventless transitions within the same step;
  - the actions run in order, and each one sees the context the previous one
    left.
- `runtime_properties.dfy` (`RuntimeProperties`): for each event, the whole
  outcome of one step, in every state the event can meet. The outcomes are
  collected into a flat table, `Expected`, that `Step` is proved to agree
  with.
- `runtime_runs.dfy` (`RuntimeRuns`): runs over event sequences. It proves
  the invariant every resting configuration keeps, the retry bound, the
  attempt numbers of spawns, and the idle-shutdown, heartbeat, port-taken
  and leaving-`Error` scenarios.

The 30 s idle timer and the 5 s shutdown timer are the events `IdleTimeout`
and `ShutdownTimeout`. The library cancels a delayed event when the state
that armed it is exited. So such an event only takes effect in `Running` or
`PendingShutdown` respectively, and anywhere else it changes nothing. The
outside-world values a step reads are the parameter `env`:
- the clock (`new Date()`, `Date.now()`);
- the `ulid()` id;
- the reference returned by `spawn`.

A step appends at most one log entry and spawns at most once, so one `env`
per step is enough.

## Model

| member | source | states |
|---|---|---|
| RuntimeMachine.RuntimeErrorMessage | packages/workspace/src/machines/runtime.ts:68-79 | the recorded message ends with the reported message; it is exactly that message when the command is missing or empty, and otherwise `command + ": "` stands in front of it |
| RuntimeMachine.Always | packages/workspace/src/machines/runtime.ts:216-231 | only MaybeRetrying and Restarting have eventless transitions, and each leads to a resting state. Where each one leads is stated by `EnterMaybeRetrying` and `EnterRestarting` |
| RuntimeMachine.Exec | packages/workspace/src/machines/runtime.ts:52-86 | runs one action; no action changes the app the supervisor belongs to, and each asks for at most one effect. What each action does to the context is given by the `RuntimeProperties` lemmas |
| RuntimeMachine.LocalOn | packages/workspace/src/machines/runtime.ts:233-333 | the state-local `on` and `after` handlers; each has a target, and only `started`, the heartbeat and the two timers have one |
| RuntimeMachine.RootOn | packages/workspace/src/machines/runtime.ts:128-212 | the explicit root handlers cover every event except `started` and the two timers; only `restart`, `exited` and the six spawn failures have a target |
| RuntimeMachine.Wildcard | packages/workspace/src/machines/runtime.ts:129-137 | the root `"*"` handler, which only reports the event; it carries no contract, and `StartedOnlyWhileSpawning` gives its behaviour |
| RuntimeMachine.EntryActions | packages/workspace/src/machines/runtime.ts:216-324 | the entry actions of MaybeRetrying, SpawningRuntime and Stopped; no contract, and `EnterMaybeRetrying`, `EnterSpawningRuntime` and `EnterStopped` give their behaviour |
| RuntimeMachine.Select | packages/workspace/src/machines/runtime.ts:128-336 | the dispatch order: every delivered event is taken by some handler; a state's own handler overrides the root one; the wildcard is chosen exactly when neither the state nor the root handles the event; and only a state or root handler can change the state. `Heartbeat`, `StartedOnlyWhileSpawning` and `StepClosedForm` show the order on the machine's events |
| RuntimeMachine.ExecAll | packages/workspace/src/machines/runtime.ts:138-140 | runs a transition's actions in order; no contract, and `ExecAllConcat` and `ExecAllKeepsApp` give its behaviour |
| RuntimeProperties.ExecAllConcat | packages/workspace/src/machines/runtime.ts:138-140 | running two action lists in sequence equals running their concatenation: the second sees the context the first left (`publishLogs` sees the emptied logs) and its effects come after the first's |
| RuntimeProperties.ExecAllKeepsApp | packages/workspace/src/machines/runtime.ts:52-86 | no list of actions changes the app the supervisor belongs to, and each action adds at most one effect |
| RuntimeTypes.TagOf | packages/workspace/src/machines/runtime.ts:213-335 | the tag of each state; no contract, and `TagsAfterStep` gives the tags of the resting states a step can end in |
| RuntimeMachine.Delivered | packages/workspace/src/machines/runtime.ts:233-282 | a delayed event is delivered only in the state that armed it, because leaving the state cancels it; no contract, and `StaleTimerIsNoOp` and the timer lemmas give its behaviour |
| RuntimeMachine.Enter | packages/workspace/src/machines/runtime.ts:213-336 | entering any state, transient ones included, ends in a resting state |
| RuntimeMachine.Step | packages/workspace/src/machines/runtime.ts:128-212 | a step from a resting state ends in a resting state |
| RuntimeMachine.Initial | packages/workspace/src/machines/runtime.ts:115-127 | a new machine is SpawningRuntime with empty errors and logs, no port, retry count 0 and the fresh child, having spawned attempt 0 |
| RuntimeProperties.EnterSpawningRuntime | packages/workspace/src/machines/runtime.ts:284-295 | entering SpawningRuntime spawns one child whose attempt is the current retry count, and records its handle |
| RuntimeProperties.EnterStopped | packages/workspace/src/machines/runtime.ts:317-324 | entering Stopped clears port, retry count and child handle, with no effect |
| RuntimeProperties.EnterMaybeRetrying | packages/workspace/src/machines/runtime.ts:216-231 | entering MaybeRetrying bumps the retry count. Below MAX_RETRIES it then spawns with the bumped count as attempt. Otherwise it lands in Error with only the "Hit max retries" log |
| RuntimeProperties.EnterRestarting | packages/workspace/src/machines/runtime.ts:252-275 | restarting stops the old child first, resets errors, port, retry count and handle, leaves exactly one "Restarting server..." log, publishes, then spawns attempt 0 |
| RuntimeProperties.FailureEntersTarget | packages/workspace/src/machines/runtime.ts:147-188 | every spawn failure, in every state, first records its runtime error and then enters MaybeRetrying for port-taken and timeout, and Error for the other four kinds |
| RuntimeProperties.NonRetryableFailure | packages/workspace/src/machines/runtime.ts:147-160 | install-failed, package-json, unknown and unsupported-script append one runtime error and land in Error; nothing else changes and there is no effect |
| RuntimeProperties.RetryableFailure | packages/workspace/src/machines/runtime.ts:161-174 | port-taken and timeout append one runtime error and bump the retry count. Below MAX_RETRIES they spawn again with the bumped count. At or above it they land in Error with "Hit max retries". Port is kept and the old child is not stopped |
| RuntimeProperties.FailureClassification | packages/workspace/src/machines/runtime.ts:147-188 | each failure appends exactly one runtime error and leaves logs alone. It ends in SpawningRuntime or Error, and in SpawningRuntime iff it is retryable and the bumped count is below MAX_RETRIES |
| RuntimeProperties.RestartFromAnyState | packages/workspace/src/machines/runtime.ts:141 | `restart`, from every state, gives the restart outcome (stop old child, reset, one log entry, one publish, spawn attempt 0) |
| RuntimeProperties.Heartbeat | packages/workspace/src/machines/runtime.ts:206-333 | a heartbeat always records its timestamp. PendingShutdown goes back to Running. Stopped restarts and ends in SpawningRuntime, not in Running. Every other state is unchanged, with no effect |
| RuntimeProperties.ClearLogsKeepsState | packages/workspace/src/machines/runtime.ts:138-140 | `clearLogs` keeps the state, empties the logs, changes nothing else and publishes exactly once |
| RuntimeProperties.LogAppends | packages/workspace/src/machines/runtime.ts:190-205 | a reported log line keeps the state, adds exactly one entry at the end with the given message and type, changes nothing else and publishes exactly once |
| RuntimeProperties.SaveErrorAppends | packages/workspace/src/machines/runtime.ts:142-146 | `saveError` keeps the state and appends the error verbatim; logs are untouched and nothing is published |
| RuntimeProperties.StartedOnlyWhileSpawning | packages/workspace/src/machines/runtime.ts:296-313 | `started` in SpawningRuntime sets the port, appends "Server started", publishes and moves to Running. In any other state it only reports an unhandled event |
| RuntimeProperties.IdleTimeoutInRunning | packages/workspace/src/machines/runtime.ts:277-282 | the idle timer moves Running to PendingShutdown with the context unchanged |
| RuntimeProperties.ShutdownTimeoutInPendingShutdown | packages/workspace/src/machines/runtime.ts:233-239 | the shutdown timer stops the current child and lands in Stopped with port, retry count and handle cleared |
| RuntimeProperties.StaleTimerIsNoOp | packages/workspace/src/machines/runtime.ts:234-239 | a timer event outside the state that armed it changes nothing |
| RuntimeProperties.ExitedStops | packages/workspace/src/machines/runtime.ts:189 | `exited` lands in Stopped from every state, clearing port, retry count and handle without stopping anything |
| RuntimeProperties.TagsAfterStep | packages/workspace/src/machines/runtime.ts:214-334 | after a step from a resting state the machine is not transient. Its tag is `loading` iff it is SpawningRuntime, `ready` iff Running or PendingShutdown, `stopped` iff Stopped, and `error` iff Error |
| RuntimeProperties.StepClosedForm | packages/workspace/src/machines/runtime.ts:128-336 | the interpreter of the machine declaration agrees, for every state, context, event and environment, with the flat per-event table `Expected` |
| RuntimeRuns.InitialInvariant | packages/workspace/src/machines/runtime.ts:115-127 | the new machine satisfies the resting invariant |
| RuntimeRuns.StepPreservesInvariant | packages/workspace/src/machines/runtime.ts:128-336 | every step preserves the resting invariant: not transient; in Stopped no port, no retries, no child; while spawning or ready fewer than MAX_RETRIES retries and a child; while ready a port |
| RuntimeRuns.RunPreservesInvariant | packages/workspace/src/machines/runtime.ts:317-323 | every run from a configuration with the invariant keeps it, so in Stopped the port is always unset |
| RuntimeRuns.StepSpawnAttempt | packages/workspace/src/machines/runtime.ts:285-294 | a step spawns at most once, and only on its way into SpawningRuntime; the attempt is the retry count held there, which is below MAX_RETRIES, and the handle is the spawned child |
| RuntimeRuns.RunSpawnsBounded | packages/workspace/src/machines/runtime.ts:216-221 | no run from any configuration ever spawns with an attempt of MAX_RETRIES or more |
| RuntimeRuns.RecordedErrorsShape | packages/workspace/src/machines/runtime.ts:68-79 | the reference list `RecordedErrors`, which `ErrorsAfterFailures` ties to the machine, has one entry of type `runtime` per failure |
| RuntimeRuns.RetryCountAfterFailures | packages/workspace/src/machines/runtime.ts:216-231 | from SpawningRuntime with k retries used, n retryable failures (k + n <= MAX_RETRIES) leave k + n retries. The machine is spawning iff k + n < MAX_RETRIES and is in Error otherwise |
| RuntimeRuns.ErrorsAfterFailures | packages/workspace/src/machines/runtime.ts:161-174 | the same failures append their runtime errors in order and leave logs and port unchanged |
| RuntimeRuns.EffectsAfterFailures | packages/workspace/src/machines/runtime.ts:216-231 | the same failures produce one effect per failure: a spawn with attempt k + 1, k + 2, ... while the bumped count is below MAX_RETRIES, and "Hit max retries" instead of a spawn for the failure that brings it to MAX_RETRIES; nothing is stopped or published |
| RuntimeRuns.AttemptsAfterFailures | packages/workspace/src/machines/runtime.ts:285-294 | the same failures spawn exactly the attempts k + 1, ..., up to but excluding MAX_RETRIES |
| RuntimeRuns.FailuresThenStarted | packages/workspace/src/machines/runtime.ts:296-313 | fewer than MAX_RETRIES retryable failures followed by `started` reach Running with the port set and the failures counted and recorded |
| RuntimeRuns.ThreeRetryableFailuresEndInError | packages/workspace/src/machines/runtime.ts:27 | a new machine hit by three retryable failures ends in Error with retry count 3 and three runtime errors, having spawned attempts 0, 1 and 2 and no more |
| RuntimeRuns.IdleShutdownScenario | packages/workspace/src/machines/runtime.ts:277-282 | started, idle timer, shutdown timer: the machine is Stopped without port or child, and it published once and stopped the child it spawned |
| RuntimeRuns.HeartbeatCancelsShutdown | packages/workspace/src/machines/runtime.ts:240-247 | a heartbeat in PendingShutdown followed by the shutdown timer leaves the machine Running, with only the timestamp changed |
| RuntimeRuns.StartedThenPortTaken | packages/workspace/src/machines/runtime.ts:161-167 | started, a log line, then port-taken: the machine is spawning attempt 1 while still holding the old port, and the first child is never stopped |
| RuntimeRuns.ErrorIsNotTerminal | packages/workspace/src/machines/runtime.ts:147-174 | after a non-retryable failure a new machine is in Error; a retryable failure after it brings the machine back to spawning attempt 1, with two errors recorded |

## Left out

- Publishing, logging and spawning are effects in a list. The `publisher`
  bus, `logUnhandledEvent` and its exception capture, and the
  `log("Hit max retries")` action are not modelled beyond the effect they
  emit.
- `spawnRuntimeLogic`, the spawned child, is not part of this model. It is
  only the source of the `started`, `log`, `exited` and error events.
  `stopChild` is the `StopChild` effect.
- The child's static input (`appConfig`, `runPackageJsonScript`,
  `shimServerJSPath`, `parentRef`) is not carried. `appConfig` is reduced to
  the subdomain the publish notification names. The spawn effect carries
  only the child handle and the attempt.
- Real time: the 30 s and 5 s delays and the library's timer scheduling are
  replaced by the two timeout events. Arming and cancelling a timer is not
  an effect.
- `ulid()` ids, `new Date()` and `Date.now()` values, and spawned child
  references are opaque numbers supplied by `env`. `new Date(createdAt)` is
  the timestamp itself.
- `AppError` types other than `runtime` are one `SavedError(name)`
  constructor. The `saveError` payload is appended as given.
- The machine's `output` and the exported snapshot and actor-ref types are
  not modelled.
- `port` is not cleared when a failure sends the machine back to spawning.
  The error transitions (runtime.ts:161-174) and `MaybeRetrying`
  (runtime.ts:216-231) never assign it, so after `started` and then
  `port-taken` the old port stays set while the next child spawns
  (`StartedThenPortTaken`).
- `Error` is not a final state, and the retry count is not bounded by
  `MAX_RETRIES` in every state. A retryable failure that arrives in `Error`
  bumps the count (`RetryableFailure` with `s == Error`). When the bumped
  count is below `MAX_RETRIES`, as after a non-retryable failure, the machine
  leaves `Error` and spawns again (`ErrorIsNotTerminal`). Otherwise it stays
  in `Error` with a count at or above `MAX_RETRIES`. The invariant therefore bounds
  the count only in the spawning and ready states.
- The previous child is not stopped on the way from `MaybeRetrying` back to
  `SpawningRuntime`. Its handle is simply replaced
  (`RetryableFailure`, `StartedThenPortTaken`).
- `spawnRuntime.exited` is honoured in every state (runtime.ts:189), so a
  late `exited` from a replaced child would move a spawning machine to
  `Stopped` and drop the live child's handle without stopping it
  (`ExitedStops`). Whether the child reports `exited` after an error depends
  on `spawnRuntimeLogic`, which is not part of this model.
