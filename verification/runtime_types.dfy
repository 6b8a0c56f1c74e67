/** Data model of the runtime supervisor: the entries it records, the events it
    accepts, its states and tags, its context, and the effects a step asks the
    driver to perform. */
module RuntimeTypes {

  datatype Option<+T> = None | Some(value: T)

  /** Retryable spawn failures are retried while the incremented count stays below this. */
  const MAX_RETRIES: nat := 3

  /** Opaque values `runtime.ts` obtains from the outside world: `ulid()` ids,
      `new Date()` / `Date.now()` timestamps and the actor refs that `spawn` returns. */
  type LogId = nat
  type Timestamp = int
  type ChildRef = nat

  /** The `type` enum of a log entry. */
  datatype LogType = ErrorLog | Normal | Truncation

  datatype LogEntry = LogEntry(createdAt: Timestamp, id: LogId, message: string, logType: LogType)

  /** What a spawn failure reports: an optional failing command and a detail message. */
  datatype RunErrorValue = RunErrorValue(command: Option<string>, message: string)

  /** The `type` of a recorded error: `runtime` for spawn failures; errors saved by
      the owner carry whatever type the owner chose. */
  datatype ErrorType = RuntimeError | SavedError(name: string)

  datatype AppError = AppError(createdAt: Timestamp, message: string, errorType: ErrorType)

  /** The six typed failures the spawn actor can report. */
  datatype FailureKind = InstallFailed | PackageJson | PortTaken | Timeout | Unknown | UnsupportedScript

  /** Retryable failures come from contention (a taken port, a slow start);
      the others come from the project itself. */
  predicate Retryable(k: FailureKind)
  {
    k == PortTaken || k == Timeout
  }

  /** Commands from the owner, reports from the spawn actor, and the two
      delayed self-events (30 s idle timer, 5 s shutdown timer). */
  datatype Event =
    | ClearLogs
    | Restart
    | SaveError(error: AppError)
    | UpdateHeartbeat(createdAt: Timestamp)
    | Started(port: int)
    | Log(message: string, logType: LogType)
    | Exited
    | Failed(kind: FailureKind, value: RunErrorValue)
    | IdleTimeout
    | ShutdownTimeout

  datatype State = Error | MaybeRetrying | PendingShutdown | Restarting | Running | SpawningRuntime | Stopped

  /** MaybeRetrying and Restarting only carry eventless transitions. */
  predicate Transient(s: State)
  {
    s == MaybeRetrying || s == Restarting
  }

  datatype Tag = Loading | Ready | StoppedTag | ErrorTag

  function TagOf(s: State): Tag
  {
    match s
    case Error => ErrorTag
    case MaybeRetrying => Loading
    case PendingShutdown => Ready
    case Restarting => Loading
    case Running => Ready
    case SpawningRuntime => Loading
    case Stopped => StoppedTag
  }

  /** `appConfig` is reduced to the subdomain that publish notifications carry. */
  datatype Context = Context(
    subdomain: string,
    errors: seq<AppError>,
    lastHeartbeat: Timestamp,
    logs: seq<LogEntry>,
    port: Option<int>,
    retryCount: nat,
    child: Option<ChildRef>)

  /** Side effects, in the order the driver performs them. `StopChild(None)`
      is `runtime.ts`'s `stopChild("none")`. */
  datatype Effect =
    | Spawn(child: ChildRef, attempt: nat)
    | StopChild(target: Option<ChildRef>)
    | Publish(subdomain: string)
    | Unhandled(event: Event)
    | HitMaxRetries

  /** The outside-world values one step may read. */
  datatype Env = Env(now: Timestamp, logId: LogId, freshChild: ChildRef)

  datatype Outcome = Outcome(state: State, ctx: Context, effects: seq<Effect>)
}
