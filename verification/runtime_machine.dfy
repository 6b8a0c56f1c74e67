/** The runtime supervisor as a pure step function.

    The handlers are kept as data, in the shape the state-machine declaration
    has: state-local handlers (`on` and `after`), explicit root handlers, the
    root wildcard, entry actions and eventless (`always`) transitions. `Step`
    interprets them with the dispatch rules of the state-machine library:
    local before root before wildcard; a transition with a target exits the
    current state and enters the target, running the transition's actions
    first and the target's entry actions after; a transient target is left
    by its eventless transition within the same step. Actions run in order
    and each sees the context left by the one before. */
module RuntimeMachine {
  import opened RuntimeTypes

  /** The named actions of the machine, plus the inline ones. */
  datatype Action =
    | AppendLog(message: string, logType: LogType)
    | PublishLogs
    | PushRuntimeErrorEvent(value: RunErrorValue)
    | SetLastHeartbeat(createdAt: Timestamp)
    | StopRuntime
    | EmptyLogs
    | AppendError(error: AppError)
    | AssignPort(port: int)
    | ResetForRestart
    | LogUnhandled(event: Event)
    | LogMaxRetries
    | IncrementRetryCount
    | SpawnRuntime
    | ClearOnStop

  /** The actions of a transition, in the order they run. */
  datatype Actions = Done | Then(head: Action, tail: Actions)

  /** A transition: `None` target means the transition only runs its actions. */
  datatype Transition = Transition(target: Option<State>, actions: Actions)

  /** An eventless transition always has a target. */
  datatype Eventless = Eventless(target: State, actions: Actions)

  /** The recorded message of a spawn failure: the failing command is put in
      front when it is present and non-empty (`runtime.ts` tests it for truthiness). */
  function RuntimeErrorMessage(v: RunErrorValue): (m: string)
    ensures |m| >= |v.message| && m[|m| - |v.message|..] == v.message
    ensures v.command.None? || v.command.value == [] ==> m == v.message
    ensures v.command.Some? && v.command.value != [] ==>
              |m| == |v.command.value| + 2 + |v.message| &&
              m[..|v.command.value|] == v.command.value &&
              m[|v.command.value|..|v.command.value| + 2] == ": "
  {
    match v.command
    case Some(c) => if c != [] then c + ": " + v.message else v.message
    case None => v.message
  }

  /** Runs one action against the context. No action changes the app the
      supervisor belongs to, and each asks for at most one effect. */
  function Exec(a: Action, ctx: Context, env: Env): (r: (Context, seq<Effect>))
    ensures r.0.subdomain == ctx.subdomain
    ensures |r.1| <= 1
  {
    match a
    case AppendLog(message, logType) =>
      (ctx.(logs := ctx.logs + [LogEntry(env.now, env.logId, message, logType)]), [])
    case PublishLogs => (ctx, [Publish(ctx.subdomain)])
    case PushRuntimeErrorEvent(value) =>
      (ctx.(errors := ctx.errors + [AppError(env.now, RuntimeErrorMessage(value), RuntimeError)]), [])
    case SetLastHeartbeat(createdAt) => (ctx.(lastHeartbeat := createdAt), [])
    case StopRuntime => (ctx, [StopChild(ctx.child)])
    case EmptyLogs => (ctx.(logs := []), [])
    case AppendError(error) => (ctx.(errors := ctx.errors + [error]), [])
    case AssignPort(port) => (ctx.(port := Some(port)), [])
    case ResetForRestart =>
      (ctx.(errors := [], logs := [], port := None, retryCount := 0, child := None), [])
    case LogUnhandled(event) => (ctx, [Unhandled(event)])
    case LogMaxRetries => (ctx, [HitMaxRetries])
    case IncrementRetryCount => (ctx.(retryCount := ctx.retryCount + 1), [])
    case SpawnRuntime =>
      (ctx.(child := Some(env.freshChild)), [Spawn(env.freshChild, ctx.retryCount)])
    case ClearOnStop => (ctx.(port := None, retryCount := 0, child := None), [])
  }

  /** The number of actions in a list. */
  function Length(actions: Actions): nat
  {
    match actions
    case Done => 0
    case Then(_, rest) => 1 + Length(rest)
  }

  /** Runs actions in order, threading the context and collecting effects. */
  function ExecAll(actions: Actions, ctx: Context, env: Env): (Context, seq<Effect>)
  {
    match actions
    case Done => (ctx, [])
    case Then(a, rest) =>
      var (c1, f1) := Exec(a, ctx, env);
      var (c2, f2) := ExecAll(rest, c1, env);
      (c2, f1 + f2)
  }

  /** Delayed events are cancelled when the state that armed them is exited,
      so they only ever arrive in that state. */
  predicate Delivered(s: State, e: Event)
  {
    match e
    case IdleTimeout => s == Running
    case ShutdownTimeout => s == PendingShutdown
    case _ => true
  }

  /** State-local handlers, `after` timers included. Every one of them has a
      target, and only `started`, the heartbeat and the two timers have one. */
  function LocalOn(s: State, e: Event): (r: Option<Transition>)
    ensures r.Some? ==> r.value.target.Some?
    ensures r.Some? ==> e.Started? || e.UpdateHeartbeat? || e.IdleTimeout? || e.ShutdownTimeout?
  {
    match s
    case SpawningRuntime =>
      if e.Started? then
        Some(Transition(Some(Running),
          Then(AssignPort(e.port), Then(AppendLog("Server started", Normal), Then(PublishLogs, Done)))))
      else None
    case Running =>
      if e.IdleTimeout? then Some(Transition(Some(PendingShutdown), Done)) else None
    case PendingShutdown =>
      if e.UpdateHeartbeat? then Some(Transition(Some(Running), Then(SetLastHeartbeat(e.createdAt), Done)))
      else if e.ShutdownTimeout? then Some(Transition(Some(Stopped), Then(StopRuntime, Done)))
      else None
    case Stopped =>
      if e.UpdateHeartbeat? then Some(Transition(Some(Restarting), Then(SetLastHeartbeat(e.createdAt), Done))) else None
    case _ => None
  }

  /** The explicit root handlers. They cover every event except `started`
      and the timers; only `restart`, `exited` and the spawn failures change
      the state, and spawn failures go to Error or, when retryable, to
      MaybeRetrying. */
  function RootOn(e: Event): (r: Option<Transition>)
    ensures r.Some? <==> !(e.Started? || e.IdleTimeout? || e.ShutdownTimeout?)
    ensures r.Some? && r.value.target.Some? <==> e.Restart? || e.Exited? || e.Failed?
  {
    match e
    case ClearLogs => Some(Transition(None, Then(EmptyLogs, Then(PublishLogs, Done))))
    case Restart => Some(Transition(Some(Restarting), Done))
    case SaveError(error) => Some(Transition(None, Then(AppendError(error), Done)))
    case Failed(kind, value) =>
      Some(Transition(Some(if Retryable(kind) then MaybeRetrying else Error),
        Then(PushRuntimeErrorEvent(value), Done)))
    case Exited => Some(Transition(Some(Stopped), Done))
    case Log(message, logType) => Some(Transition(None, Then(AppendLog(message, logType), Then(PublishLogs, Done))))
    case UpdateHeartbeat(t) => Some(Transition(None, Then(SetLastHeartbeat(t), Done)))
    case _ => None
  }

  /** The root `"*"` handler: report the event for diagnostics. */
  function Wildcard(e: Event): Transition
  {
    Transition(None, Then(LogUnhandled(e), Done))
  }

  /** The handler that takes an event: the state's own handler if it has one,
      else the root handler, else the wildcard. Every delivered event is
      taken, and the wildcard is the fallback exactly when neither the state
      nor the root handles the event; it never changes the state. */
  function Select(s: State, e: Event): (r: Option<Transition>)
    ensures r.Some? <==> Delivered(s, e)
    ensures Delivered(s, e) && LocalOn(s, e).Some? ==> r == LocalOn(s, e)
    ensures Delivered(s, e) ==> (r == Some(Wildcard(e)) <==> LocalOn(s, e).None? && RootOn(e).None?)
    ensures r.Some? && r.value.target.Some? ==> LocalOn(s, e).Some? || RootOn(e).Some?
  {
    if !Delivered(s, e) then None
    else match LocalOn(s, e)
      case Some(t) => Some(t)
      case None =>
        match RootOn(e)
        case Some(t) => Some(t)
        case None => Some(Wildcard(e))
  }

  function EntryActions(s: State): Actions
  {
    match s
    case MaybeRetrying => Then(IncrementRetryCount, Done)
    case SpawningRuntime => Then(SpawnRuntime, Done)
    case Stopped => Then(ClearOnStop, Done)
    case _ => Done
  }

  /** The eventless transitions, which exist exactly on the transient states
      and lead to a resting state. */
  function Always(s: State, ctx: Context): (r: Option<Eventless>)
    ensures r.Some? <==> Transient(s)
    ensures r.Some? ==> !Transient(r.value.target)
  {
    match s
    case MaybeRetrying =>
      if ctx.retryCount < MAX_RETRIES then Some(Eventless(SpawningRuntime, Done))
      else Some(Eventless(Error, Then(LogMaxRetries, Done)))
    case Restarting =>
      Some(Eventless(SpawningRuntime,
        Then(StopRuntime,
        Then(ResetForRestart,
        Then(AppendLog("Restarting server...", Normal),
        Then(PublishLogs, Done))))))
    case _ => None
  }

  /** Enters a state: its entry actions, then its eventless transition if it has one. */
  function Enter(s: State, ctx: Context, env: Env): (r: (State, Context, seq<Effect>))
    ensures !Transient(r.0)
    decreases if Transient(s) then 1 else 0
  {
    var (c1, f1) := ExecAll(EntryActions(s), ctx, env);
    match Always(s, c1)
    case None => (s, c1, f1)
    case Some(t) =>
      var (c2, f2) := ExecAll(t.actions, c1, env);
      var (s3, c3, f3) := Enter(t.target, c2, env);
      (s3, c3, f1 + f2 + f3)
  }

  /** One macrostep: the state, context and effects after delivering `e`. */
  function Step(s: State, ctx: Context, e: Event, env: Env): (r: Outcome)
    ensures !Transient(s) ==> !Transient(r.state)
  {
    match Select(s, e)
    case None => Outcome(s, ctx, [])
    case Some(t) =>
      var (c1, f1) := ExecAll(t.actions, ctx, env);
      match t.target
      case None => Outcome(s, c1, f1)
      case Some(target) =>
        var (s2, c2, f2) := Enter(target, c1, env);
        Outcome(s2, c2, f1 + f2)
  }

  /** The machine as created: fresh context, then entry into SpawningRuntime. */
  function Initial(subdomain: string, env: Env): (r: Outcome)
    ensures r.state == SpawningRuntime
    ensures r.ctx == Context(subdomain, [], env.now, [], None, 0, Some(env.freshChild))
    ensures r.effects == [Spawn(env.freshChild, 0)]
  {
    var blank := Context(subdomain, [], env.now, [], None, 0, None);
    assert ExecAll(Then(SpawnRuntime, Done), blank, env).1 == [Spawn(env.freshChild, 0)] + [];
    var (s, c, f) := Enter(SpawningRuntime, blank, env);
    Outcome(s, c, f)
  }
}
