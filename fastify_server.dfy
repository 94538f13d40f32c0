/**
 * The Fastify server manager: `app` and `isStarted` decide what `start`,
 * `stop` and `getServer` do. Initialising the app, listening and closing are
 * outside the model; their success or failure is passed in.
 */
module FastifyServer {
  import opened Wrappers

  /** A Fastify instance, by identity. */
  datatype FastifyInstance = FastifyInstance(id: nat)

  /** The outcome of `await initializeFastifyApp(options)`. */
  datatype InitResult = InitFailed | Initialized(app: FastifyInstance)

  /** How `start()` ends: it resolves, it throws, or the process exits with a code. */
  datatype StartOutcome = Started | StartThrew(message: string) | ProcessExit(code: int)

  /** How `stop()` ends: nothing to do, closed, or the close error is rethrown. */
  datatype StopOutcome = NotRunning | Stopped | CloseThrew

  const AlreadyStarted := "Server is already started"
  const NotInitialized := "Server not initialized. Call start() first."

  class FastifyServerManager {
    var app: Option<FastifyInstance>
    var isStarted: bool

    /** A started server always has an app. */
    ghost predicate Valid()
      reads this
    {
      isStarted ==> app.Some?
    }

    /** `new FastifyServerManager(options)`: no app, not started. */
    constructor ()
      ensures Valid() && app.None? && !isStarted
    {
      app := None;
      isStarted := false;
    }

    /**
     * `start()`. Graceful-shutdown handlers are installed between the two
     * steps; they are outside the model.
     */
    method Start(init: InitResult, listenSucceeds: bool) returns (outcome: StartOutcome)
      requires Valid()
      modifies this
      ensures Valid()
      ensures old(isStarted) ==> outcome == StartThrew(AlreadyStarted) && app == old(app) && isStarted
      ensures !old(isStarted) && init.InitFailed? ==> outcome == ProcessExit(1) && app == old(app) && !isStarted
      ensures !old(isStarted) && init.Initialized? ==> app == Some(init.app) && isStarted == listenSucceeds
      ensures !old(isStarted) && init.Initialized? ==> outcome == if listenSucceeds then Started else ProcessExit(1)
    {
      if isStarted {
        return StartThrew(AlreadyStarted);
      }
      match init
      case InitFailed =>
        return ProcessExit(1);
      case Initialized(instance) =>
        app := Some(instance);
        if !listenSucceeds {
          return ProcessExit(1);
        }
        isStarted := true;
        outcome := Started;
    }

    /** `stop()` */
    method Stop(closeSucceeds: bool) returns (outcome: StopOutcome)
      requires Valid()
      modifies this
      ensures Valid() && app == old(app)
      ensures !old(isStarted) ==> outcome == NotRunning && !isStarted
      ensures old(isStarted) && closeSucceeds ==> outcome == Stopped && !isStarted
      ensures old(isStarted) && !closeSucceeds ==> outcome == CloseThrew && isStarted
    {
      if app.None? || !isStarted {
        return NotRunning;
      }
      if !closeSucceeds {
        return CloseThrew;
      }
      isStarted := false;
      outcome := Stopped;
    }

    /** `getServer()` */
    method GetServer() returns (r: Result<FastifyInstance, string>)
      ensures app.None? ==> r == Failure(NotInitialized)
      ensures app.Some? ==> r == Success(app.value)
    {
      if app.None? {
        return Failure(NotInitialized);
      }
      r := Success(app.value);
    }
  }

  /** `server(options)`: start a new manager and hand out its instance. */
  method Server(init: InitResult, listenSucceeds: bool) returns (outcome: StartOutcome, instance: Option<FastifyInstance>)
    ensures init.Initialized? && listenSucceeds ==> outcome == Started && instance == Some(init.app)
    ensures !(init.Initialized? && listenSucceeds) ==> outcome == ProcessExit(1) && instance.None?
  {
    var manager := new FastifyServerManager();
    outcome := manager.Start(init, listenSucceeds);
    if outcome != Started {
      return outcome, None;
    }
    var found := manager.GetServer();
    instance := Some(found.value);
  }

  /**
   * A full life cycle: start, stop, and the instance is still handed out;
   * starting again while started throws and changes nothing.
   */
  method LifeCycle(instance: FastifyInstance) returns (first: StartOutcome, again: StartOutcome, stopped: StopOutcome,
                                                       afterStop: Result<FastifyInstance, string>)
    ensures first == Started && again == StartThrew(AlreadyStarted) && stopped == Stopped
    ensures afterStop == Success(instance)
  {
    var manager := new FastifyServerManager();
    var before := manager.GetServer();
    assert before == Failure(NotInitialized);
    first := manager.Start(Initialized(instance), true);
    again := manager.Start(Initialized(FastifyInstance(instance.id + 1)), true);
    assert manager.app == Some(instance);
    stopped := manager.Stop(true);
    afterStop := manager.GetServer();
  }
}
