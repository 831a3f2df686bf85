/** The storage facade (internal/database/storage/storage.go): it holds an
    engine and forwards every call to it unchanged. */
module Storage {

  import opened Wrappers
  import opened Logging
  import opened Engine

  class Storage {
    const engine: InMemoryEngine
    const logger: Logger

    constructor (engine: InMemoryEngine, logger: Logger)
      ensures this.engine == engine && this.logger == logger
    {
      this.engine := engine;
      this.logger := logger;
    }

    /** `Get`: exactly the engine's answer. */
    method Get(key: string) returns (value: string, err: Option<EngineError>)
      ensures (value, err) == GetResult(engine.store, key)
    {
      value, err := engine.Get(key);
    }

    /** `Set`: exactly the engine's effect and result. */
    method Set(key: string, value: string) returns (err: Option<EngineError>)
      modifies engine
      ensures engine.store == old(engine.store)[key := value] && err == None
    {
      err := engine.Set(key, value);
    }

    /** `Del`: exactly the engine's effect and result. */
    method Del(key: string) returns (err: Option<EngineError>)
      modifies engine
      ensures engine.store == old(engine.store) - {key} && err == None
    {
      err := engine.Del(key);
    }
  }

  /** `NewStorage`: a nil engine is an error and yields no storage; a nil
      logger is replaced by a no-op one. */
  method NewStorage(engine: InMemoryEngine?, logger: Option<Logger>) returns (s: Storage?, err: Option<string>)
    ensures engine == null <==> err.Some?
    ensures engine == null ==> s == null
    ensures engine != null ==> s != null && fresh(s) && s.engine == engine && s.logger == OrNop(logger)
  {
    if engine == null {
      return null, Some("engine is nil");
    }
    s := new Storage(engine, OrNop(logger));
    err := None;
  }
}
