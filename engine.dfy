/** The storage engine contract (internal/database/storage/engine/engine.go)
    and its in-memory realisation
    (internal/database/storage/engine/in_memory/engine.go). */
module Engine {

  import opened Wrappers
  import opened Logging

  /** What an engine call can fail with: `ErrKeyNotFound`, or any other error
      an engine might report, carried with its message. */
  datatype EngineError = KeyNotFound | Failed(message: string)

  function ErrorMessage(e: EngineError): (m: string)
  {
    match e
    case KeyNotFound => "key not found"
    case Failed(message) => message
  }

  /** What `Get(key)` returns on a store: the value and nil when the key is
      present, the empty string and `ErrKeyNotFound` when it is not. */
  function GetResult(store: map<string, string>, key: string): (r: (string, Option<EngineError>))
    ensures r.1.None? <==> key in store
    ensures r.1.None? ==> r.0 == store[key]
    ensures r.1.Some? ==> r.0 == "" && r.1.value == KeyNotFound
  {
    if key in store then (store[key], None) else ("", Some(KeyNotFound))
  }

  /** `Set(k, v)` then `Get(k)` yields `v`; every other key reads as before. */
  lemma GetAfterSet(store: map<string, string>, key: string, value: string, other: string)
    ensures GetResult(store[key := value], key) == (value, None)
    ensures other != key ==> GetResult(store[key := value], other) == GetResult(store, other)
  {
  }

  /** `Del(k)` then `Get(k)` is `ErrKeyNotFound`; every other key reads as
      before; deleting twice is deleting once. */
  lemma GetAfterDel(store: map<string, string>, key: string, other: string)
    ensures GetResult(store - {key}, key) == ("", Some(KeyNotFound))
    ensures other != key ==> GetResult(store - {key}, other) == GetResult(store, other)
    ensures (store - {key}) - {key} == store - {key}
  {
  }

  /** The in-memory engine: a plain map, updated in place. The source takes no
      lock, so the model is sequential. */
  class InMemoryEngine {
    var store: map<string, string>
    const logger: Logger

    /** `NewInMemoryEngine`: an empty store; a nil logger becomes a no-op one,
        so construction never fails. */
    constructor (logger: Option<Logger>)
      ensures store == map[] && this.logger == OrNop(logger)
    {
      store := map[];
      this.logger := OrNop(logger);
    }

    /** `Get`: reads the store and leaves it as it was. */
    method Get(key: string) returns (value: string, err: Option<EngineError>)
      ensures (value, err) == GetResult(store, key)
      ensures err.None? <==> key in store
      ensures err.None? ==> value == store[key]
    {
      if key in store {
        value, err := store[key], None;
      } else {
        value, err := "", Some(KeyNotFound);
      }
    }

    /** `Set`: overwrite or create the key's entry; never fails. */
    method Set(key: string, value: string) returns (err: Option<EngineError>)
      modifies this
      ensures store == old(store)[key := value] && err == None
    {
      store := store[key := value];
      err := None;
    }

    /** `Del`: remove the key's entry if present; never fails. */
    method Del(key: string) returns (err: Option<EngineError>)
      modifies this
      ensures store == old(store) - {key} && err == None
    {
      store := store - {key};
      err := None;
    }
  }
}
