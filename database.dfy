/** The orchestrator (internal/database/database.go): parse a line, dispatch
    it to storage and render every outcome as response text. */
module Database {

  import opened Wrappers
  import opened Logging
  import opened Command
  import opened Parser
  import opened Engine
  import opened Storage

  // ---------------------------------------------------------------------
  // Response text
  // ---------------------------------------------------------------------

  /** A line that does not parse: `invalid query: <reason>`. */
  function InvalidQueryText(e: ParseError): (s: string)
  {
    "invalid query: " + Message(e)
  }

  /** The answer to a miss: `record with key "<k>" not found`. */
  function NotFoundText(key: string): (s: string)
  {
    "record with key \"" + key + "\" not found"
  }

  /** Any other engine failure: `error: <message>`. */
  function ErrorText(e: EngineError): (s: string)
  {
    "error: " + ErrorMessage(e)
  }

  /** The answer to a name that passed validation yet is none of the three. */
  const InternalError: string := "internal error"

  /** `handleGetQuery`'s rendering of the storage answer. */
  function RenderGet(key: string, answer: (string, Option<EngineError>)): (s: string)
  {
    match answer.1
    case None => answer.0
    case Some(KeyNotFound) => NotFoundText(key)
    case Some(e) => ErrorText(e)
  }

  /** `handleSetQuery`'s and `handleDelQuery`'s rendering: `ok` unless the
      engine failed. */
  function RenderWrite(err: Option<EngineError>): (s: string)
  {
    if err.None? then "ok" else ErrorText(err.value)
  }

  /** What the in-memory engine's answers look like once rendered: a GET is
      the value or the not-found text, a write is `ok`. The `error: ` branches
      are never taken with this engine. */
  lemma InMemoryRendering(store: map<string, string>, key: string)
    ensures RenderGet(key, GetResult(store, key)) == if key in store then store[key] else NotFoundText(key)
    ensures RenderWrite(None) == "ok"
  {
  }

  // ---------------------------------------------------------------------
  // HandleQuery as a function of the store
  // ---------------------------------------------------------------------

  /** The response to a line, with the store it leaves behind. */
  datatype Reply = Reply(response: string, store: map<string, string>)

  /** `HandleQuery` over an in-memory store: a parse failure answers with
      its reason and leaves the store alone; a parsed command is dispatched. */
  function Execute(parser: Parser, store: map<string, string>, line: string): (r: Reply)
    ensures parser.Parse(line).Failure? ==> r.store == store
    ensures r.store != store ==> parser.Parse(line).Success? && parser.Parse(line).value.name in {"SET", "DEL"}
  {
    match parser.Parse(line)
    case Failure(e) => Reply(InvalidQueryText(e), store)
    case Success(c) =>
      ParseSuccess(parser, line);
      Dispatch(c, store)
  }

  /** The switch on the command name: GET reads, SET writes, DEL removes, any
      other name is an internal error. */
  function Dispatch(c: Command, store: map<string, string>): (r: Reply)
    requires NameOf(c.name).Some? ==> |c.args| == Arity(NameOf(c.name).value)
    ensures c.name !in {"SET", "DEL"} ==> r.store == store
    ensures c.name in {"SET", "DEL"} ==> r.response == "ok"
    ensures c.name == "SET" ==> c.args[0] in r.store && r.store[c.args[0]] == c.args[1]
    ensures c.name == "DEL" ==> c.args[0] !in r.store
    ensures c.name in {"SET", "DEL"} ==> r.store - {c.args[0]} == store - {c.args[0]}
    ensures r.response == InternalError ==> NameOf(c.name).None? || (c.name == "GET" && c.args[0] in store && store[c.args[0]] == InternalError)
  {
    match NameOf(c.name)
    case Some(GET) => Reply(RenderGet(c.args[0], GetResult(store, c.args[0])), store)
    case Some(SET) => Reply(RenderWrite(None), store[c.args[0] := c.args[1]])
    case Some(DEL) => Reply(RenderWrite(None), store - {c.args[0]})
    case None => Reply(InternalError, store)
  }

  /** The responses to a sequence of lines on one store, in order. */
  function Run(parser: Parser, store: map<string, string>, lines: seq<string>): (responses: seq<string>)
    ensures |responses| == |lines|
    decreases |lines|
  {
    if lines == [] then []
    else
      var first := Execute(parser, store, lines[0]);
      [first.response] + Run(parser, first.store, lines[1..])
  }

  /** A line that does not parse is answered with its reason and never
      reaches the store. */
  lemma ExecuteRejects(parser: Parser, store: map<string, string>, line: string)
    requires parser.Parse(line).Failure?
    ensures Execute(parser, store, line) == Reply(InvalidQueryText(parser.Parse(line).error), store)
  {
  }

  /** A line that parses is answered by the switch on its command. */
  lemma {:induction false} ExecuteParsed(parser: Parser, store: map<string, string>, line: string, c: Command)
    requires parser.Parse(line) == Success(c)
    ensures NameOf(c.name).Some? && |c.args| == Arity(NameOf(c.name).value)
    ensures Execute(parser, store, line) == Dispatch(c, store)
  {
    ParseSuccess(parser, line);
  }

  /** `GET k` answers the stored value verbatim, or the not-found text, and
      leaves the store as it was. */
  lemma {:induction false} ExecuteGet(parser: Parser, store: map<string, string>, key: string)
    requires IsToken(key)
    ensures Execute(parser, store, "GET " + key) ==
              Reply(if key in store then store[key] else NotFoundText(key), store)
  {
    ParseGetLine(parser, key);
    ExecuteParsed(parser, store, "GET " + key, Command("GET", [key]));
  }

  /** `SET k v` answers `ok` and afterwards the store maps k to v, every
      other key untouched. */
  lemma {:induction false} ExecuteSet(parser: Parser, store: map<string, string>, key: string, value: string)
    requires IsToken(key) && IsToken(value)
    ensures Execute(parser, store, "SET " + key + " " + value) == Reply("ok", store[key := value])
  {
    ParseSetLine(parser, key, value);
    ExecuteParsed(parser, store, "SET " + key + " " + value, Command("SET", [key, value]));
  }

  /** `DEL k` answers `ok` and afterwards k is absent, whether or not it was
      there before. */
  lemma {:induction false} ExecuteDel(parser: Parser, store: map<string, string>, key: string)
    requires IsToken(key)
    ensures Execute(parser, store, "DEL " + key) == Reply("ok", store - {key})
    ensures key !in Execute(parser, store, "DEL " + key).store
  {
    ParseDelLine(parser, key);
    ExecuteParsed(parser, store, "DEL " + key, Command("DEL", [key]));
  }

  /** SET then GET of the same key returns the value just written. */
  lemma {:induction false} SetThenGet(parser: Parser, store: map<string, string>, key: string, value: string)
    requires IsToken(key) && IsToken(value)
    ensures var afterSet := Execute(parser, store, "SET " + key + " " + value);
            Execute(parser, afterSet.store, "GET " + key).response == value
  {
    ExecuteSet(parser, store, key, value);
    ExecuteGet(parser, store[key := value], key);
  }

  /** DEL then GET of the same key reports it missing. */
  lemma {:induction false} DelThenGet(parser: Parser, store: map<string, string>, key: string)
    requires IsToken(key)
    ensures var afterDel := Execute(parser, store, "DEL " + key);
            Execute(parser, afterDel.store, "GET " + key).response == NotFoundText(key)
  {
    ExecuteDel(parser, store, key);
    ExecuteGet(parser, store - {key}, key);
  }

  /** The `internal error` branch is never taken: that text can come back
      only as a value someone stored. */
  lemma {:induction false} NoInternalError(parser: Parser, store: map<string, string>, line: string)
    ensures Execute(parser, store, line).response == InternalError ==>
              exists key :: key in store && store[key] == InternalError
  {
    ParseSuccess(parser, line);
    match parser.Parse(line)
    case Failure(e) =>
      assert InvalidQueryText(e)[2] != InternalError[2];
    case Success(c) =>
      DispatchInternalError(c, store);
  }

  /** The switch answers `internal error` for a known name only when that is
      the value stored under the key. */
  lemma DispatchInternalError(c: Command, store: map<string, string>)
    requires NameOf(c.name).Some? ==> |c.args| == Arity(NameOf(c.name).value)
    ensures Dispatch(c, store).response == InternalError ==>
              NameOf(c.name).None? || (c.args[0] in store && store[c.args[0]] == InternalError)
  {
    if NameOf(c.name) == Some(GET) && c.args[0] !in store {
      assert NotFoundText(c.args[0])[0] != InternalError[0];
    }
  }

  /** `Run` is the fold of `Execute`: if each line, executed on the store
      the previous one left, gives the next response and store, then running
      the lines gives those responses. */
  lemma {:induction false} RunSteps(parser: Parser, stores: seq<map<string, string>>, lines: seq<string>,
                                    responses: seq<string>)
    requires |stores| == |lines| + 1 && |responses| == |lines|
    requires forall i :: 0 <= i < |lines| ==> Execute(parser, stores[i], lines[i]) == Reply(responses[i], stores[i + 1])
    ensures Run(parser, stores[0], lines) == responses
    decreases |lines|
  {
    if lines != [] {
      assert Execute(parser, stores[0], lines[0]) == Reply(responses[0], stores[1]);
      assert forall i :: 0 <= i < |lines[1..]| ==> lines[1..][i] == lines[i + 1] && stores[1..][i] == stores[i + 1];
      RunSteps(parser, stores[1..], lines[1..], responses[1..]);
      assert responses == [responses[0]] + responses[1..];
    }
  }

  /** A session on a fresh store: SET, GET, DEL, GET, then a line that does
      not parse. */
  lemma {:induction false} ExampleSession(parser: Parser, key: string, value: string, bad: string)
    requires IsToken(key) && IsToken(value) && parser.Parse(bad).Failure?
    ensures Run(parser, map[], ["SET " + key + " " + value, "GET " + key, "DEL " + key, "GET " + key, bad]) ==
              ["ok", value, "ok", NotFoundText(key), InvalidQueryText(parser.Parse(bad).error)]
  {
    var s1 := map[][key := value];
    var s2 := s1 - {key};
    var stores := [map[], s1, s1, s2, s2, s2];
    var lines := ["SET " + key + " " + value, "GET " + key, "DEL " + key, "GET " + key, bad];
    var responses := ["ok", value, "ok", NotFoundText(key), InvalidQueryText(parser.Parse(bad).error)];
    forall i | 0 <= i < |lines|
      ensures Execute(parser, stores[i], lines[i]) == Reply(responses[i], stores[i + 1])
    {
      if i == 0 {
        ExecuteSet(parser, map[], key, value);
      } else if i == 1 {
        ExecuteGet(parser, s1, key);
      } else if i == 2 {
        ExecuteDel(parser, s1, key);
      } else if i == 3 {
        ExecuteGet(parser, s2, key);
      } else {
        ExecuteRejects(parser, s2, bad);
      }
    }
    RunSteps(parser, stores, lines, responses);
  }

  // ---------------------------------------------------------------------
  // The database object
  // ---------------------------------------------------------------------

  class Database {
    const parser: Parser
    const storage: Storage
    const logger: Logger

    constructor (parser: Parser, storage: Storage, logger: Logger)
      ensures this.parser == parser && this.storage == storage && this.logger == logger
    {
      this.parser := parser;
      this.storage := storage;
      this.logger := logger;
    }

    /** `HandleQuery`: every outcome becomes response text. */
    method HandleQuery(line: string) returns (response: string)
      modifies storage.engine
      ensures Reply(response, storage.engine.store) == Execute(parser, old(storage.engine.store), line)
    {
      var query := parser.Parse(line);
      if query.Failure? {
        return InvalidQueryText(query.error);
      }
      ParseSuccess(parser, line);
      var c := query.value;
      assert Execute(parser, old(storage.engine.store), line) == Dispatch(c, old(storage.engine.store));
      match NameOf(c.name)
      case Some(GET) => response := HandleGet(c);
      case Some(SET) => response := HandleSet(c);
      case Some(DEL) => response := HandleDel(c);
      case None => response := InternalError;
    }

    /** `handleGetQuery`: the stored value, the not-found text, or the
        engine's error. */
    method HandleGet(c: Command) returns (response: string)
      requires |c.args| == Arity(GET)
      ensures response == if c.args[0] in storage.engine.store then storage.engine.store[c.args[0]] else NotFoundText(c.args[0])
    {
      var value, err := storage.Get(c.args[0]);
      response := RenderGet(c.args[0], (value, err));
    }

    /** `handleSetQuery`: store the value under the key, answer `ok`. */
    method HandleSet(c: Command) returns (response: string)
      requires |c.args| == Arity(SET)
      modifies storage.engine
      ensures storage.engine.store == old(storage.engine.store)[c.args[0] := c.args[1]]
      ensures response == "ok"
    {
      var err := storage.Set(c.args[0], c.args[1]);
      response := RenderWrite(err);
    }

    /** `handleDelQuery`: remove the key whether or not it was there, answer
        `ok`. */
    method HandleDel(c: Command) returns (response: string)
      requires |c.args| == Arity(DEL)
      modifies storage.engine
      ensures storage.engine.store == old(storage.engine.store) - {c.args[0]}
      ensures response == "ok"
    {
      var err := storage.Del(c.args[0]);
      response := RenderWrite(err);
    }
  }

  /** `NewDatabase`: a nil logger is an error; otherwise a parser and an empty
      in-memory store behind a storage facade. */
  method NewDatabase(logger: Option<Logger>) returns (db: Database?, err: Option<string>)
    ensures logger.None? <==> err.Some?
    ensures logger.None? ==> db == null
    ensures logger.Some? ==> db != null && fresh(db) && fresh(db.storage) && fresh(db.storage.engine)
    ensures logger.Some? ==> db.storage.engine.store == map[] && db.logger == logger.value
  {
    if logger.None? {
      return null, Some("no logger is provided");
    }
    var parser := NewParser(logger);
    var engine := new InMemoryEngine(logger);
    var storage, storageErr := NewStorage(engine, logger);
    db := new Database(parser.value, storage, logger.value);
    err := None;
  }
}
