# Key-value store request pipeline, modelled in Dafny

This project models the request path of a small key-value store written in Go.
It covers everything between the bytes on a TCP connection and the in-memory map,
but not sockets or goroutines:

- **Wire framing** (`internal/network/packet.go`). A frame is a 4-byte big-endian
  length followed by exactly that many payload bytes.
  - `BuildPacket` encodes a frame. It is a method that fills an array.
  - `ParsePacket` decodes a frame from a `Reader` class that holds a position
    into a byte stream.
  - Both are proved against the pure functions `Frame` and `Unframe`.
  - `io.ReadFull` is modelled with its real outcomes: a zero-byte read always
    succeeds; the stream ending before any byte is `EOF`; ending part way is
    `ErrUnexpectedEOF`.
- **Per-connection loop** (`TCPServer.handle` in `internal/network/tcp_server.go`).
  `TCPServer.Handle` is a `while` loop over a `Reader` on the connection's
  incoming bytes. It returns what it writes, and it is proved equal to the
  recursive function `Serve`. Lemmas about `Serve` give the loop's properties:
  - one response frame per accepted request, in order;
  - a strict size ceiling, 4096 by default;
  - it stops on a short header, an oversized length or a truncated payload.
- **Parsing** (`internal/database/compute/`).
  - `Parser.Parse` trims the line, splits it with a model of Go's `strings.Fields`,
    rejects zero tokens, then more than three, then builds a `Command` and runs
    `validate`.
  - Whitespace is Go's `unicode.IsSpace` set.
  - The duplicate validator on `Query` (`query.go`) is modelled too, and proved to
    agree with `Command.validate`.
- **Storage**.
  - `InMemoryEngine` is a class whose `store` map field is updated in place.
  - `Storage` is a facade that forwards to it.
- **Orchestration** (`Database.HandleQuery` in `internal/database/database.go`).
  - The method parses, dispatches to storage and renders every outcome as text.
  - It is proved against the pure function `Execute` over the store.
  - `Run` folds `Execute` over a session of lines.

Where the description of the system and the code disagree, the model follows the code:

- The command name is an open string type, as in `command.go`. A `Command` is
  built first and validated afterwards, not constructed only when valid.
- Too many tokens and a wrong argument count are the same error,
  `ErrInvalidNumberOfArgs`.
- `NewParser` and `NewDatabase` refuse a nil logger with an error. Only the
  engine and the storage facade replace a nil logger by a no-op one.
- A header cut short after one to three bytes is `io.ErrUnexpectedEOF`, not a
  clean close.
- The in-memory engine takes no lock, so the model is sequential.

`database.go` reads the parse result as `query.Command` of type `*compute.Query`,
but `Parse` returns `*Command` with a field `Name`. The model dispatches on the
parsed name, as `parser.go` and `command.go` define it.

## Model

| member | source | states |
|---|---|---|
| `Packet.PutUint32` | internal/network/packet.go:12 | the length header is exactly four bytes |
| `Packet.DecodeEncode` | internal/network/packet.go:12-23 | decoding an encoded length gives the length back, truncated to 32 bits as `uint32(len(payload))` truncates it |
| `Packet.EncodeDecode` | internal/network/packet.go:23 | every 4-byte header is the big-endian encoding of the length it declares |
| `Packet.FrameShape` | internal/network/packet.go:9-15 | a frame is 4 bytes longer than its payload, its first four bytes decode to the payload length (mod 2^32) and bytes 4.. are the payload |
| `Packet.FullRead` | internal/network/packet.go:19 | `io.ReadFull` succeeds exactly when n bytes remain, then returns n bytes and leaves the rest; on failure it drains the stream, and the error is EOF exactly when the stream was empty |
| `Packet.UnframeSucceeds` | internal/network/packet.go:17-31 | decoding succeeds exactly when a whole header and the whole declared payload are present; under 4 bytes is a header failure, a declared length beyond the remaining bytes is a payload failure |
| `Packet.UnframeFrame` | internal/network/packet.go:17-31 | round trip: decoding `Frame(p) + rest` returns p and leaves exactly `rest`, the empty payload included (for payloads under 2^32 bytes) |
| `Packet.UnframeTwice` | internal/network/packet.go:17-31 | two concatenated frames decode as their two payloads, in order, leaving nothing |
| `Packet.UnframeAll` | internal/network/packet.go:17-31 | decoding a run of frames yields the first payload and leaves exactly the remaining frames |
| `Packet.Reader.ReadFull` | internal/network/packet.go:25-28 | the imperative read returns what `FullRead` returns and leaves exactly the bytes `FullRead` leaves |
| `Packet.BuildPacket` | internal/network/packet.go:9-15 | the filled buffer is exactly `Frame(payload)`: the header from `PutUint32`, then the copied payload |
| `Packet.ParsePacket` | internal/network/packet.go:17-31 | the result and the reader's remaining bytes are exactly what `Unframe` gives for the bytes the reader held before |
| `TcpServer.NextRequest` | internal/network/tcp_server.go:91-117 | an accepted request strictly shortens the stream, so the loop terminates |
| `TcpServer.NextRequestFrame` | internal/network/tcp_server.go:99-117 | a frame whose length is within the ceiling is accepted whatever follows, and its payload is the frame's payload |
| `TcpServer.NextRequestIsUnframe` | internal/network/tcp_server.go:91-117 | the loop accepts a request exactly when `ParsePacket` would succeed and the declared length is within the ceiling, and then it reads the same payload and leaves the same bytes |
| `TcpServer.ServeRefusesOversized` | internal/network/tcp_server.go:99-107 | a header declaring a length strictly above the ceiling ends the connection with nothing written, whatever follows the header (the payload is never read, so it need not be present) and whatever the handler |
| `TcpServer.MalformedPacket` | internal/network/tcp_server.go:99-107 | the 16 bytes of the text `malformed packet` sent as a request get no answer: the header `malf` declares 0x6d616c66 bytes, above the default ceiling |
| `TcpServer.ServeShortHeader` | internal/network/tcp_server.go:91-98 | fewer than 4 bytes left ends the loop with no further output |
| `TcpServer.ServeTruncated` | internal/network/tcp_server.go:109-117 | a truncated payload ends the loop with no output, whatever the handler: the handler is never consulted |
| `TcpServer.ServeFrame` | internal/network/tcp_server.go:99-129 | an accepted frame is answered by exactly one frame, `Frame(handler(payload))`, before whatever the rest of the stream yields |
| `TcpServer.ServeFrames` | internal/network/tcp_server.go:90-130 | a stream of frames within the ceiling is answered frame by frame, in request order |
| `TcpServer.ServeAll` | internal/network/tcp_server.go:87-131 | for a whole stream of acceptable frames, the output is the concatenation of the frames of the handler's answers |
| `TcpServer.ServeEcho` | internal/network/tcp_server.go:119-124 | with an echo handler, a single request comes back unchanged |
| `TcpServer.DefaultCeiling` | internal/network/tcp_server.go:101 | under the default ceiling of 4096 a 4096-byte request is answered (the comparison is strict) and a 4097-byte one ends the connection |
| `TcpServer.TCPServer.constructor` | internal/network/tcp_server.go:33-38 | a new server keeps the handler and has `maxMessageSize` 4096 |
| `TcpServer.TCPServer.Handle` | internal/network/tcp_server.go:87-131 | what the loop writes to the connection is exactly `Serve(input, handler, maxMessageSize)` |
| `Command.NameOf` | internal/database/compute/command.go:10-16 | a token names a command exactly when it is one of `GET`, `SET`, `DEL`, and the name it gives is spelled as that token |
| `Command.Arity` | internal/database/compute/command.go:18-22 | every command takes one or two arguments, and only SET takes two |
| `Command.NameOfSpelling` | internal/database/compute/command.go:10-16 | a token names a command exactly when it is that command's upper-case spelling; every other token names none |
| `Command.Validate` | internal/database/compute/command.go:29-48 | nil exactly for (GET,1), (SET,2), (DEL,1); a known name with another count is `ErrInvalidNumberOfArgs`; any other name is `ErrUnknownCommand` whatever the arguments; never `ErrInvalidQuery` |
| `Query.NewQuery` | internal/database/compute/query.go:31-36 | the query holds exactly the given name and arguments |
| `Query.ValidateQuery` | internal/database/compute/query.go:38-57 | nil exactly for (GET,1), (SET,2), (DEL,1); any other name is `ErrUnknownCommand`; never `ErrInvalidQuery` |
| `Query.ValidatorsAgree` | internal/database/compute/query.go:38-57 | `Query.validate` and `Command.validate` give the same answer for every name and argument list |
| `Parser.TrimLeftSpec` | internal/database/compute/parser.go:31 | trimming removes a whitespace-only prefix, and all of it |
| `Parser.TrimRightSpec` | internal/database/compute/parser.go:31 | trimming removes a whitespace-only suffix, and all of it |
| `Parser.TokenLengthSpec` | internal/database/compute/parser.go:32 | a token runs up to, and not including, the first whitespace character |
| `Parser.FieldsAreTokens` | internal/database/compute/parser.go:32 | no field is empty or contains whitespace |
| `Parser.FieldsOfSpace` | internal/database/compute/parser.go:32 | a whitespace-only line has no fields |
| `Parser.FieldsSplit` | internal/database/compute/parser.go:32 | any non-empty run of whitespace separates fields the same way, whatever its length and characters |
| `Parser.FieldsTrailingSpace` | internal/database/compute/parser.go:32 | trailing whitespace does not change the fields |
| `Parser.FieldsLeadingSpace` | internal/database/compute/parser.go:32 | leading whitespace does not change the fields |
| `Parser.FieldsTrimSpace` | internal/database/compute/parser.go:31-32 | trimming before splitting changes no field |
| `Parser.FieldsOfToken` | internal/database/compute/parser.go:32 | a single token splits to itself |
| `Parser.FieldsOfJoin` | internal/database/compute/parser.go:32 | round trip: tokens joined by single spaces split back into the same tokens |
| `Parser.Parser.Parse` | internal/database/compute/parser.go:30-56 | a parsed command passes `validate` and has at most three tokens, name included; `ErrInvalidQuery` exactly when the trimmed line has no fields |
| `Parser.NewParser` | internal/database/compute/parser.go:20-28 | fails exactly for a nil logger; otherwise the parser keeps the logger |
| `Parser.ParseTokens` | internal/database/compute/parser.go:30-32 | `Parse` sees only the line's fields |
| `Parser.ParseByTokens` | internal/database/compute/parser.go:30-56 | two lines with the same fields parse the same way |
| `Parser.ParseEmpty` | internal/database/compute/parser.go:34-37 | `ErrInvalidQuery` exactly when the line has no fields; in particular for an empty or whitespace-only line |
| `Parser.ParseTooMany` | internal/database/compute/parser.go:39-42 | more than three fields is `ErrInvalidNumberOfArgs`, before the name is looked at |
| `Parser.ParseSuccess` | internal/database/compute/parser.go:44-55 | success exactly for one to three fields that pass `validate`; the command's name is the first field and its arguments are the rest, in order; the name is GET, SET or DEL with that arity; no token is empty |
| `Parser.ParseReportsValidation` | internal/database/compute/parser.go:44-53 | a line of one to three fields that fails gets `validate`'s own error unchanged, never `ErrInvalidQuery` |
| `Parser.ParseIgnoresSpacing` | internal/database/compute/parser.go:31-32 | leading and trailing whitespace, and the length or kind of a run of whitespace between tokens, do not change the result |
| `Parser.ParseLowerCaseName` | internal/database/compute/parser.go:44-53 | names are case-sensitive: `set k v` is `ErrUnknownCommand` |
| `Parser.ParseWritten` | internal/database/compute/parser.go:30-56 | a valid command written out with single spaces parses back to itself |
| `Parser.ParseJoin` | internal/database/compute/parser.go:30-47 | a line of tokens joined by single spaces is classified as exactly those tokens |
| `Parser.ParseUnknownVerb` | internal/database/compute/parser.go:49-53 | a lone unknown verb such as `FOO` is `ErrUnknownCommand` |
| `Parser.ParseGetLine` | internal/database/compute/parser.go:30-56 | `GET k` parses to the GET command with argument k |
| `Parser.ParseSetLine` | internal/database/compute/parser.go:30-56 | `SET k v` parses to the SET command with arguments k, v |
| `Parser.ParseDelLine` | internal/database/compute/parser.go:30-56 | `DEL k` parses to the DEL command with argument k |
| `Logging.OrNop` | internal/database/storage/storage.go:20-22 | a nil logger becomes the no-op logger; a supplied one is kept |
| `Engine.GetResult` | internal/database/storage/engine/in_memory/engine.go:25-37 | no error exactly when the key is present, and then the stored value; otherwise `""` and `ErrKeyNotFound` |
| `Engine.GetAfterSet` | internal/database/storage/engine/in_memory/engine.go:39-45 | after `Set(k, v)`, `Get(k)` is (v, nil) and every other key reads as before |
| `Engine.GetAfterDel` | internal/database/storage/engine/in_memory/engine.go:47-53 | after `Del(k)`, `Get(k)` is `ErrKeyNotFound`, every other key reads as before, and deleting twice is deleting once |
| `Engine.InMemoryEngine.constructor` | internal/database/storage/engine/in_memory/engine.go:14-23 | a new engine has an empty store and a nil logger becomes a no-op one; construction cannot fail |
| `Engine.InMemoryEngine.Get` | internal/database/storage/engine/in_memory/engine.go:25-37 | returns `GetResult` of the store: the value exactly when the key is present, otherwise `ErrKeyNotFound`; the store is not modified |
| `Engine.InMemoryEngine.Set` | internal/database/storage/engine/in_memory/engine.go:39-45 | the store afterwards maps the key to the value and is otherwise unchanged; never fails |
| `Engine.InMemoryEngine.Del` | internal/database/storage/engine/in_memory/engine.go:47-53 | the key is absent afterwards, whether or not it was present; every other entry is unchanged; never fails |
| `Storage.Storage.Get` | internal/database/storage/storage.go:30-32 | exactly the engine's answer |
| `Storage.Storage.Set` | internal/database/storage/storage.go:34-36 | exactly the engine's effect and result |
| `Storage.Storage.Del` | internal/database/storage/storage.go:38-40 | exactly the engine's effect and result |
| `Storage.NewStorage` | internal/database/storage/storage.go:15-28 | a nil engine is an error and yields no storage; otherwise the storage holds the engine and a nil logger becomes a no-op one |
| `Database.InMemoryRendering` | internal/database/database.go:82-118 | with the in-memory engine, GET renders as the value or the not-found text and writes render as `ok`; the `error: ` branches are never taken |
| `Database.Execute` | internal/database/database.go:60-80 | a line that does not parse leaves the store unchanged; the store changes only for a parsed SET or DEL |
| `Database.Dispatch` | internal/database/database.go:70-118 | a GET (or an unknown name) leaves the store unchanged; SET and DEL answer `ok`; after SET the key maps to the value, after DEL it is absent, and no other entry changes; `internal error` comes back only for an unknown name or a stored value with that text |
| `Database.ExecuteRejects` | internal/database/database.go:63-68 | a line that does not parse is answered `invalid query: <reason>` and the store is untouched |
| `Database.ExecuteParsed` | internal/database/database.go:60-80 | a line that parses is answered by the switch on its command, and that command has a known name with the right arity |
| `Database.ExecuteGet` | internal/database/database.go:82-95 | `GET k` answers the stored value verbatim, or `record with key "k" not found`, and leaves the store alone |
| `Database.ExecuteSet` | internal/database/database.go:97-107 | `SET k v` answers `ok`, and afterwards the store maps k to v with every other key unchanged |
| `Database.ExecuteDel` | internal/database/database.go:109-118 | `DEL k` answers `ok`, and afterwards k is absent whether or not it existed |
| `Database.SetThenGet` | internal/database/database.go:60-107 | SET k v, then GET k, returns v |
| `Database.DelThenGet` | internal/database/database.go:60-118 | DEL k, then GET k, returns the not-found text |
| `Database.NoInternalError` | internal/database/database.go:70-79 | `internal error` is unreachable after a successful parse; that text comes back only as a value someone stored |
| `Database.DispatchInternalError` | internal/database/database.go:70-80 | the switch answers `internal error` only for an unknown name, or for a GET whose stored value is that text |
| `Database.RunSteps` | internal/database/database.go:60-80 | lines handled one after another give, in order, the responses of each line on the store the previous line left |
| `Database.ExampleSession` | internal/database/database.go:60-118 | on a fresh store, SET k v, GET k, DEL k, GET k and an unparsable line answer `ok`, v, `ok`, the not-found text and `invalid query: <reason>` |
| `Database.Database.HandleQuery` | internal/database/database.go:60-80 | the response and the new store are exactly what `Execute` gives for the old store |
| `Database.Database.HandleGet` | internal/database/database.go:82-95 | the stored value, or the not-found text for an absent key |
| `Database.Database.HandleSet` | internal/database/database.go:97-107 | the store afterwards maps the key to the value; the response is `ok` |
| `Database.Database.HandleDel` | internal/database/database.go:109-118 | the key is absent afterwards; the response is `ok` |
| `Database.NewDatabase` | internal/database/database.go:20-58 | a nil logger is an error and yields no database; otherwise a fresh database over a fresh, empty in-memory store |

## Left out

- The accept loop `TCPServer.Serve`, the admission semaphore, the TCP client, options, configuration, logger construction and the `cmd/` programs: these are networking, concurrency and process glue.
- `TcpServer.TCPServer.constructor`: the failure of `net.Listen` and the options applied after the defaults are not modelled; the listener belongs to the accept loop.
- The `compute.Compute` wrapper in `compute.go`: the database holds its `Parser` directly.
- The `Engine` interface in `engine.go`: `Storage` holds an `InMemoryEngine` directly, because the model has no interface type. Engine failures other than not-found are still a case of `EngineError`, so the `error: <msg>` rendering is modelled, and proved unreachable with this engine.
- All logging calls: loggers are modelled only as present or absent.
- Strings are sequences of characters: UTF-8 decoding and invalid byte sequences are not modelled.
- The `bufio.Reader` between the connection and `handle` is not modelled. The loop reads the connection's bytes directly, which is what the buffered reader delivers.
- `cmd/server/main.go` passes `HandleQuery`, a string-to-string function, where a byte-slice handler is expected. The server and the database are therefore modelled separately and not composed.
- The handler is a pure function: a handler with its own state is not modelled.
- `TcpServer.TCPServer.Handle`: does not model a failing `conn.Write`, which in the source ends the connection early. In the model every write succeeds.
- `Command.Validate`: "does not modify the command" holds by construction, because validation is a function of the command.
- `Query.ValidatorsAgree`: "`Query.validate` does not modify the query" holds by construction for the same reason.
