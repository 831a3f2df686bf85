/** Commands and their validation (internal/database/compute/command.go). */
module Command {

  import opened Wrappers

  /** The three command names the store understands. */
  datatype CommandName = GET | SET | DEL

  /** How each name is written on the wire; names are case-sensitive. */
  function Spelling(name: CommandName): (s: string)
  {
    match name
    case GET => "GET"
    case SET => "SET"
    case DEL => "DEL"
  }

  /** The command name a token stands for, if any. */
  function NameOf(token: string): (name: Option<CommandName>)
    ensures name.Some? <==> token in {"GET", "SET", "DEL"}
    ensures name.Some? ==> Spelling(name.value) == token
  {
    if token == "GET" then Some(GET)
    else if token == "SET" then Some(SET)
    else if token == "DEL" then Some(DEL)
    else None
  }

  /** `NameOf` recognises exactly the spellings of the three names. */
  lemma NameOfSpelling(token: string, name: CommandName)
    ensures NameOf(token) == Some(name) <==> token == Spelling(name)
    ensures NameOf(token).None? <==> token !in {"GET", "SET", "DEL"}
  {
  }

  /** The fixed number of arguments each command takes. */
  function Arity(name: CommandName): (n: nat)
    ensures 1 <= n <= 2
    ensures n == 2 <==> name == SET
  {
    match name
    case GET => 1  // getCommandArgsCount
    case SET => 2  // setCommandArgsCount
    case DEL => 1  // delCommandArgsCount
  }

  /** The errors parsing and validation report, with their messages. */
  datatype ParseError =
    | InvalidQuery        // ErrInvalidQuery
    | InvalidNumberOfArgs // ErrInvalidNumberOfArgs
    | UnknownCommand      // ErrUnknownCommand

  function Message(e: ParseError): (m: string)
  {
    match e
    case InvalidQuery => "invalid query"
    case InvalidNumberOfArgs => "invalid number of args"
    case UnknownCommand => "unknown command"
  }

  /** A command as the parser builds it: the name is the raw first token
      (Go's `CommandName` is an open string type), the arguments the rest. */
  datatype Command = Command(name: string, args: seq<string>)

  /** `Command.validate`: nil exactly for GET with one argument, SET with two
      and DEL with one; a known name with another count is
      `ErrInvalidNumberOfArgs`; any other name is `ErrUnknownCommand`,
      whatever the arguments. */
  function Validate(c: Command): (r: Outcome<ParseError>)
    ensures r == Pass <==> (c.name, |c.args|) in {("GET", 1), ("SET", 2), ("DEL", 1)}
    ensures r == Fail(UnknownCommand) <==> c.name !in {"GET", "SET", "DEL"}
    ensures r == Fail(InvalidNumberOfArgs) <==>
              (c.name in {"GET", "SET", "DEL"} && (c.name, |c.args|) !in {("GET", 1), ("SET", 2), ("DEL", 1)})
    ensures r != Fail(InvalidQuery)
  {
    match NameOf(c.name)
    case None => Fail(UnknownCommand)
    case Some(name) => if |c.args| != Arity(name) then Fail(InvalidNumberOfArgs) else Pass
  }
}
