/** The duplicate command type of internal/database/compute/query.go: the same
    names and arities under the field name `Command`. */
module Query {

  import opened Wrappers
  import opened Command

  datatype Query = Query(command: string, args: seq<string>)

  /** `NewQuery`: a query holding exactly the given name and arguments. */
  function NewQuery(command: string, args: seq<string>): (q: Query)
    ensures q.command == command && q.args == args
  {
    Query(command, args)
  }

  /** `Query.validate`, written as the source writes it: a switch over the
      shared name constants comparing the argument count with each arity. */
  function ValidateQuery(q: Query): (r: Outcome<ParseError>)
    ensures r == Pass <==> (q.command, |q.args|) in {("GET", 1), ("SET", 2), ("DEL", 1)}
    ensures r == Fail(UnknownCommand) <==> q.command !in {"GET", "SET", "DEL"}
    ensures r != Fail(InvalidQuery)
  {
    if q.command == Spelling(GET) then (if |q.args| != Arity(GET) then Fail(InvalidNumberOfArgs) else Pass)
    else if q.command == Spelling(SET) then (if |q.args| != Arity(SET) then Fail(InvalidNumberOfArgs) else Pass)
    else if q.command == Spelling(DEL) then (if |q.args| != Arity(DEL) then Fail(InvalidNumberOfArgs) else Pass)
    else Fail(UnknownCommand)
  }

  /** The two validators agree on every name and argument list. */
  lemma ValidatorsAgree(name: string, args: seq<string>)
    ensures ValidateQuery(NewQuery(name, args)) == Validate(Command(name, args))
  {
  }
}
