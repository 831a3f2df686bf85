/** The command-line parser (internal/database/compute/parser.go): trim the
    line, split it into whitespace-separated tokens, reject an empty line,
    reject more than three tokens, then build and validate a `Command`. */
module Parser {

  import opened Wrappers
  import opened Logging
  import opened Command

  /** Go's `unicode.IsSpace`: the characters with the Unicode White_Space
      property. */
  predicate IsSpace(c: char)
  {
    || ('\t' <= c <= '\r') || c == ' ' || c == '\U{85}' || c == '\U{A0}'
    || c == '\U{1680}' || ('\U{2000}' <= c <= '\U{200A}') || c == '\U{2028}' || c == '\U{2029}'
    || c == '\U{202F}' || c == '\U{205F}' || c == '\U{3000}'
  }

  predicate AllSpace(s: string)
  {
    forall i :: 0 <= i < |s| ==> IsSpace(s[i])
  }

  /** A token `Fields` can produce: non-empty and free of whitespace. */
  predicate IsToken(t: string)
  {
    t != [] && forall i :: 0 <= i < |t| ==> !IsSpace(t[i])
  }

  /** `strings.TrimSpace`: drop leading and trailing whitespace. */
  function TrimSpace(s: string): (r: string)
  {
    TrimRight(TrimLeft(s))
  }

  function TrimLeft(s: string): (r: string)
  {
    if s != [] && IsSpace(s[0]) then TrimLeft(s[1..]) else s
  }

  function TrimRight(s: string): (r: string)
  {
    if s != [] && IsSpace(s[|s| - 1]) then TrimRight(s[..|s| - 1]) else s
  }

  /** `TrimLeft` removes a prefix made only of whitespace, and all of it: what
      remains is empty or starts with a non-space character. */
  lemma {:induction false} TrimLeftSpec(s: string)
    ensures |TrimLeft(s)| <= |s| && TrimLeft(s) == s[|s| - |TrimLeft(s)|..]
    ensures TrimLeft(s) == [] || !IsSpace(TrimLeft(s)[0])
    ensures AllSpace(s[..|s| - |TrimLeft(s)|])
    decreases |s|
  {
    if s != [] && IsSpace(s[0]) {
      var t := s[1..];
      var r := TrimLeft(t);
      TrimLeftSpec(t);
      assert TrimLeft(s) == r;
      assert t[|t| - |r|..] == s[|s| - |r|..];
      assert s[..|s| - |r|] == [s[0]] + t[..|t| - |r|];
    }
  }

  /** `TrimRight` removes a suffix made only of whitespace, and all of it:
      what remains is empty or ends with a non-space character. */
  lemma {:induction false} TrimRightSpec(s: string)
    ensures |TrimRight(s)| <= |s| && TrimRight(s) == s[..|TrimRight(s)|]
    ensures TrimRight(s) == [] || !IsSpace(TrimRight(s)[|TrimRight(s)| - 1])
    ensures AllSpace(s[|TrimRight(s)|..])
    decreases |s|
  {
    if s != [] && IsSpace(s[|s| - 1]) {
      var t := s[..|s| - 1];
      var r := TrimRight(t);
      TrimRightSpec(t);
      assert TrimRight(s) == r;
      assert t[..|r|] == s[..|r|];
      assert s[|r|..] == t[|r|..] + [s[|s| - 1]];
    }
  }

  /** The length of the run of non-space characters `s` starts with. */
  function TokenLength(s: string): (n: nat)
    ensures n <= |s|
  {
    if s == [] || IsSpace(s[0]) then 0 else 1 + TokenLength(s[1..])
  }

  /** The run is maximal: no whitespace inside it, whitespace (or the end)
      right after it. */
  lemma {:induction false} TokenLengthSpec(s: string)
    ensures forall i :: 0 <= i < TokenLength(s) ==> !IsSpace(s[i])
    ensures TokenLength(s) < |s| ==> IsSpace(s[TokenLength(s)])
    decreases |s|
  {
    if s != [] && !IsSpace(s[0]) {
      TokenLengthSpec(s[1..]);
      assert forall i :: 1 <= i < TokenLength(s) ==> s[i] == s[1..][i - 1];
    }
  }

  /** `strings.Fields`: the maximal runs of non-space characters, in order. */
  function Fields(s: string): (tokens: seq<string>)
    decreases |s|
  {
    if s == [] then []
    else if IsSpace(s[0]) then Fields(s[1..])
    else
      var n := TokenLength(s);
      [s[..n]] + Fields(s[n..])
  }
  /** Every field is a token: non-empty and free of whitespace. */
  lemma {:induction false} FieldsAreTokens(s: string)
    ensures forall i :: 0 <= i < |Fields(s)| ==> IsToken(Fields(s)[i])
    decreases |s|
  {
    if s != [] {
      if IsSpace(s[0]) {
        FieldsAreTokens(s[1..]);
      } else {
        var n := TokenLength(s);
        TokenLengthSpec(s);
        FieldsAreTokens(s[n..]);
        assert Fields(s) == [s[..n]] + Fields(s[n..]);
      }
    }
  }


  /** Tokens written out with one space between neighbours. */
  function Join(tokens: seq<string>): (s: string)
  {
    if tokens == [] then []
    else if |tokens| == 1 then tokens[0]
    else tokens[0] + " " + Join(tokens[1..])
  }

  /** Two tokens written out. */
  lemma JoinTwo(a: string, b: string)
    ensures Join([a, b]) == a + " " + b
  {
    assert [a, b][1..] == [b];
  }

  /** Three tokens written out. */
  lemma JoinThree(a: string, b: string, c: string)
    ensures Join([a, b, c]) == a + " " + b + " " + c
  {
    JoinTwo(b, c);
    assert [a, b, c][1..] == [b, c];
    assert Join([a, b, c]) == a + " " + Join([b, c]);
    assert a + " " + (b + " " + c) == a + " " + b + " " + c;
  }

  /** Whitespace only: no tokens. */
  lemma {:induction false} FieldsOfSpace(w: string)
    requires AllSpace(w)
    ensures Fields(w) == []
    decreases |w|
  {
    if w != [] {
      FieldsOfSpace(w[1..]);
    }
  }

  /** A token extends exactly up to the first whitespace character. */
  lemma {:induction false} TokenLengthAppend(x: string, y: string)
    requires y == [] || IsSpace(y[0])
    ensures TokenLength(x + y) == TokenLength(x)
    decreases |x|
  {
    if x != [] && !IsSpace(x[0]) {
      assert (x + y)[1..] == x[1..] + y;
      TokenLengthAppend(x[1..], y);
    } else if x == [] {
      assert x + y == y;
    }
  }

  /** A non-empty run of whitespace at the front is skipped. */
  lemma {:induction false} FieldsAfterSpace(w: string, y: string)
    requires w != [] && AllSpace(w)
    ensures Fields(w + y) == Fields(y)
    decreases |w|
  {
    assert (w + y)[1..] == w[1..] + y;
    if |w| > 1 {
      FieldsAfterSpace(w[1..], y);
    } else {
      assert w[1..] + y == y;
    }
  }

  /** A non-empty run of whitespace separates tokens and is itself invisible:
      how long it is, and what whitespace it holds, does not matter. */
  lemma {:induction false} FieldsSplit(x: string, w: string, y: string)
    requires w != [] && AllSpace(w)
    ensures Fields(x + w + y) == Fields(x) + Fields(y)
    decreases |x|
  {
    if x == [] {
      assert x + w + y == w + y;
      FieldsAfterSpace(w, y);
    } else if IsSpace(x[0]) {
      assert (x + w + y)[1..] == x[1..] + w + y;
      FieldsSplit(x[1..], w, y);
    } else {
      var n := TokenLength(x);
      TokenLengthAppend(x, w + y);
      assert x + w + y == x + (w + y);
      assert (x + w + y)[..n] == x[..n];
      assert (x + w + y)[n..] == x[n..] + w + y;
      FieldsSplit(x[n..], w, y);
    }
  }

  /** Trailing whitespace does not change the tokens. */
  lemma {:induction false} FieldsTrailingSpace(x: string, w: string)
    requires AllSpace(w)
    ensures Fields(x + w) == Fields(x)
  {
    if w == [] {
      assert x + w == x;
    } else {
      FieldsSplit(x, w, []);
      assert x + w + [] == x + w;
    }
  }

  /** Leading whitespace does not change the tokens. */
  lemma {:induction false} FieldsLeadingSpace(w: string, x: string)
    requires AllSpace(w)
    ensures Fields(w + x) == Fields(x)
  {
    if w == [] {
      assert w + x == x;
    } else {
      FieldsAfterSpace(w, x);
    }
  }

  /** Trimming before splitting, as `Parse` does, changes nothing. */
  lemma {:induction false} FieldsTrimSpace(s: string)
    ensures Fields(TrimSpace(s)) == Fields(s)
  {
    FieldsTrimLeft(s);
    FieldsTrimRight(TrimLeft(s));
  }

  lemma {:induction false} FieldsTrimLeft(s: string)
    ensures Fields(TrimLeft(s)) == Fields(s)
  {
    var l := TrimLeft(s);
    TrimLeftSpec(s);
    var w := s[..|s| - |l|];
    assert s == w + l;
    FieldsLeadingSpace(w, l);
  }

  lemma {:induction false} FieldsTrimRight(s: string)
    ensures Fields(TrimRight(s)) == Fields(s)
  {
    var r := TrimRight(s);
    TrimRightSpec(s);
    var w := s[|r|..];
    assert s == r + w;
    FieldsTrailingSpace(r, w);
  }

  /** A token is one run: its token length is its whole length. */
  lemma {:induction false} TokenLengthOfToken(t: string)
    requires forall i :: 0 <= i < |t| ==> !IsSpace(t[i])
    ensures TokenLength(t) == |t|
    decreases |t|
  {
    if t != [] {
      assert forall i :: 0 <= i < |t[1..]| ==> t[1..][i] == t[i + 1];
      TokenLengthOfToken(t[1..]);
    }
  }

  /** A single token splits to itself. */
  lemma {:induction false} FieldsOfToken(t: string)
    requires IsToken(t)
    ensures Fields(t) == [t]
  {
    assert !IsSpace(t[0]);
    TokenLengthOfToken(t);
    assert t[..|t|] == t && t[|t|..] == [];
  }

  /** Round trip: tokens joined by single spaces split back into themselves. */
  lemma {:induction false} FieldsOfJoin(tokens: seq<string>)
    requires forall i :: 0 <= i < |tokens| ==> IsToken(tokens[i])
    ensures Fields(Join(tokens)) == tokens
    decreases |tokens|
  {
    if tokens == [] {
    } else if |tokens| == 1 {
      FieldsOfToken(tokens[0]);
    } else {
      FieldsSplit(tokens[0], " ", Join(tokens[1..]));
      FieldsOfToken(tokens[0]);
      FieldsOfJoin(tokens[1..]);
    }
  }

  /** The maximum number of tokens a line may hold, name included. */
  const MaxArgs := 3

  /** What `Parse` makes of a line's tokens: none is `ErrInvalidQuery`, more
      than three is `ErrInvalidNumberOfArgs`, otherwise the first token names
      the command, the rest are its arguments, and `validate` decides. */
  function Classify(parts: seq<string>): (r: Result<Command, ParseError>)
  {
    if |parts| == 0 then Failure(InvalidQuery)
    else if |parts| > MaxArgs then Failure(InvalidNumberOfArgs)
    else
      var command := Command(parts[0], parts[1..]);
      match Validate(command)
      case Fail(e) => Failure(e)
      case Pass => Success(command)
  }

  /** The parser holds only its logger. */
  datatype Parser = Parser(logger: Logger) {

    /** `Parser.Parse`: trim, split into tokens, classify. */
    function Parse(line: string): (r: Result<Command, ParseError>)
      ensures r.Success? ==> Validate(r.value) == Pass && 1 + |r.value.args| <= MaxArgs
      ensures r == Failure(InvalidQuery) <==> Fields(TrimSpace(line)) == []
    {
      Classify(Fields(TrimSpace(line)))
    }
  }

  /** `NewParser`: a nil logger is refused. */
  function NewParser(logger: Option<Logger>): (r: Result<Parser, string>)
    ensures r.Failure? <==> logger.None?
    ensures r.Success? ==> r.value.logger == logger.value
  {
    if logger.None? then Failure("no logger provided") else Success(Parser(logger.value))
  }

  /** `Parse` classifies the line's tokens; the trimming it does first
      changes none of them. */
  lemma {:induction false} ParseTokens(p: Parser, line: string)
    ensures p.Parse(line) == Classify(Fields(line))
  {
    FieldsTrimSpace(line);
  }

  /** `Parse` sees a line only through its tokens. */
  lemma {:induction false} ParseByTokens(p: Parser, a: string, b: string)
    requires Fields(a) == Fields(b)
    ensures p.Parse(a) == p.Parse(b)
  {
    ParseTokens(p, a);
    ParseTokens(p, b);
  }

  /** A line without tokens (empty, or whitespace only) is `ErrInvalidQuery`,
      and that is the only way to get this error. */
  lemma {:induction false} ParseEmpty(p: Parser, line: string)
    ensures p.Parse(line) == Failure(InvalidQuery) <==> Fields(line) == []
    ensures AllSpace(line) ==> p.Parse(line) == Failure(InvalidQuery)
  {
    ParseTokens(p, line);
    if AllSpace(line) {
      FieldsOfSpace(line);
    }
  }

  /** More than three tokens is `ErrInvalidNumberOfArgs` before the name is
      looked at: an unknown name with too many arguments still gets it. */
  lemma {:induction false} ParseTooMany(p: Parser, line: string)
    requires |Fields(line)| > MaxArgs
    ensures p.Parse(line) == Failure(InvalidNumberOfArgs)
  {
    ParseTokens(p, line);
  }

  /** A parsed command is the line's first token and its remaining tokens in
      order; it names GET, SET or DEL and carries exactly that name's number of
      arguments, none of them empty. Parsing succeeds exactly for such lines. */
  lemma {:induction false} ParseSuccess(p: Parser, line: string)
    ensures p.Parse(line).Success? <==>
              (1 <= |Fields(line)| <= MaxArgs && Validate(Command(Fields(line)[0], Fields(line)[1..])) == Pass)
    ensures p.Parse(line).Success? ==>
              var c := p.Parse(line).value;
              && c.name == Fields(line)[0] && c.args == Fields(line)[1..]
              && NameOf(c.name).Some? && |c.args| == Arity(NameOf(c.name).value)
              && IsToken(c.name) && forall i :: 0 <= i < |c.args| ==> IsToken(c.args[i])
  {
    ParseTokens(p, line);
    FieldsAreTokens(line);
  }

  /** A line with one to three tokens that fails gets `validate`'s own
      error, unchanged: an unknown name or a wrong argument count. */
  lemma {:induction false} ParseReportsValidation(p: Parser, line: string)
    requires 1 <= |Fields(line)| <= MaxArgs
    ensures p.Parse(line).Failure? ==>
              Validate(Command(Fields(line)[0], Fields(line)[1..])) == Fail(p.Parse(line).error)
    ensures p.Parse(line).Failure? ==> p.Parse(line).error != InvalidQuery
  {
    ParseTokens(p, line);
  }

  /** Padding a line with whitespace, or replacing one run of whitespace
      inside it by another, does not change what it parses to. */
  lemma {:induction false} ParseIgnoresSpacing(p: Parser, w1: string, x: string, w2: string, y: string)
    requires AllSpace(w1) && w2 != [] && AllSpace(w2)
    ensures p.Parse(w1 + x + w2) == p.Parse(x)
    ensures p.Parse(x + w2 + y) == p.Parse(x + " " + y)
  {
    FieldsLeadingSpace(w1, x + w2);
    assert w1 + x + w2 == w1 + (x + w2);
    FieldsTrailingSpace(x, w2);
    ParseByTokens(p, w1 + x + w2, x);
    FieldsSplit(x, w2, y);
    FieldsSplit(x, " ", y);
    ParseByTokens(p, x + w2 + y, x + " " + y);
  }

  /** Command names are case-sensitive: `set k v` is an unknown command. */
  lemma {:induction false} ParseLowerCaseName(p: Parser, key: string, value: string)
    requires IsToken(key) && IsToken(value)
    ensures p.Parse("set " + key + " " + value) == Failure(UnknownCommand)
  {
    var tokens := ["set", key, value];
    assert Join(tokens) == "set " + key + " " + value by {
      JoinThree("set", key, value);
      assert "set" + " " == "set ";
    }
    ParseJoin(p, tokens);
  }


  /** A valid command written out with single spaces parses back to itself. */
  lemma {:induction false} ParseWritten(p: Parser, name: CommandName, args: seq<string>)
    requires |args| == Arity(name)
    requires forall i :: 0 <= i < |args| ==> IsToken(args[i])
    ensures p.Parse(Join([Spelling(name)] + args)) == Success(Command(Spelling(name), args))
  {
    var tokens := [Spelling(name)] + args;
    ParseJoin(p, tokens);
    assert tokens[1..] == args;
  }

  /** A line written as tokens joined by single spaces is classified as
      those tokens. */
  lemma {:induction false} ParseJoin(p: Parser, tokens: seq<string>)
    requires forall i :: 0 <= i < |tokens| ==> IsToken(tokens[i])
    ensures p.Parse(Join(tokens)) == Classify(tokens)
  {
    FieldsOfJoin(tokens);
    ParseTokens(p, Join(tokens));
  }



  /** A lone unknown verb is an unknown command. */
  lemma {:induction false} ParseUnknownVerb(p: Parser)
    ensures p.Parse("FOO") == Failure(UnknownCommand)
  {
    FieldsOfToken("FOO");
    ParseTokens(p, "FOO");
  }


  /** The three command lines as a client types them. */
  lemma {:induction false} ParseGetLine(p: Parser, key: string)
    requires IsToken(key)
    ensures p.Parse("GET " + key) == Success(Command("GET", [key]))
  {
    var tokens := [Spelling(GET)] + [key];
    assert Join(tokens) == "GET " + key by {
      assert tokens == ["GET"] + [key];
      JoinTwo("GET", key);
      assert "GET" + " " == "GET ";
    }
    ParseWritten(p, GET, [key]);
  }

  lemma {:induction false} ParseSetLine(p: Parser, key: string, value: string)
    requires IsToken(key) && IsToken(value)
    ensures p.Parse("SET " + key + " " + value) == Success(Command("SET", [key, value]))
  {
    var tokens := [Spelling(SET)] + [key, value];
    assert Join(tokens) == "SET " + key + " " + value by {
      assert tokens == ["SET"] + [key, value];
      JoinThree("SET", key, value);
      assert "SET" + " " == "SET ";
    }
    ParseWritten(p, SET, [key, value]);
  }

  lemma {:induction false} ParseDelLine(p: Parser, key: string)
    requires IsToken(key)
    ensures p.Parse("DEL " + key) == Success(Command("DEL", [key]))
  {
    var tokens := [Spelling(DEL)] + [key];
    assert Join(tokens) == "DEL " + key by {
      assert tokens == ["DEL"] + [key];
      JoinTwo("DEL", key);
      assert "DEL" + " " == "DEL ";
    }
    ParseWritten(p, DEL, [key]);
  }
}
