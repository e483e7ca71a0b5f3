/** The response parser above the byte grammar: what its callbacks make of the pieces of a
    response.  A callback that stops the parser is the last one. */
module HttpModel {
  /** The callbacks of http_parser; a part of the response may come in several pieces. */
  datatype Callback =
    | OnStatus(code: nat, reason: string)
    | OnField(name: string)
    | OnValue(value: string)
    | OnHeadersComplete(contentLength: nat)
    | OnBody(data: string)
    | OnMessageComplete

  datatype State = InProgress | Done | Redirect | Error

  datatype Result = Result(state: State, redirectUri: string, errStr: string, contentLength: nat)

  datatype Mode = Field | Value

  datatype Parser = Parser(
    mode: Mode,
    field: string,
    value: string,
    headers: map<string, string>,
    redirect: bool,
    result: Result,
    paused: bool,                      // no more callbacks: stopped, or the grammar was violated
    given: string)                     // history: what was handed to cb_on_data

  function New(): Parser {
    Parser(Field, "", "", map[], false, Result(InProgress, "", "", 0), false, "")
  }

  /** std::map::emplace: a key that is present keeps its value. */
  function Emplace(m: map<string, string>, key: string, value: string): map<string, string> {
    if key in m then m else m[key := value]
  }

  function Stop(p: Parser, state: State): Parser {
    p.(result := p.result.(state := state), paused := true)
  }

  function Digits(n: nat): string {
    var last := ["0123456789"[n % 10]];
    if n < 10 then last else Digits(n / 10) + last
  }

  function StatusCall(p: Parser, code: nat, reason: string): Parser {
    if code == 200 || code == 202 || code == 203 then p
    else if code == 301 || code == 302 || code == 303 then p.(redirect := true)
    else Stop(p.(result := p.result.(errStr := Digits(code) + " " + reason)), Error)
  }

  function FieldCall(p: Parser, name: string): Parser {
    match p.mode
    case Field => p.(field := p.field + name)
    case Value => p.(headers := Emplace(p.headers, p.field, p.value), field := name, value := "", mode := Field)
  }

  function ValueCall(p: Parser, value: string): Parser {
    match p.mode
    case Value => p.(value := p.value + value)
    case Field => p.(value := value, mode := Value)
  }

  /** The last header goes into the map, unless its name is empty. */
  function Flush(p: Parser): Parser {
    if p.field == "" then p else p.(headers := Emplace(p.headers, p.field, p.value), field := "", value := "")
  }

  function CompleteCall(p: Parser, contentLength: nat): Parser {
    var q := Flush(p);
    if !q.redirect then q.(result := q.result.(contentLength := contentLength))
    else if "Location" in q.headers then
      Stop(q.(result := q.result.(redirectUri := q.headers["Location"]), headers := q.headers["Location" := ""]),
           Redirect)
    else Stop(q.(result := q.result.(errStr := "Invalid redirect, missing Location header")), Error)
  }

  function Call(p: Parser, c: Callback): Parser {
    match c
    case OnStatus(code, reason) => StatusCall(p, code, reason)
    case OnField(name) => FieldCall(p, name)
    case OnValue(value) => ValueCall(p, value)
    case OnHeadersComplete(contentLength) => CompleteCall(p, contentLength)
    case OnBody(data) => p.(given := p.given + data)
    case OnMessageComplete => Stop(p, Done)
  }

  /** http_parser_execute: nothing is called once the parser is paused. */
  function Execute(p: Parser, calls: seq<Callback>): Parser
    decreases |calls|
  {
    if calls == [] || p.paused then p else Execute(Call(p, calls[0]), calls[1..])
  }

  /** One read: the callbacks it gives rise to, and what went wrong with the grammar, if anything. */
  datatype Read = Read(calls: seq<Callback>, malformed: bool, what: string)

  /** HttpParser::response_parse */
  function ResponseParse(p: Parser, read: Read): Parser {
    var q := Execute(p, read.calls);
    if read.malformed && !q.paused then q.(result := q.result.(state := Error, errStr := read.what), paused := true)
    else q
  }

  function ParseAll(p: Parser, input: seq<Read>): Parser
    decreases |input|
  {
    if input == [] then p else ParseAll(ResponseParse(p, input[0]), input[1..])
  }
}
