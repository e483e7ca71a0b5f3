/** However a response is cut into pieces and reads, the parser makes the same of it. */
module HttpTheorems {
  import opened HttpModel

  // ----------------------------------------------------------------------------- the response

  datatype Header = Header(name: string, value: string)

  /** A header whose name and value arrive in pieces. */
  datatype Cut = Cut(names: seq<string>, values: seq<string>)

  datatype Response = Response(code: nat, reasons: seq<string>, cuts: seq<Cut>, contentLength: nat, bodies: seq<string>)

  function Join(pieces: seq<string>): string {
    if pieces == [] then "" else pieces[0] + Join(pieces[1..])
  }

  function Whole(cuts: seq<Cut>): (headers: seq<Header>)
    ensures |headers| == |cuts|
  {
    if cuts == [] then []
    else Whole(cuts[..|cuts| - 1]) + [Header(Join(cuts[|cuts| - 1].names), Join(cuts[|cuts| - 1].values))]
  }

  function Statuses(code: nat, reasons: seq<string>): seq<Callback> {
    if reasons == [] then [] else [OnStatus(code, reasons[0])] + Statuses(code, reasons[1..])
  }

  function Fields(names: seq<string>): seq<Callback> {
    if names == [] then [] else [OnField(names[0])] + Fields(names[1..])
  }

  function Values(values: seq<string>): seq<Callback> {
    if values == [] then [] else [OnValue(values[0])] + Values(values[1..])
  }

  function Headers(cuts: seq<Cut>): seq<Callback> {
    if cuts == [] then []
    else Headers(cuts[..|cuts| - 1]) + (Fields(cuts[|cuts| - 1].names) + Values(cuts[|cuts| - 1].values))
  }

  function Bodies(bodies: seq<string>): seq<Callback> {
    if bodies == [] then [] else [OnBody(bodies[0])] + Bodies(bodies[1..])
  }

  /** The callbacks for a complete response. */
  function Callbacks(r: Response): seq<Callback> {
    Statuses(r.code, r.reasons)
    + (Headers(r.cuts) + ([OnHeadersComplete(r.contentLength)] + (Bodies(r.bodies) + [OnMessageComplete])))
  }

  /** At least one callback for the status, each name and each value. */
  ghost predicate Spoken(r: Response) {
    r.reasons != [] && forall i :: 0 <= i < |r.cuts| ==> r.cuts[i].names != [] && r.cuts[i].values != []
  }

  function FirstWins(headers: seq<Header>): map<string, string> {
    if headers == [] then map[]
    else
      var last := headers[|headers| - 1];
      Emplace(FirstWins(headers[..|headers| - 1]), last.name, last.value)
  }

  /** The first header of that name, or the number of headers. */
  function First(headers: seq<Header>, name: string): (k: nat)
    ensures k <= |headers|
    ensures k < |headers| ==> headers[k].name == name
    ensures forall j :: 0 <= j < k ==> headers[j].name != name
  {
    if headers == [] then 0 else if headers[0].name == name then 0 else 1 + First(headers[1..], name)
  }

  lemma FirstIs(headers: seq<Header>, name: string, k: nat)
    requires k <= |headers| && (k < |headers| ==> headers[k].name == name)
    requires forall j :: 0 <= j < k ==> headers[j].name != name
    ensures First(headers, name) == k
  {
  }

  lemma FirstOfInit(headers: seq<Header>, name: string)
    requires headers != []
    ensures var init := headers[..|headers| - 1];
            First(headers, name) == if First(init, name) < |init| then First(init, name)
                                    else if headers[|headers| - 1].name == name then |headers| - 1 else |headers|
  {
    var init := headers[..|headers| - 1];
    var k := First(init, name);
    assert forall j :: 0 <= j < |init| ==> init[j] == headers[j];
    FirstIs(headers, name, if k == |init| && headers[k].name != name then |headers| else k);
  }

  /** Repeated headers keep the first value. */
  lemma {:induction false} FirstWinsAt(headers: seq<Header>, name: string)
    ensures name in FirstWins(headers) <==> First(headers, name) < |headers|
    ensures name in FirstWins(headers) ==> FirstWins(headers)[name] == headers[First(headers, name)].value
    decreases |headers|
  {
    if headers != [] {
      FirstWinsAt(headers[..|headers| - 1], name);
      FirstOfInit(headers, name);
    }
  }

  /** The headers that get into the map: a last one without a name does not. */
  function Kept(headers: seq<Header>): seq<Header> {
    if headers != [] && headers[|headers| - 1].name == "" then headers[..|headers| - 1] else headers
  }

  // -------------------------------------------------------------------------------- the pieces

  lemma {:induction false} ExecuteConcat(p: Parser, a: seq<Callback>, b: seq<Callback>)
    ensures Execute(p, a + b) == Execute(Execute(p, a), b)
    decreases |a|
  {
    if a == [] {
      assert a + b == b;
    } else if !p.paused {
      assert (a + b)[1..] == a[1..] + b;
      ExecuteConcat(Call(p, a[0]), a[1..], b);
    }
  }

  lemma {:induction false} MoreFields(p: Parser, names: seq<string>)
    requires !p.paused && p.mode == Field
    ensures Execute(p, Fields(names)) == p.(field := p.field + Join(names))
    decreases |names|
  {
    if names == [] {
      assert p.field + "" == p.field;
    } else {
      MoreFields(FieldCall(p, names[0]), names[1..]);
      assert p.field + names[0] + Join(names[1..]) == p.field + Join(names);
      assert Fields(names)[1..] == Fields(names[1..]);
    }
  }

  lemma {:induction false} MoreValues(p: Parser, values: seq<string>)
    requires !p.paused && p.mode == Value
    ensures Execute(p, Values(values)) == p.(value := p.value + Join(values))
    decreases |values|
  {
    if values == [] {
      assert p.value + "" == p.value;
    } else {
      MoreValues(ValueCall(p, values[0]), values[1..]);
      assert p.value + values[0] + Join(values[1..]) == p.value + Join(values);
      assert Values(values)[1..] == Values(values[1..]);
    }
  }

  /** The parser has seen these headers; the last of them is not in the map yet. */
  ghost predicate Assembled(p: Parser, headers: seq<Header>) {
    if headers == [] then p.mode == Field && p.field == "" && p.headers == map[]
    else
      var last := headers[|headers| - 1];
      && p.mode == Value && p.field == last.name && p.value == last.value
      && p.headers == FirstWins(headers[..|headers| - 1])
  }

  /** All that the headers do not touch. */
  ghost predicate SameOtherwise(p: Parser, q: Parser) {
    q.redirect == p.redirect && q.result == p.result && q.paused == p.paused && q.given == p.given
  }

  lemma FieldAssembles(p: Parser, names: seq<string>, headers: seq<Header>)
    requires Assembled(p, headers) && !p.paused && names != []
    ensures var q := Execute(p, Fields(names));
            && q.mode == Field && q.field == Join(names) && q.headers == FirstWins(headers) && SameOtherwise(p, q)
  {
    assert Fields(names)[1..] == Fields(names[1..]);
    MoreFields(FieldCall(p, names[0]), names[1..]);
    assert "" + names[0] == names[0];
  }

  lemma ValueAssembles(p: Parser, values: seq<string>)
    requires p.mode == Field && !p.paused && values != []
    ensures var q := Execute(p, Values(values));
            && q.mode == Value && q.value == Join(values) && q.field == p.field
            && q.headers == p.headers && SameOtherwise(p, q)
  {
    assert Values(values)[1..] == Values(values[1..]);
    MoreValues(ValueCall(p, values[0]), values[1..]);
  }

  lemma {:induction false} HeadersAssemble(p: Parser, cuts: seq<Cut>)
    requires Assembled(p, []) && !p.paused
    requires forall i :: 0 <= i < |cuts| ==> cuts[i].names != [] && cuts[i].values != []
    ensures Assembled(Execute(p, Headers(cuts)), Whole(cuts)) && SameOtherwise(p, Execute(p, Headers(cuts)))
    decreases |cuts|
  {
    if cuts != [] {
      var init, last := cuts[..|cuts| - 1], cuts[|cuts| - 1];
      HeadersAssemble(p, init);
      var q := Execute(p, Headers(init));
      FieldAssembles(q, last.names, Whole(init));
      var r := Execute(q, Fields(last.names));
      ValueAssembles(r, last.values);
      ExecuteConcat(q, Fields(last.names), Values(last.values));
      ExecuteConcat(p, Headers(init), Fields(last.names) + Values(last.values));
      assert Whole(cuts)[..|cuts| - 1] == Whole(init);
    }
  }

  lemma FlushAssembled(p: Parser, headers: seq<Header>)
    requires Assembled(p, headers)
    ensures Flush(p).headers == FirstWins(Kept(headers)) && SameOtherwise(p, Flush(p))
  {
  }

  lemma {:induction false} StatusesGo(p: Parser, code: nat, reasons: seq<string>)
    requires !p.paused && code in {200, 202, 203, 301, 302, 303} && reasons != []
    ensures Execute(p, Statuses(code, reasons)) == p.(redirect := p.redirect || code in {301, 302, 303})
    decreases |reasons|
  {
    assert Statuses(code, reasons)[1..] == Statuses(code, reasons[1..]);
    if |reasons| > 1 {
      StatusesGo(StatusCall(p, code, reasons[0]), code, reasons[1..]);
    } else {
      assert reasons[1..] == [];
    }
  }

  lemma {:induction false} BodiesGo(p: Parser, bodies: seq<string>)
    requires !p.paused
    ensures Execute(p, Bodies(bodies)) == p.(given := p.given + Join(bodies))
    decreases |bodies|
  {
    if bodies == [] {
      assert p.given + "" == p.given;
    } else {
      BodiesGo(p.(given := p.given + bodies[0]), bodies[1..]);
      assert p.given + bodies[0] + Join(bodies[1..]) == p.given + Join(bodies);
      assert Bodies(bodies)[1..] == Bodies(bodies[1..]);
    }
  }

  lemma PausedStays(p: Parser, calls: seq<Callback>)
    requires p.paused
    ensures Execute(p, calls) == p
  {
  }

  // ------------------------------------------------------------------------------- the reads

  function Flatten(input: seq<Read>): seq<Callback> {
    if input == [] then [] else input[0].calls + Flatten(input[1..])
  }

  /** The input contains the whole response, and the grammar has no objection. */
  ghost predicate Carries(input: seq<Read>, r: Response) {
    Flatten(input) == Callbacks(r) && forall i :: 0 <= i < |input| ==> !input[i].malformed
  }

  lemma {:induction false} ParseFlat(p: Parser, input: seq<Read>)
    requires forall i :: 0 <= i < |input| ==> !input[i].malformed
    ensures ParseAll(p, input) == Execute(p, Flatten(input))
    decreases |input|
  {
    if input != [] {
      ExecuteConcat(p, input[0].calls, Flatten(input[1..]));
      ParseFlat(ResponseParse(p, input[0]), input[1..]);
    }
  }

  // ---------------------------------------------------------------------------- main results

  /** The part after the status. */
  function Rest(r: Response): seq<Callback> {
    Headers(r.cuts) + ([OnHeadersComplete(r.contentLength)] + (Bodies(r.bodies) + [OnMessageComplete]))
  }

  /** The parser when the headers are complete. */
  lemma HeadersDone(p: Parser, r: Response)
    requires Spoken(r) && Assembled(p, []) && !p.paused
    ensures var q := Execute(p, Headers(r.cuts));
            && SameOtherwise(p, q) && Flush(q).headers == FirstWins(Kept(Whole(r.cuts))) && SameOtherwise(p, Flush(q))
            && Execute(p, Rest(r)) == Execute(CompleteCall(q, r.contentLength), Bodies(r.bodies) + [OnMessageComplete])
  {
    var q := Execute(p, Headers(r.cuts));
    HeadersAssemble(p, r.cuts);
    FlushAssembled(q, Whole(r.cuts));
    var tail := Bodies(r.bodies) + [OnMessageComplete];
    ExecuteConcat(p, Headers(r.cuts), [OnHeadersComplete(r.contentLength)] + tail);
    assert ([OnHeadersComplete(r.contentLength)] + tail)[1..] == tail;
  }

  /** From complete headers on. */
  lemma BodyDone(q: Parser, bodies: seq<string>)
    requires !q.paused
    ensures Execute(q, Bodies(bodies) + [OnMessageComplete]) == Stop(q.(given := q.given + Join(bodies)), Done)
  {
    BodiesGo(q, bodies);
    ExecuteConcat(q, Bodies(bodies), [OnMessageComplete]);
  }

  /** A response with content is done when it is complete: its body has been handed over, byte
      for byte, however it was cut. */
  lemma ContentDelivered(input: seq<Read>, r: Response)
    requires Spoken(r) && Carries(input, r) && r.code in {200, 202, 203}
    ensures var p := ParseAll(New(), input);
            && p.result == Result(Done, "", "", r.contentLength)
            && p.given == Join(r.bodies)
            && p.headers == FirstWins(Kept(Whole(r.cuts)))
  {
    ParseFlat(New(), input);
    ExecuteConcat(New(), Statuses(r.code, r.reasons), Rest(r));
    StatusesGo(New(), r.code, r.reasons);
    assert New().(redirect := false) == New();
    HeadersDone(New(), r);
    BodyDone(CompleteCall(Execute(New(), Headers(r.cuts)), r.contentLength), r.bodies);
    assert "" + Join(r.bodies) == Join(r.bodies);
  }

  /** A 301, 302 or 303 redirects to the full value of the first header named exactly "Location",
      if there is one, and is an error otherwise; no byte of its body is handed over. */
  lemma RedirectFollowed(input: seq<Read>, r: Response)
    requires Spoken(r) && Carries(input, r) && r.code in {301, 302, 303}
    ensures var p := ParseAll(New(), input);
            var k := First(Whole(r.cuts), "Location");
            && p.given == ""
            && if k < |r.cuts| then p.result == Result(Redirect, Whole(r.cuts)[k].value, "", 0)
               else p.result == Result(Error, "", "Invalid redirect, missing Location header", 0)
  {
    ParseFlat(New(), input);
    ExecuteConcat(New(), Statuses(r.code, r.reasons), Rest(r));
    StatusesGo(New(), r.code, r.reasons);
    var p := Execute(New(), Statuses(r.code, r.reasons));
    HeadersDone(p, r);
    LocationKept(Whole(r.cuts));
    FirstWinsAt(Kept(Whole(r.cuts)), "Location");
    PausedStays(CompleteCall(Execute(p, Headers(r.cuts)), r.contentLength), Bodies(r.bodies) + [OnMessageComplete]);
  }

  lemma LocationKept(headers: seq<Header>)
    ensures First(headers, "Location") < |headers| ==> First(Kept(headers), "Location") == First(headers, "Location")
    ensures First(headers, "Location") == |headers| ==> First(Kept(headers), "Location") == |Kept(headers)|
    ensures Kept(headers) <= headers
  {
    var k, k' := First(headers, "Location"), First(Kept(headers), "Location");
    assert k < |headers| ==> headers[k].name == "Location";
  }

  /** The number that a string of decimal digits denotes. */
  function Number(s: string): nat {
    if s == "" then 0 else 10 * Number(s[..|s| - 1]) + Digit(s[|s| - 1])
  }

  function Digit(c: char): nat {
    if '0' <= c <= '9' then c as nat - '0' as nat else 0
  }

  /** The code in the text of an error is its decimal numeral: digits only, no leading zero. */
  lemma {:induction false} DigitsDenote(n: nat)
    ensures var s := Digits(n);
            && s != "" && Number(s) == n
            && (forall k :: 0 <= k < |s| ==> '0' <= s[k] <= '9')
            && (s[0] == '0' ==> s == "0")
  {
    if n >= 10 {
      DigitsDenote(n / 10);
      var s := Digits(n);
      assert s[..|s| - 1] == Digits(n / 10);
    }
  }

  /** Any other status is an error at once, whatever follows. */
  lemma OtherStatusFails(input: seq<Read>, r: Response)
    requires Spoken(r) && Carries(input, r) && r.code !in {200, 202, 203, 301, 302, 303}
    ensures var p := ParseAll(New(), input);
            && p.result == Result(Error, "", Digits(r.code) + " " + r.reasons[0], 0)
            && p.given == "" && p.headers == map[]
  {
    ParseFlat(New(), input);
    ExecuteConcat(New(), Statuses(r.code, r.reasons), Rest(r));
    var p := StatusCall(New(), r.code, r.reasons[0]);
    PausedStays(p, Statuses(r.code, r.reasons)[1..]);
    PausedStays(p, Rest(r));
  }

  /** The same response, cut otherwise. */
  ghost predicate SameContent(r: Response, r': Response) {
    && r'.code == r.code && Join(r'.reasons) == Join(r.reasons) && Whole(r'.cuts) == Whole(r.cuts)
    && r'.contentLength == r.contentLength && Join(r'.bodies) == Join(r.bodies)
  }

  /** Two ways of cutting one response into pieces and reads come to the same, but for the
      reason in the text of an error: there only the first piece counts. */
  lemma SplitIndependence(input: seq<Read>, r: Response, input': seq<Read>, r': Response)
    requires Spoken(r) && Carries(input, r) && Spoken(r') && Carries(input', r') && SameContent(r, r')
    ensures var p, p' := ParseAll(New(), input), ParseAll(New(), input');
            && p'.given == p.given
            && p'.result.(errStr := p.result.errStr) == p.result
            && (p'.result.errStr == p.result.errStr
                <==> r.code in {200, 202, 203, 301, 302, 303} || r'.reasons[0] == r.reasons[0])
  {
    if r.code in {200, 202, 203} {
      ContentDelivered(input, r);
      ContentDelivered(input', r');
    } else if r.code in {301, 302, 303} {
      RedirectFollowed(input, r);
      RedirectFollowed(input', r');
    } else {
      OtherStatusFails(input, r);
      OtherStatusFails(input', r');
      SameTail(Digits(r.code) + " ", r.reasons[0], r'.reasons[0]);
    }
  }

  lemma SameTail(a: string, b: string, c: string)
    ensures a + b == a + c <==> b == c
  {
    if a + b == a + c {
      assert b == (a + b)[|a|..] && c == (a + c)[|a|..];
    }
  }

  /** Header names are compared as they are, although section 3.2 of RFC 7230 makes them
      case-insensitive: this redirect is an error. */
  lemma LowerCaseLocationFails(uri: string, r: Response)
    requires r == Response(301, [""], [Cut(["location"], [uri])], 0, [])
    ensures ParseAll(New(), [Read(Callbacks(r), false, "")]).result.state == Error
  {
    var input := [Read(Callbacks(r), false, "")];
    assert Flatten(input) == Callbacks(r) + Flatten([]);
    assert Whole(r.cuts) == [Header(Join(["location"]), Join([uri]))];
    assert Join(["location"]) == "location";
    assert "location"[0] != "Location"[0];
    RedirectFollowed(input, r);
  }

  // ------------------------------------------------------------------------- rejected input

  /** Some of the callbacks stops the parser; `redirect`: a status that redirects came before them. */
  predicate Halts(calls: seq<Callback>, redirect: bool)
    decreases |calls|
  {
    calls != [] &&
    match calls[0]
    case OnStatus(code, _) =>
      || code !in {200, 202, 203, 301, 302, 303}
      || Halts(calls[1..], redirect || code in {301, 302, 303})
    case OnHeadersComplete(_) => redirect || Halts(calls[1..], redirect)
    case OnMessageComplete => true
    case _ => Halts(calls[1..], redirect)
  }

  /** The body in the callbacks up to the one that stops the parser. */
  function Handed(calls: seq<Callback>, redirect: bool): string
    decreases |calls|
  {
    if calls == [] || Halts(calls[..1], redirect) then ""
    else
      (if calls[0].OnBody? then calls[0].data else "")
      + Handed(calls[1..], redirect || (calls[0].OnStatus? && calls[0].code in {301, 302, 303}))
  }

  lemma CallHalts(p: Parser, c: Callback)
    requires !p.paused
    ensures var q := Call(p, c);
            && q.paused == Halts([c], p.redirect)
            && q.given == p.given + (if c.OnBody? then c.data else "")
            && (!q.paused ==> q.redirect == (p.redirect || (c.OnStatus? && c.code in {301, 302, 303})))
            && (!q.paused ==> q.result.redirectUri == p.result.redirectUri && q.result.state == p.result.state)
  {
    assert [c][1..] == [];
    assert p.given + "" == p.given;
  }

  lemma {:induction false} ExecuteHalts(p: Parser, calls: seq<Callback>)
    requires !p.paused
    ensures var q := Execute(p, calls);
            && q.paused == Halts(calls, p.redirect) && q.given == p.given + Handed(calls, p.redirect)
            && (!q.paused ==> q.result.redirectUri == p.result.redirectUri && q.result.state == p.result.state)
    decreases |calls|
  {
    if calls == [] {
      assert p.given + "" == p.given;
    } else {
      var q := Call(p, calls[0]);
      CallHalts(p, calls[0]);
      assert calls[..1] == [calls[0]];
      if q.paused {
        PausedStays(q, calls[1..]);
        assert p.given + "" == p.given;
      } else {
        ExecuteHalts(q, calls[1..]);
      }
    }
  }

  lemma {:induction false} ParseConcat(p: Parser, a: seq<Read>, b: seq<Read>)
    ensures ParseAll(p, a + b) == ParseAll(ParseAll(p, a), b)
    decreases |a|
  {
    if a == [] {
      assert a + b == b;
    } else {
      assert (a + b)[1..] == a[1..] + b;
      ParseConcat(ResponseParse(p, a[0]), a[1..], b);
    }
  }

  lemma {:induction false} ParsePaused(p: Parser, input: seq<Read>)
    requires p.paused
    ensures ParseAll(p, input) == p
    decreases |input|
  {
    if input != [] {
      PausedStays(p, input[0].calls);
      ParsePaused(p, input[1..]);
    }
  }

  lemma ParseLast(p: Parser, last: Read)
    ensures ParseAll(p, [last]) == ResponseParse(p, last)
  {
    assert [last][1..] == [];
  }

  /** The grammar objects to a read.  If no callback has stopped the parser by then, the response ends
      as an error with the grammar's words; otherwise it is as if the grammar had not objected.  The
      body of the callbacks before was handed over, and nothing that comes later is. */
  lemma RejectedRead(input: seq<Read>, last: Read, rest: seq<Read>)
    requires (forall i :: 0 <= i < |input| ==> !input[i].malformed) && last.malformed
    ensures
      var calls := Flatten(input) + last.calls;
      var p, q := ParseAll(New(), input + ([last] + rest)), ParseAll(New(), input + [last.(malformed := false)]);
      && p.paused && p.given == Handed(calls, false)
      && if Halts(calls, false) then p == q
         else p.result.state == Error && p.result.errStr == last.what && p.result.redirectUri == ""
  {
    var calls, p := Flatten(input) + last.calls, ParseAll(New(), input);
    ParseFlat(New(), input);
    ParseConcat(New(), input, [last] + rest);
    ParseConcat(p, [last], rest);
    ParseLast(p, last);
    ParseConcat(New(), input, [last.(malformed := false)]);
    ParseLast(p, last.(malformed := false));
    ExecuteConcat(New(), Flatten(input), last.calls);
    ExecuteHalts(New(), calls);
    ParsePaused(ResponseParse(p, last), rest);
    assert "" + Handed(calls, false) == Handed(calls, false);
  }
}
