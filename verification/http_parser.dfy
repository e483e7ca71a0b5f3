/** The source's parser, whose callbacks update it in place, computing the functions of the model. */
module HttpObjects {
  import opened HttpModel

  class HttpParser {
    var modeHeader: Mode
    var fieldHeader: string
    var valueHeader: string
    var headers: map<string, string>
    var redirect: bool
    var result: Result
    var paused: bool
    ghost var given: string

    ghost function View(): Parser
      reads this
    {
      Parser(modeHeader, fieldHeader, valueHeader, headers, redirect, result, paused, given)
    }

    constructor ()
      ensures View() == New()
    {
      modeHeader, fieldHeader, valueHeader, headers, redirect := Field, "", "", map[], false;
      result, paused, given := Result(InProgress, "", "", 0), false, "";
    }

    method Stop(state: State)
      modifies this`result, this`paused
      ensures View() == HttpModel.Stop(old(View()), state)
    {
      result := result.(state := state);
      paused := true;
    }

    method OnStatus(code: nat, reason: string)
      modifies this
      ensures View() == StatusCall(old(View()), code, reason)
    {
      if code == 200 || code == 202 || code == 203 {
        return;
      }
      if code == 301 || code == 302 || code == 303 {
        redirect := true;
        return;
      }
      result := result.(errStr := Digits(code) + " " + reason);
      Stop(Error);
    }

    method EmplaceHeader()
      modifies this`headers, this`fieldHeader, this`valueHeader
      ensures headers == Emplace(old(headers), old(fieldHeader), old(valueHeader))
      ensures fieldHeader == "" && valueHeader == ""
    {
      if fieldHeader !in headers {
        headers := headers[fieldHeader := valueHeader];
      }
      fieldHeader, valueHeader := "", "";
    }

    method OnHeaderField(name: string)
      modifies this
      ensures View() == FieldCall(old(View()), name)
    {
      match modeHeader {
        case Field =>
          fieldHeader := fieldHeader + name;
        case Value =>
          EmplaceHeader();
          fieldHeader := name;
          modeHeader := Field;
      }
    }

    method OnHeaderValue(value: string)
      modifies this
      ensures View() == ValueCall(old(View()), value)
    {
      match modeHeader {
        case Value =>
          valueHeader := valueHeader + value;
        case Field =>
          valueHeader := value;
          modeHeader := Value;
      }
    }

    method OnHeadersComplete(contentLength: nat)
      modifies this
      ensures View() == CompleteCall(old(View()), contentLength)
    {
      if fieldHeader != "" {
        EmplaceHeader();
      }
      if redirect {
        if "Location" in headers {
          result := result.(redirectUri := headers["Location"]);
          headers := headers["Location" := ""];
          Stop(Redirect);
        } else {
          result := result.(errStr := "Invalid redirect, missing Location header");
          Stop(Error);
        }
      } else {
        result := result.(contentLength := contentLength);
      }
    }

    method OnBody(data: string)
      modifies this`given
      ensures View() == Call(old(View()), HttpModel.OnBody(data))
    {
      given := given + data;
    }

    method Dispatch(c: Callback)
      modifies this
      ensures View() == Call(old(View()), c)
    {
      match c {
        case OnStatus(code, reason) => OnStatus(code, reason);
        case OnField(name) => OnHeaderField(name);
        case OnValue(value) => OnHeaderValue(value);
        case OnHeadersComplete(contentLength) => OnHeadersComplete(contentLength);
        case OnBody(data) => OnBody(data);
        case OnMessageComplete => Stop(Done);
      }
    }

    method ResponseParse(read: Read) returns (r: Result)
      modifies this
      ensures View() == HttpModel.ResponseParse(old(View()), read) && r == result
    {
      var k := 0;
      while k < |read.calls| && !paused
        invariant k <= |read.calls|
        invariant Execute(View(), read.calls[k..]) == Execute(old(View()), read.calls)
      {
        assert read.calls[k..][1..] == read.calls[k + 1..];
        Dispatch(read.calls[k]);
        k := k + 1;
      }
      if read.malformed && !paused {
        result := result.(state := Error, errStr := read.what);
        paused := true;
      }
      r := result;
    }
  }
}
