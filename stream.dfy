/** The NDJSON response decoder of `Client.stream` (AIMY.go:139-195): the
    body is cut into lines by a bufio.Scanner whose buffer holds at most
    65535 bytes, each line is probed for an `error` field, the HTTP status is
    checked, and the line is then decoded into a map that lives across the
    whole loop, whose `response` entry is printed. */
module StreamDecoder {
  import opened Json

  /** Capacity of the scanner's buffer (AIMY.go:86). */
  const MaxBufferSize: nat := 65535

  /** http.StatusBadRequest. */
  const StatusBadRequest: int := 400

  /** What encoding/json makes of one line. */
  datatype Line =
    /** Unmarshalling into the error probe fails: not JSON at all, an empty
        line, a JSON value that is neither an object nor null, or an `error`
        member that is not a string. */
    | Undecodable
    /** The JSON literal `null`: the probe stays empty and the result map is
        set to nil. */
    | Null
    /** A JSON object: `error` is what the probe decoded ("" when absent or
        null) and `fields` are its members. */
    | Record(error: string, fields: map<string, Value>)

  /** A line of the body as the scanner meets it: its length in bytes,
      without the newline, and its content. */
  datatype RawLine = RawLine(length: nat, line: Line)

  /** How reading the body ended; the loop never asks (scanner.Err() is
      not called). */
  datatype BodyEnd = EndOfFile | ReadFailure

  /** The response body: the lines read before the end or the failure. */
  datatype Body = Body(lines: seq<RawLine>, end: BodyEnd)

  /** What the server sent back, or the failure of http.Client.Do. */
  datatype Reply = TransportFailure | Response(status: int, body: Body)

  /** One write to standard output: a fixed text, or `result["response"]`
      printed with "%s" (None is a missing key, which Go prints as a nil). */
  datatype Out = Literal(text: string) | Fragment(value: Option<Value>)

  /** How a call to `stream` ends: returning nil, returning an error, or
      ending the process with os.Exit. */
  datatype Outcome =
    | Ok
    | TransportFailed
    | UnmarshalFailed
    | ServerError(message: string)
    | Exit(code: int)

  /** Everything a call writes to standard output, and how it ends. */
  datatype Run = Run(out: seq<Out>, outcome: Outcome)

  const Newline: Out := Literal("\n")

  /** The scanner keeps a line when it and its newline fit in the buffer. */
  predicate Fits(r: RawLine)
  {
    r.length < MaxBufferSize
  }

  /** The tokens scanner.Scan() yields: the lines up to the first one too
      long for the buffer, at which point scanning stops for good. */
  function Tokens(lines: seq<RawLine>): (ts: seq<Line>)
    ensures |ts| <= |lines|
    ensures forall i :: 0 <= i < |ts| ==> Fits(lines[i]) && ts[i] == lines[i].line
    ensures |ts| < |lines| ==> !Fits(lines[|ts|])
  {
    if lines == [] || !Fits(lines[0]) then [] else [lines[0].line] + Tokens(lines[1..])
  }

  /** Scanning resumes at line i exactly as the scan from the start does. */
  lemma TokensFrom(lines: seq<RawLine>, i: nat)
    requires i <= |lines|
    ensures Tokens(lines[i..]) ==
      if i < |lines| && Fits(lines[i]) then [lines[i].line] + Tokens(lines[i + 1..]) else []
  {
    if i < |lines| {
      assert lines[i..][1..] == lines[i + 1..];
    }
  }

  /** `result["response"]` for a map that may hold it. */
  function ResponseEntry(result: map<string, Value>): Option<Value>
  {
    if "response" in result then Some(result["response"]) else None
  }

  /** The map after json.Unmarshal(bts, &result): an object's members are
      added to the existing map, replacing entries with the same key, and
      null makes it nil. */
  function Merge(result: map<string, Value>, line: Line): (merged: map<string, Value>)
    requires !line.Undecodable?
    ensures line.Null? ==> merged == map[]
    ensures line.Record? ==> merged.Keys == result.Keys + line.fields.Keys
    ensures line.Record? ==> forall key :: key in line.fields ==> merged[key] == line.fields[key]
    ensures line.Record? ==> forall key :: key in result && key !in line.fields ==> merged[key] == result[key]
  {
    match line
    case Record(_, fields) => result + fields
    case Null => map[]
  }

  /** A line that gets past the error probe: not undecodable, no error. */
  predicate Passes(line: Line)
  {
    line.Null? || (line.Record? && line.error == "")
  }

  /** The loop run over the tokens, with `result` as it stands before the
      first of them. */
  function Decode(status: int, tokens: seq<Line>, result: map<string, Value>): (r: Run)
    ensures |r.out| <= |tokens| + 1
    ensures r.outcome == Ok <==> |r.out| == |tokens| + 1
    ensures r.outcome == Ok ==> r.out[|tokens|] == Newline
    decreases |tokens|
  {
    if tokens == [] then Run([Newline], Ok)
    else
      var line := tokens[0];
      if line.Undecodable? then Run([], UnmarshalFailed)
      else if line.Record? && line.error != "" then Run([], ServerError(line.error))
      else if status >= StatusBadRequest then Run([], Exit(1))
      else
        var next := Merge(result, line);
        var rest := Decode(status, tokens[1..], next);
        Run([Fragment(ResponseEntry(next))] + rest.out, rest.outcome)
  }

  /** The whole call, given what the server sent. */
  function StreamSpec(reply: Reply): Run
  {
    match reply
    case TransportFailure => Run([], TransportFailed)
    case Response(status, body) => Decode(status, Tokens(body.lines), map[])
  }

  /** Output already written, followed by the rest of a run. */
  function Prepend(out: seq<Out>, rest: Run): Run
  {
    Run(out + rest.out, rest.outcome)
  }

  /** One turn of the loop, as Decode takes it. */
  lemma DecodeCons(status: int, line: Line, later: seq<Line>, result: map<string, Value>)
    ensures Decode(status, [line] + later, result) ==
      if line.Undecodable? then Run([], UnmarshalFailed)
      else if line.Record? && line.error != "" then Run([], ServerError(line.error))
      else if status >= StatusBadRequest then Run([], Exit(1))
      else Prepend([Fragment(ResponseEntry(Merge(result, line)))], Decode(status, later, Merge(result, line)))
  {
    assert ([line] + later)[1..] == later;
  }

  /** A run that ends without printing leaves the output as it was. */
  lemma PrependNothing(out: seq<Out>, outcome: Outcome)
    ensures Prepend(out, Run([], outcome)) == Run(out, outcome)
  {
    assert out + [] == out;
  }

  /** `Client.stream`: the scan loop over the body. */
  method Stream(reply: Reply) returns (out: seq<Out>, outcome: Outcome)
    ensures Run(out, outcome) == StreamSpec(reply)
  {
    out := [];
    if reply.TransportFailure? {
      return out, TransportFailed;
    }
    var status, lines := reply.status, reply.body.lines;
    var result: map<string, Value> := map[];
    var i := 0;
    assert lines[0..] == lines;
    while i < |lines| && Fits(lines[i])
      invariant 0 <= i <= |lines|
      invariant StreamSpec(reply) == Prepend(out, Decode(status, Tokens(lines[i..]), result))
    {
      TokensFrom(lines, i);
      ghost var later := Tokens(lines[i + 1..]);
      var line := lines[i].line;
      DecodeCons(status, line, later, result);
      if line.Undecodable? {
        PrependNothing(out, UnmarshalFailed);
        return out, UnmarshalFailed;
      }
      if line.Record? && line.error != "" {
        PrependNothing(out, ServerError(line.error));
        return out, ServerError(line.error);
      }
      if status >= StatusBadRequest {
        PrependNothing(out, Exit(1));
        return out, Exit(1);
      }
      result := Merge(result, line);
      ghost var rest := Decode(status, later, result);
      assert out + ([Fragment(ResponseEntry(result))] + rest.out) == (out + [Fragment(ResponseEntry(result))]) + rest.out;
      out := out + [Fragment(ResponseEntry(result))];
      i := i + 1;
    }
    TokensFrom(lines, i);
    out := out + [Newline];
    outcome := Ok;
  }

  /** The `response` that `result` holds once `tokens` have been merged into
      a map holding `before`: the value of the latest line that carries a
      `response` member, unless a null line came after it. */
  function LatestResponse(before: Option<Value>, tokens: seq<Line>): Option<Value>
    decreases |tokens|
  {
    if tokens == [] then before
    else
      match tokens[|tokens| - 1]
      case Record(_, fields) =>
        if "response" in fields then Some(fields["response"])
        else LatestResponse(before, tokens[..|tokens| - 1])
      case _ => None
  }

  /** What the loop prints for lines that all pass: for each line, the
      latest response seen so far. */
  function Shown(before: Option<Value>, tokens: seq<Line>): seq<Out>
  {
    seq(|tokens|, k requires 0 <= k < |tokens| => Fragment(LatestResponse(before, tokens[..k + 1])))
  }

  /** Merging one line updates the visible response as LatestResponse says. */
  lemma ResponseMerge(result: map<string, Value>, line: Line)
    requires !line.Undecodable?
    ensures ResponseEntry(Merge(result, line)) == LatestResponse(ResponseEntry(result), [line])
  {
    assert [line][..0] == [];
  }

  /** LatestResponse can be computed from the front, one line at a time. */
  lemma {:induction false} LatestResponseCons(before: Option<Value>, line: Line, later: seq<Line>)
    ensures LatestResponse(before, [line] + later) ==
      LatestResponse(LatestResponse(before, [line]), later)
    decreases |later|
  {
    if later != [] {
      var all := [line] + later;
      assert all[|all| - 1] == later[|later| - 1];
      assert all[..|all| - 1] == [line] + later[..|later| - 1];
      LatestResponseCons(before, line, later[..|later| - 1]);
    }
  }

  /** The fragments shown for a line followed by more lines. */
  lemma ShownCons(before: Option<Value>, line: Line, later: seq<Line>)
    ensures Shown(before, [line] + later) ==
      [Fragment(LatestResponse(before, [line]))] + Shown(LatestResponse(before, [line]), later)
  {
    var all := [line] + later;
    var after := LatestResponse(before, [line]);
    assert all[..1] == [line];
    forall k | 0 <= k < |later|
      ensures Shown(before, all)[k + 1] == Shown(after, later)[k]
    {
      assert all[..k + 2] == [line] + later[..k + 1];
      LatestResponseCons(before, line, later[..k + 1]);
    }
  }

  /** The map after merging a run of lines that pass. */
  function MergeAll(result: map<string, Value>, tokens: seq<Line>): map<string, Value>
    requires forall k :: 0 <= k < |tokens| ==> Passes(tokens[k])
    decreases |tokens|
  {
    if tokens == [] then result
    else
      assert Passes(tokens[0]);
      MergeAll(Merge(result, tokens[0]), tokens[1..])
  }

  /** Below status 400, a run of k lines that pass prints one fragment each
      (the latest response so far) and leaves the loop exactly as it would be
      on entering the (k+1)-th line with the merged map. */
  lemma {:induction false} DecodePassingPrefix(status: int, tokens: seq<Line>, result: map<string, Value>, k: nat)
    requires status < StatusBadRequest
    requires k <= |tokens|
    requires forall j :: 0 <= j < k ==> Passes(tokens[j])
    ensures Decode(status, tokens, result) ==
      Prepend(Shown(ResponseEntry(result), tokens[..k]), Decode(status, tokens[k..], MergeAll(result, tokens[..k])))
  {
    if k == 0 {
      assert tokens[..0] == [] && tokens[0..] == tokens;
    } else {
      var line, later := tokens[0], tokens[1..];
      var next := Merge(result, line);
      var head := [Fragment(ResponseEntry(next))];
      var shown := Shown(ResponseEntry(next), later[..k - 1]);
      var rest := Decode(status, tokens[k..], MergeAll(result, tokens[..k]));
      assert tokens == [line] + later;
      assert tokens[..k] == [line] + later[..k - 1];
      assert later[k - 1..] == tokens[k..];
      calc {
        Decode(status, tokens, result);
        { DecodeCons(status, line, later, result); }
        Prepend(head, Decode(status, later, next));
        { DecodePassingPrefix(status, later, next, k - 1); }
        Prepend(head, Prepend(shown, rest));
        { assert head + (shown + rest.out) == (head + shown) + rest.out; }
        Prepend(head + shown, rest);
        { ResponseMerge(result, line); ShownCons(ResponseEntry(result), line, later[..k - 1]); }
        Prepend(Shown(ResponseEntry(result), tokens[..k]), rest);
      }
    }
  }

  /** Below status 400, when every line passes, the call prints each line's
      latest response in order, then one newline, and returns nil. */
  lemma DecodeAllPass(status: int, tokens: seq<Line>)
    requires status < StatusBadRequest
    requires forall j :: 0 <= j < |tokens| ==> Passes(tokens[j])
    ensures Decode(status, tokens, map[]) == Run(Shown(None, tokens) + [Newline], Ok)
  {
    DecodePassingPrefix(status, tokens, map[], |tokens|);
    assert tokens[..|tokens|] == tokens;
  }

  /** Below status 400, the first line that does not pass ends the call with
      its error: an `unmarshal` error for an undecodable line, the server's
      message for a non-empty `error`. Only the lines before it were printed,
      and no newline. */
  lemma DecodeStopsAtRejected(status: int, tokens: seq<Line>, k: nat)
    requires status < StatusBadRequest
    requires k < |tokens|
    requires forall j :: 0 <= j < k ==> Passes(tokens[j])
    requires !Passes(tokens[k])
    ensures Decode(status, tokens, map[]) ==
      Run(Shown(None, tokens[..k]),
          if tokens[k].Undecodable? then UnmarshalFailed else ServerError(tokens[k].error))
  {
    DecodePassingPrefix(status, tokens, map[], k);
    assert tokens[k..] == [tokens[k]] + tokens[k + 1..];
    DecodeCons(status, tokens[k], tokens[k + 1..], MergeAll(map[], tokens[..k]));
  }

  /** At status 400 or above nothing is printed: the first line ends the call,
      with os.Exit(1) unless the probe failed or found an error first. With
      no line at all the call prints the newline and returns nil. */
  lemma DecodeStatusGate(status: int, tokens: seq<Line>, result: map<string, Value>)
    requires status >= StatusBadRequest
    ensures Decode(status, tokens, result) ==
      if tokens == [] then Run([Newline], Ok)
      else if tokens[0].Undecodable? then Run([], UnmarshalFailed)
      else if tokens[0].Record? && tokens[0].error != "" then Run([], ServerError(tokens[0].error))
      else Run([], Exit(1))
  {
  }

  /** The call returns nil exactly when its output ends with the newline. */
  lemma {:induction false} DecodeOkIffNewline(status: int, tokens: seq<Line>, result: map<string, Value>)
    ensures Decode(status, tokens, result).outcome == Ok <==>
      (Decode(status, tokens, result).out != [] && Decode(status, tokens, result).out[|Decode(status, tokens, result).out| - 1] == Newline)
    decreases |tokens|
  {
    if tokens != [] && Passes(tokens[0]) && status < StatusBadRequest {
      DecodeOkIffNewline(status, tokens[1..], Merge(result, tokens[0]));
    }
  }

  /** A line without a `response` member prints the value of the latest
      earlier line that had one, when only such lines lie in between: the
      map is never cleared. */
  lemma {:induction false} StaleResponse(before: Option<Value>, tokens: seq<Line>, j: nat, k: nat)
    requires j <= k < |tokens|
    requires tokens[j].Record? && "response" in tokens[j].fields
    requires forall l :: j < l <= k ==> tokens[l].Record? && "response" !in tokens[l].fields
    ensures LatestResponse(before, tokens[..k + 1]) == Some(tokens[j].fields["response"])
    decreases k
  {
    if j < k {
      assert tokens[..k + 1][..k] == tokens[..k];
      StaleResponse(before, tokens, j, k - 1);
    }
  }

  /** Scanning stops at the first line that does not fit, so the scan of
      the whole body and of the lines before that one agree. */
  lemma {:induction false} ScanUpTo(lines: seq<RawLine>, k: nat)
    requires k < |lines|
    requires forall j :: 0 <= j < k ==> Fits(lines[j])
    requires !Fits(lines[k])
    ensures Tokens(lines) == Tokens(lines[..k])
    ensures |Tokens(lines)| == k
  {
    if k == 0 {
      assert lines[..0] == [];
    } else {
      assert lines[..k][1..] == lines[1..][..k - 1];
      ScanUpTo(lines[1..], k - 1);
    }
  }

  /** A line too long for the buffer ends the scan quietly: the call behaves
      as if the body had ended just before it. */
  lemma OversizedLineEndsScan(status: int, body: Body, k: nat)
    requires k < |body.lines|
    requires forall j :: 0 <= j < k ==> Fits(body.lines[j])
    requires !Fits(body.lines[k])
    ensures StreamSpec(Response(status, body)) == Decode(status, Tokens(body.lines[..k]), map[])
    ensures |Tokens(body.lines)| == k
  {
    ScanUpTo(body.lines, k);
  }

  /** Nothing after a line too long for the buffer is ever read. */
  lemma LinesAfterOversizeIgnored(status: int, b1: Body, b2: Body, k: nat)
    requires k < |b1.lines| && k < |b2.lines|
    requires b1.lines[..k + 1] == b2.lines[..k + 1]
    requires forall j :: 0 <= j < k ==> Fits(b1.lines[j])
    requires !Fits(b1.lines[k])
    ensures StreamSpec(Response(status, b1)) == StreamSpec(Response(status, b2))
  {
    assert b1.lines[..k] == b1.lines[..k + 1][..k] == b2.lines[..k + 1][..k] == b2.lines[..k];
    forall j | 0 <= j <= k
      ensures b1.lines[j] == b2.lines[j]
    {
      assert b1.lines[j] == b1.lines[..k + 1][j];
    }
    OversizedLineEndsScan(status, b1, k);
    OversizedLineEndsScan(status, b2, k);
  }

  /** Below status 400, with every line before it passing, a line too long
      for the buffer still ends the call with the newline and nil. */
  lemma OversizedLineReturnsNil(status: int, body: Body, k: nat)
    requires status < StatusBadRequest
    requires k < |body.lines|
    requires forall j :: 0 <= j < k ==> Fits(body.lines[j]) && Passes(body.lines[j].line)
    requires !Fits(body.lines[k])
    ensures StreamSpec(Response(status, body)).outcome == Ok
    ensures StreamSpec(Response(status, body)).out == Shown(None, Tokens(body.lines)) + [Newline]
  {
    OversizedLineEndsScan(status, body, k);
    ScanUpTo(body.lines, k);
    DecodeAllPass(status, Tokens(body.lines));
  }

  /** How reading ended is never consulted. */
  lemma ReadFailureIgnored(status: int, lines: seq<RawLine>)
    ensures StreamSpec(Response(status, Body(lines, ReadFailure))) ==
            StreamSpec(Response(status, Body(lines, EndOfFile)))
  {
  }

  /** The body `{"response":"Hel"}`, `{"response":"lo"}`, `{"done":true}`
      prints "Hel", "lo" and then "lo" again, since the last line has no
      `response` of its own. */
  lemma ThreeLineExample()
    ensures
      var lines := [Record("", map["response" := Str("Hel")]),
                    Record("", map["response" := Str("lo")]),
                    Record("", map["done" := Bool(true)])];
      Decode(200, lines, map[]) ==
        Run([Fragment(Some(Str("Hel"))), Fragment(Some(Str("lo"))), Fragment(Some(Str("lo"))), Newline], Ok)
  {
  }

  /** `{"error":"internal"}` under status 500 returns the server's message:
      the probe comes before the status check. */
  lemma ErrorBeforeStatusExample()
    ensures Decode(500, [Record("internal", map["error" := Str("internal")])], map[]) ==
      Run([], ServerError("internal"))
  {
  }
}
