/** The interactive loop of `main` (AIMY.go:197-249): print a prompt, read a
    line, stop on the exact text "exit\n", otherwise send the line as the
    prompt of a request built from the default options and stream the reply.
    Standard input and the server are given up front: one Turn per call of
    ReadString, each made on a fresh bufio.Reader, and the input ends
    (ReadString fails) after the last one. */
module Session {
  import opened Json
  import opened ModelOptions
  import opened StreamDecoder

  /** The input that ends the session, newline included. */
  const ExitSentinel: string := "exit\n"

  /** The model every request names. */
  const ModelName: string := "AIMY3"

  const YouLabel: string := "YOU: "
  const AimyLabel: string := "AIMY: "

  /** What fmt.Println prints when ReadString hits the end of input. */
  const ReadErrorMessage: string := "Error reading input: EOF\n"

  /** What one ReadString('\n') returns, and what the server answers if that
      line is sent (unused when the read fails). */
  datatype Turn = Turn(input: string, reply: Reply)

  /** ReadString('\n') returns a nil error exactly when the data it returns
      ends with the delimiter; otherwise the input ended first. */
  predicate Terminated(input: string)
  {
    |input| > 0 && input[|input| - 1] == '\n'
  }

  /** What a session sends, prints and exits with. */
  datatype Transcript = Transcript(requests: seq<Data>, out: seq<Out>, code: int)

  /** The request built for a line of input. */
  function RequestFor(input: string): Data
  {
    Data(ModelName, input, "", DefaultOptions())
  }

  /** The requests sent for a run of turns, one per turn. */
  function Prompts(turns: seq<Turn>): seq<Data>
  {
    seq(|turns|, j requires 0 <= j < |turns| => RequestFor(turns[j].input))
  }

  /** What one ordinary turn prints: the two labels, then the call's output. */
  function Head(turn: Turn): seq<Out>
  {
    [Literal(YouLabel), Literal(AimyLabel)] + StreamSpec(turn.reply).out
  }

  /** The session from a given turn on. */
  function SessionSpec(turns: seq<Turn>): Transcript
    decreases |turns|
  {
    if turns == [] || !Terminated(turns[0].input) then Transcript([], [Literal(YouLabel), Literal(ReadErrorMessage)], 1)
    else if turns[0].input == ExitSentinel then Transcript([], [Literal(YouLabel)], 0)
    else if StreamSpec(turns[0].reply).outcome == Ok then
      var rest := SessionSpec(turns[1..]);
      Transcript([RequestFor(turns[0].input)] + rest.requests, Head(turns[0]) + rest.out, rest.code)
    else
      Transcript([RequestFor(turns[0].input)], Head(turns[0]), 1)
  }

  /** What has been sent and printed, followed by the rest of a session. */
  function Continue(requests: seq<Data>, out: seq<Out>, rest: Transcript): Transcript
  {
    Transcript(requests + rest.requests, out + rest.out, rest.code)
  }

  /** The first k turns were ordinary lines whose calls returned nil. */
  predicate Completed(turns: seq<Turn>, k: nat)
  {
    k <= |turns| &&
    forall j :: 0 <= j < k ==>
      Terminated(turns[j].input) && turns[j].input != ExitSentinel && StreamSpec(turns[j].reply).outcome == Ok
  }

  /** The read fails when the input has ended, also after a partial line:
      the error is printed and the session exits 1. */
  lemma ReadFailedTurn(turns: seq<Turn>)
    requires turns == [] || !Terminated(turns[0].input)
    ensures SessionSpec(turns) == Transcript([], [Literal(YouLabel), Literal(ReadErrorMessage)], 1)
  {
  }

  /** A session that starts with "exit\n" prints the prompt and exits 0. */
  lemma SentinelTurn(turns: seq<Turn>)
    requires turns != [] && turns[0].input == ExitSentinel
    ensures SessionSpec(turns) == Transcript([], [Literal(YouLabel)], 0)
  {
  }

  /** A turn whose call does not return nil sends one request and exits 1. */
  lemma FailedTurn(turns: seq<Turn>)
    requires turns != [] && Terminated(turns[0].input) && turns[0].input != ExitSentinel
    requires StreamSpec(turns[0].reply).outcome != Ok
    ensures SessionSpec(turns) == Transcript([RequestFor(turns[0].input)], Head(turns[0]), 1)
  {
  }

  /** A completed turn sends one request, prints its labels and reply, and
      the session goes on with the next line. */
  lemma CompletedTurn(turns: seq<Turn>)
    requires turns != [] && Terminated(turns[0].input) && turns[0].input != ExitSentinel
    requires StreamSpec(turns[0].reply).outcome == Ok
    ensures SessionSpec(turns) == Continue([RequestFor(turns[0].input)], Head(turns[0]), SessionSpec(turns[1..]))
  {
  }

  /** The loop's invariant after the read at line i fails. */
  lemma ReadFailedStep(turns: seq<Turn>, i: nat, requests: seq<Data>, out: seq<Out>)
    requires i <= |turns| && (i == |turns| || !Terminated(turns[i].input))
    requires SessionSpec(turns) == Continue(requests, out, SessionSpec(turns[i..]))
    ensures SessionSpec(turns) == Transcript(requests, out + [Literal(YouLabel), Literal(ReadErrorMessage)], 1)
  {
    ReadFailedTurn(turns[i..]);
    assert requests + [] == requests;
  }

  /** The loop's invariant after the sentinel is read at line i. */
  lemma SentinelStep(turns: seq<Turn>, i: nat, requests: seq<Data>, out: seq<Out>)
    requires i < |turns| && turns[i].input == ExitSentinel
    requires SessionSpec(turns) == Continue(requests, out, SessionSpec(turns[i..]))
    ensures SessionSpec(turns) == Transcript(requests, out + [Literal(YouLabel)], 0)
  {
    SentinelTurn(turns[i..]);
    assert requests + [] == requests;
  }

  /** The labels and the call's output, printed one after the other. */
  lemma HeadPrinted(out: seq<Out>, turn: Turn, printed: seq<Out>)
    requires StreamSpec(turn.reply).out == printed
    ensures out + Head(turn) == out + [Literal(YouLabel)] + [Literal(AimyLabel)] + printed
  {
    assert Head(turn) == [Literal(YouLabel), Literal(AimyLabel)] + printed;
  }

  /** The loop's invariant after the call for line i fails. */
  lemma FailedStep(turns: seq<Turn>, i: nat, requests: seq<Data>, out: seq<Out>, printed: seq<Out>)
    requires i < |turns| && Terminated(turns[i].input) && turns[i].input != ExitSentinel
    requires StreamSpec(turns[i].reply).out == printed
    requires StreamSpec(turns[i].reply).outcome != Ok
    requires SessionSpec(turns) == Continue(requests, out, SessionSpec(turns[i..]))
    ensures SessionSpec(turns) ==
      Transcript(requests + [RequestFor(turns[i].input)], out + [Literal(YouLabel)] + [Literal(AimyLabel)] + printed, 1)
  {
    var request, head := RequestFor(turns[i].input), Head(turns[i]);
    calc {
      SessionSpec(turns);
      Continue(requests, out, SessionSpec(turns[i..]));
      { FailedTurn(turns[i..]); }
      Continue(requests, out, Transcript([request], head, 1));
      Transcript(requests + [request], out + head, 1);
      { HeadPrinted(out, turns[i], printed); }
      Transcript(requests + [request], out + [Literal(YouLabel)] + [Literal(AimyLabel)] + printed, 1);
    }
  }

  /** The loop's invariant carries over a completed line i. */
  lemma CompletedStep(turns: seq<Turn>, i: nat, requests: seq<Data>, out: seq<Out>, printed: seq<Out>)
    requires i < |turns| && Terminated(turns[i].input) && turns[i].input != ExitSentinel
    requires StreamSpec(turns[i].reply).out == printed
    requires StreamSpec(turns[i].reply).outcome == Ok
    requires SessionSpec(turns) == Continue(requests, out, SessionSpec(turns[i..]))
    ensures SessionSpec(turns) ==
      Continue(requests + [RequestFor(turns[i].input)], out + [Literal(YouLabel)] + [Literal(AimyLabel)] + printed,
               SessionSpec(turns[i + 1..]))
  {
    var request, head, rest := RequestFor(turns[i].input), Head(turns[i]), SessionSpec(turns[i + 1..]);
    calc {
      SessionSpec(turns);
      Continue(requests, out, SessionSpec(turns[i..]));
      { CompletedTurn(turns[i..]); assert turns[i..][1..] == turns[i + 1..]; }
      Continue(requests, out, Continue([request], head, rest));
      { ContinueAssoc(requests, out, [request], head, rest); }
      Continue(requests + [request], out + head, rest);
      { HeadPrinted(out, turns[i], printed); }
      Continue(requests + [request], out + [Literal(YouLabel)] + [Literal(AimyLabel)] + printed, rest);
    }
  }

  /** `main`. The inner loop around `stream` runs once per turn: `buffer`
      is declared empty and never written, so `len(buffer) == 0` holds after
      the first call. os.Exit becomes the returned code. */
  method Session(turns: seq<Turn>) returns (requests: seq<Data>, out: seq<Out>, code: int)
    ensures Transcript(requests, out, code) == SessionSpec(turns)
  {
    requests, out := [], [];
    var i := 0;
    assert turns[0..] == turns;
    while i < |turns|
      invariant 0 <= i <= |turns|
      invariant SessionSpec(turns) == Continue(requests, out, SessionSpec(turns[i..]))
    {
      ghost var sent, shown := requests, out;
      out := out + [Literal(YouLabel)];
      var message := turns[i].input;
      if !Terminated(message) {
        ReadFailedStep(turns, i, sent, shown);
        out := out + [Literal(ReadErrorMessage)];
        return requests, out, 1;
      }
      if message == ExitSentinel {
        SentinelStep(turns, i, sent, shown);
        return requests, out, 0;
      }
      var data := RequestFor(message);
      requests := requests + [data];
      out := out + [Literal(AimyLabel)];
      var printed, outcome := Stream(turns[i].reply);
      out := out + printed;
      if outcome != Ok {
        FailedStep(turns, i, sent, shown, printed);
        return requests, out, 1;
      }
      CompletedStep(turns, i, sent, shown, printed);
      i := i + 1;
    }
    ReadFailedStep(turns, i, requests, out);
    out := out + [Literal(YouLabel), Literal(ReadErrorMessage)];
    code := 1;
  }

  /** What the completed turns print, turn after turn. */
  function Echo(turns: seq<Turn>): seq<Out>
  {
    if turns == [] then [] else Echo(turns[..|turns| - 1]) + Head(turns[|turns| - 1])
  }

  /** One more completed turn adds its request at the end. */
  lemma PromptsSnoc(turns: seq<Turn>, k: nat)
    requires k < |turns|
    ensures Prompts(turns[..k + 1]) == Prompts(turns[..k]) + [RequestFor(turns[k].input)]
  {
  }

  /** One more completed turn adds its labels and reply at the end. */
  lemma EchoSnoc(turns: seq<Turn>, k: nat)
    requires k < |turns|
    ensures Echo(turns[..k + 1]) == Echo(turns[..k]) + Head(turns[k])
  {
    assert turns[..k + 1][..k] == turns[..k];
  }

  /** Sending and printing more, then running the rest, regroups. */
  lemma ContinueAssoc(r1: seq<Data>, o1: seq<Out>, r2: seq<Data>, o2: seq<Out>, rest: Transcript)
    ensures Continue(r1, o1, Continue(r2, o2, rest)) == Continue(r1 + r2, o1 + o2, rest)
  {
    assert r1 + (r2 + rest.requests) == (r1 + r2) + rest.requests;
    assert o1 + (o2 + rest.out) == (o1 + o2) + rest.out;
  }

  /** After k completed turns, k requests have been sent, one per line and in
      order, and the labels and replies of those turns have been printed. */
  lemma {:induction false} SessionPrefix(turns: seq<Turn>, k: nat)
    requires Completed(turns, k)
    ensures SessionSpec(turns) == Continue(Prompts(turns[..k]), Echo(turns[..k]), SessionSpec(turns[k..]))
  {
    if k == 0 {
      assert turns[0..] == turns;
    } else {
      var n := k - 1;
      SessionPrefix(turns, n);
      CompletedTurn(turns[n..]);
      assert turns[n..][1..] == turns[k..];
      ContinueAssoc(Prompts(turns[..n]), Echo(turns[..n]), [RequestFor(turns[n].input)], Head(turns[n]), SessionSpec(turns[k..]));
      PromptsSnoc(turns, n);
      EchoSnoc(turns, n);
    }
  }

  /** Typing "exit" ends the session with status 0 before anything is sent
      for that line. */
  lemma ExitSentinelEndsSession(turns: seq<Turn>, k: nat)
    requires Completed(turns, k) && k < |turns|
    requires turns[k].input == ExitSentinel
    ensures SessionSpec(turns) ==
      Transcript(Prompts(turns[..k]), Echo(turns[..k]) + [Literal(YouLabel)], 0)
  {
    SessionPrefix(turns, k);
    SentinelTurn(turns[k..]);
    assert Prompts(turns[..k]) + [] == Prompts(turns[..k]);
  }

  /** A call that does not return nil ends the session with status 1 right
      after that line's request; nothing later is read. */
  lemma FailedTurnExits(turns: seq<Turn>, k: nat)
    requires Completed(turns, k) && k < |turns|
    requires Terminated(turns[k].input) && turns[k].input != ExitSentinel
    requires StreamSpec(turns[k].reply).outcome != Ok
    ensures SessionSpec(turns) == Transcript(Prompts(turns[..k + 1]), Echo(turns[..k + 1]), 1)
  {
    SessionPrefix(turns, k);
    FailedTurn(turns[k..]);
    PromptsSnoc(turns, k);
    EchoSnoc(turns, k);
  }

  /** When the input runs out, possibly after a partial line that is then
      dropped, the read error is printed and the session exits with status 1. */
  lemma EndOfInputExits(turns: seq<Turn>, k: nat)
    requires Completed(turns, k)
    requires k == |turns| || !Terminated(turns[k].input)
    ensures SessionSpec(turns) ==
      Transcript(Prompts(turns[..k]), Echo(turns[..k]) + [Literal(YouLabel), Literal(ReadErrorMessage)], 1)
  {
    SessionPrefix(turns, k);
    ReadFailedTurn(turns[k..]);
    assert Prompts(turns[..k]) + [] == Prompts(turns[..k]);
  }

  /** The first turn that is not completed ends the session. */
  lemma {:induction false} FirstStop(turns: seq<Turn>) returns (k: nat)
    ensures Completed(turns, k)
    ensures k == |turns| || !Terminated(turns[k].input) || turns[k].input == ExitSentinel ||
            StreamSpec(turns[k].reply).outcome != Ok
  {
    k := 0;
    while k < |turns| && Terminated(turns[k].input) && turns[k].input != ExitSentinel &&
          StreamSpec(turns[k].reply).outcome == Ok
      invariant Completed(turns, k)
    {
      k := k + 1;
    }
  }

  /** The session exits with 0 exactly when "exit\n" is read before any call
      fails and before the input runs out, and with 1 otherwise. */
  lemma SessionExitCode(turns: seq<Turn>)
    ensures SessionSpec(turns).code == 0 || SessionSpec(turns).code == 1
    ensures SessionSpec(turns).code == 0 <==>
      exists k: nat :: Completed(turns, k) && k < |turns| && turns[k].input == ExitSentinel
  {
    var k := FirstStop(turns);
    if k == |turns| || !Terminated(turns[k].input) {
      EndOfInputExits(turns, k);
      forall j: nat | Completed(turns, j) && j < |turns|
        ensures turns[j].input != ExitSentinel
      {
      }
    } else if turns[k].input == ExitSentinel {
      ExitSentinelEndsSession(turns, k);
    } else {
      FailedTurnExits(turns, k);
      forall j: nat | Completed(turns, j) && j < |turns| && turns[j].input == ExitSentinel
        ensures false
      {
      }
    }
  }

  /** Every request sent is the line read, newline included, under model
      "AIMY3", an empty system prompt and the default options; one is sent
      per line up to the one the session stops at. */
  lemma {:induction false} RequestsFollowInput(turns: seq<Turn>)
    ensures |SessionSpec(turns).requests| <= |turns|
    ensures forall j :: 0 <= j < |SessionSpec(turns).requests| ==>
      SessionSpec(turns).requests[j] == Data(ModelName, turns[j].input, "", DefaultOptions()) &&
      Terminated(SessionSpec(turns).requests[j].prompt)
  {
    if turns != [] && Terminated(turns[0].input) && turns[0].input != ExitSentinel &&
       StreamSpec(turns[0].reply).outcome == Ok {
      RequestsFollowInput(turns[1..]);
    }
  }

  /** "exit" with no newline can only be the end of the input: the read
      fails, nothing is sent, and the session exits 1. */
  lemma ExitWithoutNewlineExample(reply: Reply)
    ensures SessionSpec([Turn("exit", reply)]) ==
      Transcript([], [Literal(YouLabel), Literal(ReadErrorMessage)], 1)
  {
    ReadFailedTurn([Turn("exit", reply)]);
  }

  /** A line ended by "\r\n" is not the sentinel: it is sent as a prompt. */
  lemma CrlfExitExample(reply: Reply)
    requires StreamSpec(reply).outcome != Ok
    ensures SessionSpec([Turn("exit\r\n", reply)]) ==
      Transcript([RequestFor("exit\r\n")], Head(Turn("exit\r\n", reply)), 1)
  {
    assert "exit\r\n" != ExitSentinel by {
      assert |"exit\r\n"| != |ExitSentinel|;
    }
    FailedTurn([Turn("exit\r\n", reply)]);
  }
}
