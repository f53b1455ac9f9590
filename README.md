# AIMY client, modelled in Dafny

AIMY is a small terminal chat client (`AIMY.go`) for an Ollama-style
`/api/generate` endpoint. On each turn it prints `YOU: `, reads a line, and
stops on the exact text `exit\n`. Any other line becomes the `prompt` of a
request: the model is `AIMY3`, the system prompt is empty, and the options
are the defaults. The request is POSTed, and the client then decodes the
newline-delimited JSON reply, printing the `response` member of each line.

The model has four modules:

- `Json` (`json.dfy`): JSON values as written and read. An object is an
  ordered list of members.
- `ModelOptions` (`options.dfy`): the `Runner`, `Options` and `Data`
  records, their JSON names, `DefaultOptions`, and the members
  `encoding/json` writes for them. Every options field is `omitempty`, and
  the embedded `Runner` is flattened into the same object, ahead of the
  other fields.
- `StreamDecoder` (`stream.dfy`): the scan loop of `Client.stream`.
  - The method `Stream` is proved against the recursive specification
    `Decode`/`StreamSpec`.
  - The body is a sequence of lines. Each line carries its length, so the
    65535-byte scanner buffer can be judged.
  - Each line is abstracted to what `encoding/json` makes of it:
    undecodable, `null`, or an object (the probe's `error` string plus the
    object's members).
  - The `result` map is state carried across iterations and never cleared.
- `Session` (`session.dfy`): the read/dispatch loop of `main`.
  - The method `Session` is proved against `SessionSpec`.
  - Standard input and the server's replies are given up front, as one
    `Turn` per call of `ReadString('\n')`: the text that call returns, and
    the reply the server gives if that text is sent.
  - A read whose text does not end in a newline is the read error: the
    input ended first.
  - `os.Exit` becomes the returned exit code, and a call's failure becomes
    an `Outcome` value.

Behaviour of the code that is easy to miss, and that the model keeps:

- A body of `{"response":"Hel"}`, `{"response":"lo"}`, `{"done":true}`
  prints `Hellolo` and a newline, not `Hello`. The last line has no
  `response` of its own, so the stale one is printed again
  (`StreamDecoder.ThreeLineExample`).
- A line too long for the scanner buffer ends the loop silently, and the
  call returns nil, because `scanner.Err()` is never consulted.
- `mirostat` is 0 by default and tagged `omitempty`, so it is not written.
- A status-500 body whose first line has an `error` returns that error. It
  does not reach `os.Exit(1)`, because the probe comes before the status
  check.

## Model

| member | source | states |
|---|---|---|
| ModelOptions.EncodeFields | AIMY.go:15-56 | Every written member is `Member(tag, value)` of a listed field. A field is written exactly when its value is not Go's empty value (`omitempty`). No more members are written than there are fields. |
| ModelOptions.EncodeData | AIMY.go:74-79 | The request body always has the keys `model`, `prompt`, `system`, `options`, in that order, even when `system` is empty (no `omitempty`). |
| ModelOptions.DefaultOptions | AIMY.go:88-125 | The default record: `num_predict` -1, `seed` -1, `num_keep` 0, `top_k` 40, `repeat_last_n` 64, `mirostat` 0, `num_ctx` 4096, `num_batch` 512, `num_gpu` -1, `num_gqa` 1, `num_thread` 15, `main_gpu` 0; `penalize_newline`, `f16_kv`, `use_mmap`, `embedding_only` true and every other flag false; the float fields as written; no stop words. Its serialized keys are stated by `DefaultOptionsKeys`. |
| ModelOptions.RunnerTagRoundTrip | AIMY.go:39-56 | Each `Runner` field's JSON name reads back to that field. |
| ModelOptions.OptionTagRoundTrip | AIMY.go:15-35 | Each `Options` field's JSON name reads back to that field. |
| ModelOptions.OptionTagNotRunnerTag | AIMY.go:15-56 | No `Options` JSON name is also a `Runner` name, so flattening the embedded `Runner` loses no field. |
| ModelOptions.TagInjective | AIMY.go:15-56 | Two fields with the same JSON name are the same field. |
| ModelOptions.FieldsDistinct | AIMY.go:15-56 | The field order used for marshalling (Runner first, then Options) lists no field twice. |
| ModelOptions.FieldsComplete | AIMY.go:15-56 | Every field of `Options` and of the embedded `Runner` is in the marshalling order. |
| ModelOptions.EncodeKeyPresence | AIMY.go:15-56 | For any options value, a field's key is in the `options` object iff its value is non-empty, and the value under that key is the field's value. |
| ModelOptions.EncodeFieldsKeysDistinct | AIMY.go:15-56 | Encoding distinct fields yields distinct keys. |
| ModelOptions.EncodeKeysDistinct | AIMY.go:15-56 | The `options` object never repeats a key. |
| ModelOptions.DefaultEmptyFields | AIMY.go:88-125 | A default field is Go-empty iff it is one of `numa`, `main_gpu`, `low_vram`, `logits_all`, `vocab_only`, `use_mlock`, `num_keep`, `presence_penalty`, `frequency_penalty`, `mirostat` or `stop`. |
| ModelOptions.DefaultOptionsKeys | AIMY.go:88-125 | The serialized default `options` object has a key for a field iff the field is not among those eleven. |
| StreamDecoder.Tokens | AIMY.go:158-163 | The scanner yields the lines in order, each shorter than 65535 bytes, and stops at the first line that does not fit. |
| StreamDecoder.Merge | AIMY.go:190 | Unmarshalling an object into `result` keeps the keys of both, takes the line's value for each key it has and the old value for the rest; unmarshalling `null` empties the map. |
| StreamDecoder.Decode | AIMY.go:163-194 | The loop over the tokens prints at most one entry per token plus the newline. It returns nil exactly when it printed one entry per token and then the newline. |
| StreamDecoder.Stream | AIMY.go:139-195 | What the loop prints and how it ends equals `StreamSpec`. Checks run in order: transport failure, then per line the probe, the `error` field, the status gate, merge into `result`, and print `result["response"]`. Finally it prints a newline and returns nil. |
| StreamDecoder.ResponseMerge | AIMY.go:162-191 | Unmarshalling a line into the long-lived `result` makes `result["response"]` the line's own `response` when it has one. Otherwise the earlier value stays, or there is none after `null`. |
| StreamDecoder.DecodePassingPrefix | AIMY.go:163-191 | Below status 400, k lines that pass each print the latest response so far. The loop then continues with the merged map. |
| StreamDecoder.DecodeAllPass | AIMY.go:163-194 | Below 400, with every line passing, the call prints each line's latest response in order, then exactly one newline, and returns nil. |
| StreamDecoder.DecodeStopsAtRejected | AIMY.go:168-175 | The first line that fails the probe ends the call. An undecodable line gives an `unmarshal` error, and a non-empty `error` gives the server's message. Only earlier lines were printed, and no newline. |
| StreamDecoder.DecodeStatusGate | AIMY.go:163-194 | At status 400 or more, the first line ends the call: probe error, server error, or `os.Exit(1)`. Nothing is printed for it. With no lines at all, the call prints the newline and returns nil. |
| StreamDecoder.DecodeOkIffNewline | AIMY.go:163-194 | The call returns nil iff its output ends with the newline. |
| StreamDecoder.StaleResponse | AIMY.go:162-191 | A line without `response` prints the `response` of the latest earlier line that had one. |
| StreamDecoder.ScanUpTo | AIMY.go:158-163 | Lines after the first oversized one are never tokenized. |
| StreamDecoder.OversizedLineEndsScan | AIMY.go:158-163 | An oversized line acts as the end of the body. |
| StreamDecoder.LinesAfterOversizeIgnored | AIMY.go:158-163 | Two bodies that agree up to and including an oversized line produce the same call. |
| StreamDecoder.OversizedLineReturnsNil | AIMY.go:158-194 | An oversized line after passing lines still ends the call with the newline and nil. |
| StreamDecoder.ReadFailureIgnored | AIMY.go:163-194 | A read failure behaves like end of file, because `scanner.Err()` is never read. |
| StreamDecoder.ThreeLineExample | AIMY.go:162-194 | `Hel`, `lo`, then a line without `response`: prints `Hel`, `lo`, `lo`, newline. |
| StreamDecoder.ErrorBeforeStatusExample | AIMY.go:173-184 | Under status 500, an `error` line returns the server's message rather than exiting. |
| Session.RequestFor | AIMY.go:221-226 | The request for a line: model `AIMY3`, the line as prompt, an empty system prompt, and `DefaultOptions()`. Stated of the requests a session sends by `RequestsFollowInput`. |
| Session.SentinelTurn | AIMY.go:208-219 | A line equal to `exit\n` ends the session with code 0. Only `YOU: ` is printed and nothing is sent. |
| Session.FailedTurn | AIMY.go:208-242 | Any other line sends one request and prints `YOU: `, `AIMY: ` and the call's output. If the call does not return nil, the session exits with 1. |
| Session.CompletedTurn | AIMY.go:208-246 | Any other line sends one request and prints `YOU: `, `AIMY: ` and the call's output. If the call returns nil, the session continues with the next line. |
| Session.Session | AIMY.go:208-246 | The requests sent, the output and the exit code equal `SessionSpec`. Per turn the order is: prompt, read (error exits 1), sentinel (exits 0), request, and one `stream` call, because the inner `buffer` loop runs once. |
| Session.SessionPrefix | AIMY.go:208-246 | After k completed turns, exactly the k requests for those lines have been sent, in order, and their labels and replies printed. |
| Session.ExitSentinelEndsSession | AIMY.go:217-219 | `exit\n` ends the session with code 0, sending nothing for that line. |
| Session.FailedTurnExits | AIMY.go:239-242 | A call that does not return nil ends the session with code 1 after that line's request. No later line is read. |
| Session.ReadFailedTurn | AIMY.go:209-215 | A read that returns no text, or text without a final newline, prints `YOU: ` and `Error reading input: EOF`, sends nothing and exits 1. |
| Session.EndOfInputExits | AIMY.go:208-215 | When input runs out after k completed turns, possibly on a partial line that is dropped, exactly those k requests were sent, `Error reading input: EOF` is printed and the code is 1. |
| Session.FirstStop | AIMY.go:208-246 | Every input has a first turn that is a failed read, the sentinel or a failed call, or else runs out, and all turns before it completed. |
| Session.SessionExitCode | AIMY.go:208-246 | The exit code is 0 or 1. It is 0 iff `exit\n` is read before any call fails and before input runs out. |
| Session.RequestsFollowInput | AIMY.go:221-226 | Request j is the text of the j-th read, ending in its newline, with model `AIMY3`, empty system prompt and the default options. At most one request is sent per read. |
| Session.ExitWithoutNewlineExample | AIMY.go:211-215 | `exit` with no newline can only come back with the end of input: the read error is printed, nothing is sent, and the code is 1. |
| Session.CrlfExitExample | AIMY.go:217-242 | `exit\r\n` is not the sentinel: it is sent as a prompt, and a failing call then exits 1. |

## Left out

- HTTP: building the request, its URL and headers, the `User-Agent` built
  from `runtime`, and `http.Client.Do`. A reply is given as input, and
  `TransportFailure` stands for any error before a response.
- The JSON tokenizer and `bufio.Scanner`'s byte handling. Each line arrives
  already classified, with its length.
- Case-insensitive matching of the `error` key and `error` values that are
  not strings. These are folded into `Line.error` and `Undecodable`.
- `Line.Record` does not tie `error` to the record's own `error` member. The
  model therefore admits records the probe would reject, such as a number
  under `error` with an empty `error` string. Every lemma about the loop
  holds for all records, so it holds for the ones the source can see.
- Scanner corner case: a final line with no newline that is exactly 65535
  bytes long is treated as not fitting.
- Floating-point fields hold the source's decimal literals as `real`. No
  float32 rounding or arithmetic is modelled; only emptiness matters for
  encoding.
- `fmt.Errorf` reading the server's message as a format string is not
  modelled; the message is kept verbatim.
- `%s` formatting of a missing or non-string `response` is not modelled.
  `Out.Fragment` keeps the raw value.
- `os.Exit` is an outcome and an exit code, not a process action.
- Standard input is not modelled as a device.
  - It is the sequence of texts that successive `ReadString('\n')` calls
    return.
  - `main` makes a fresh `bufio.NewReader(os.Stdin)` on every turn
    (AIMY.go:210), and whatever the old reader had buffered past its first
    newline is lost. With piped input such as `hi\nexit\n`, the second
    turn reads the end of input and never sees `exit\n`. A Turn is what
    each fresh reader returns, not a line written to standard input. How
    much each reader buffers is not modelled.
  - A text holding a newline before its last character is not excluded,
    although `ReadString` never returns one.
  - Any read error is reported as `EOF`; other error messages are not
    modelled.
- The `json.Marshal` panic in `main` is left out. Marshal fails only on a
  NaN or infinite float32, and the one value `main` marshals,
  `DefaultOptions()` with a string prompt, has none.
- `GenerateRequest` and `ImageData` (AIMY.go:58-72) are never used, and
  the commented-out `structToMap` (AIMY.go:127-137) is dead code.
- Session.Session: the inner `for { … if len(buffer) == 0 { break } }`
  loop is written as its single iteration, because `buffer` is never
  assigned.
