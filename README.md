# llama-cpp-api-client streaming client, modelled in Dafny

This project models the streaming completion client of `llama_cpp_api_client`.
That client posts one completion request to a llama.cpp HTTP server and reads
the answer as an event stream. The model covers four parts:

- the request URL: the base URL with every trailing `/` removed, then `/completion` (module `Endpoint`);
- the module-level default options and headers, and what `stream_response` sends (module `Client`);
- the body reader. It skips separator lines and lines without the `data: `
  marker, and decodes every other line as one JSON event (module `EventStream`).
  This framing is a simplified subset of the `data:` field of the
  Server-Sent Events format, section 9.2 of the WHATWG HTML Living Standard;
- the demo driver's loop, which concatenates the `content` of the non-stop events (module `Transcript`).

The loops of the source are `method`s with loop invariants. Each is proved
equal to a specification function: `StreamBody` to `DecodeBody`, and
`MainLoop` to `MainOutcome`. The lemmas next to those functions state what the
source promises.

The module-level dictionary of default options is shared and mutable, and
every call writes to it. It is modelled as the class `Client.ClientModule`.

UTF-8 decoding and `json.loads` are foreign calls. They enter the model as the
two partial functions of `EventStream.Decoders`, where `None` stands for the
exception each one raises. The HTTP status and the body lines are inputs.

The model follows what the code does. In several places that is less than the
event-stream convention and the llama.cpp server API (its documentation is
linked at client.py:11) would suggest:

- An event with `stop: true` does not end the stream. Lines after it are still read and decoded.
- A non-200 status is only printed. The body is read and decoded anyway.
- A data line that is not valid UTF-8 or not valid JSON raises. This ends the
  stream; it is not reported and skipped.
- The `data` argument is ignored. The request body is always the shared default
  options, and nothing is merged. The call also sets `"stream"` in that shared
  dictionary.
- The default `stop` list has four strings: `<|eot_id|>`, `<|im_end|>`,
  `<|endoftext|>` and `</s>`.
- `rstrip("/")` removes every trailing slash, not only one.

## Model

| member | source | states |
|---|---|---|
| `EventStream.Take` | src/llama_cpp_api_client/client.py:61 | `raw_line[:6]` is a prefix of the line, with length min(6, length of the line) |
| `EventStream.Drop` | src/llama_cpp_api_client/client.py:64 | `[6:]` is what remains after the first six elements; it is empty when fewer remain |
| `EventStream.Classify` | src/llama_cpp_api_client/client.py:59-63 | a line is a separator iff its length is 1; it is a data line iff it has at least 6 bytes and they are `data: `; every other line (lengths 0 and 2–5 included) is skipped with a warning |
| `EventStream.DecodeBody` | src/llama_cpp_api_client/client.py:58-65 | never reads more lines than the body has; never yields more events than lines read; without an exception it reads every line; with one it has read at least one line |
| `EventStream.StreamBody` | src/llama_cpp_api_client/client.py:58-65 | the `async for` loop yields exactly the events, exception and line count that `DecodeBody` specifies |
| `EventStream.DecodeBodyAppend` | src/llama_cpp_api_client/client.py:58-65 | a body split in two is decoded as its first part, then, unless that raised, as the second part: nothing is buffered or reordered across lines |
| `EventStream.EventsAreDecodedDataLines` | src/llama_cpp_api_client/client.py:58-65 | the events are, one for one and in body order, the decoded data lines among the lines completed; a run without an exception yields as many events as the body has data lines |
| `EventStream.FailsIffSomeDataLineFails` | src/llama_cpp_api_client/client.py:64-65 | the stream raises iff some data line fails to decode |
| `EventStream.FailureIsFirstBadDataLine` | src/llama_cpp_api_client/client.py:64-65 | when it raises, the error is that of the first data line that fails to decode; that line is the last one read, so no later line is read; every earlier data line decoded |
| `EventStream.DecodeLine` | src/llama_cpp_api_client/client.py:64-65 | a data line raises the UTF-8 error iff the whole line fails to decode; otherwise the JSON is parsed from the decoded text after its first six characters (from the empty string when the text is shorter), and the line yields exactly what `json.loads` returns or raises the JSON error |
| `EventStream.DataLineNeverEndsStream` | src/llama_cpp_api_client/client.py:58-65 | a data line that decodes, a `stop: true` event included, yields its event, and the lines after it are still read and decoded |
| `JsonValue.Truthy` | src/llama_cpp_api_client/client.py:84 | Python's truth test on the `stop` value: every value is true except null, false, a zero number, and an empty string, list or object (NaN and the infinities are true) |
| `Endpoint.RStrip` | src/llama_cpp_api_client/client.py:49 | `rstrip("/")` gives a prefix of the input; all that it removes are slashes; its result does not end in a slash |
| `Endpoint.RStripUnique` | src/llama_cpp_api_client/client.py:49 | those three properties determine the result: no other prefix has them |
| `Endpoint.RStripIdempotent` | src/llama_cpp_api_client/client.py:49 | stripping twice gives the same as stripping once |
| `Endpoint.CompletionUrl` | src/llama_cpp_api_client/client.py:49 | the URL ends in `/completion`; before that comes the base URL with its whole trailing run of slashes removed |
| `Endpoint.CompletionUrlIgnoresTrailingSlashes` | src/llama_cpp_api_client/client.py:49 | adding any number of trailing slashes to the base URL does not change the URL |
| `Endpoint.DoubleSlashExample` | src/llama_cpp_api_client/client.py:49 | `http://h:8080//` gives `http://h:8080/completion` |
| `Endpoint.DefaultEndpoint` | src/llama_cpp_api_client/client.py:40-49 | the default base URL gives `http://localhost:8080/completion` |
| `Client.WithStreamFlag` | src/llama_cpp_api_client/client.py:52 | after `data["stream"] = True` the options have a `stream` key set to true; no other key is added or changed |
| `Client.DefaultsAlreadyStream` | src/llama_cpp_api_client/client.py:12-29 | the defaults already have `stream` set to true, so setting the flag leaves them unchanged |
| `Client.ClientModule.constructor` | src/llama_cpp_api_client/client.py:12-37 | the shared options and headers start as the module's literal defaults |
| `Client.ClientModule.StreamResponse` | src/llama_cpp_api_client/client.py:40-65 | the shared options get `stream` set to true and nothing else changes; the request goes to `CompletionUrl(base_url)` with the shared headers and the updated shared options as its body, whatever `data` is; the events are `DecodeBody` of the body lines, whatever the status is |
| `Client.TwoCalls` | src/llama_cpp_api_client/client.py:46-54 | two calls on the freshly loaded module send identical requests whose body is the default options and whose headers are the default headers, whatever `data` and status each call sees |
| `Transcript.Step` | src/llama_cpp_api_client/client.py:84-88 | one iteration succeeds iff the response is usable: an object whose truthy `stop` comes with `timings` and `prompt`, or without a truthy `stop`, a string `content`; it then appends that response's fragment |
| `Transcript.Collect` | src/llama_cpp_api_client/client.py:83-88 | the fold of the loop over the responses; when it raises, some response is not usable, and the error is never a stream error |
| `Transcript.MainOutcome` | src/llama_cpp_api_client/client.py:83-88 | `main` finishes iff the stream raised nothing and every event is usable, and then the transcript is the concatenated fragments; the stream's own exception surfaces only after every event was handled |
| `Transcript.MainLoop` | src/llama_cpp_api_client/client.py:82-88 | the loop ends with exactly `MainOutcome` of the stream's run: the first failing response's error, else the stream's exception, else the transcript |
| `Transcript.FailsAt` | src/llama_cpp_api_client/client.py:83-88 | the first response that raises decides the outcome; no later response is looked at |
| `Transcript.CollectSucceedsIffAllUsable` | src/llama_cpp_api_client/client.py:84-88 | the loop finishes without raising iff every response is usable |
| `Transcript.CollectConcatenatesFragments` | src/llama_cpp_api_client/client.py:82-88 | when every response is usable, the transcript is the concatenation, in order, of the `content` of the non-stop responses; stop responses add nothing |

## Left out

- The aiohttp `ClientSession`, the POST and the transport's splitting of the body into lines (client.py:45, 54, 58) are network I/O. The model takes the status and the body lines as inputs. A transport failure in the middle of the stream is not modelled.
- The generator's laziness is not modelled. The model computes the whole run as if the consumer pulls every event, and it does not capture a consumer that stops early. The order of events, the exception and the lines read are modelled.
- The `print` diagnostics (client.py:50, 56, 62, 85-86, 89, 91) are console output only. For this reason the status is an unused input of `StreamResponse`.
- UTF-8 decoding and `json.loads` are foreign library calls. They are parameters of the model, partial functions that may fail; their internals are not modelled.
- Floating-point values are kept as decimal literals (mantissa and exponent), plus NaN and the two infinities. No arithmetic is done on them, and float rounding is not modelled.
- Of `main` (client.py:68-95) only the loop that builds the transcript is modelled. The prompt strings and `asyncio.run` belong to a demo driver.
- The programs under examples/ are demo drivers built on console rendering and the network. `chat_to_prompt` and `LlamaCppAPIClient` are defined outside client.py and are not modelled.
- JSON strings holding lone surrogates (from `\ud800`-style escapes, which `json.loads` accepts) cannot be represented, because a Dafny `string` cannot hold surrogate code points.
- `Request.body` and the default options are maps, so the key order of the Python dict, which `json=data` at client.py:54 serialises in, is not modelled. The server does not depend on it.
