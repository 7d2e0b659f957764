/**
 * The module-level configuration of the client and the call setup of
 * `stream_response`: which URL, headers and body it posts, and what it does
 * to the shared default options.
 */
module Client {
  import opened JsonValue
  import opened EventStream
  import opened Endpoint

  /** The Llama-3 style prompt the default options carry. */
  const DefaultPrompt: string :=
    "<|start_header_id|>system<|end_header_id|>\n\nYou are a Zen master and mystical poet.<|eot_id|>"
    + "<|start_header_id|>user<|end_header_id|>\n\nWrite a short haiku about llamas.<|eot_id|>"
    + "<|start_header_id|>assistant<|end_header_id|>\n\n"

  /** The strings at which the server stops generating. */
  const DefaultStopStrings: seq<string> := ["<|eot_id|>", "<|im_end|>", "<|endoftext|>", "</s>"]

  /** The options of the POST /completion request as the module defines them. */
  const DefaultCompletionOptions: map<string, Json> := map[
    "prompt" := JString(DefaultPrompt),
    "temperature" := JFloat(8, -1),
    "top_k" := JInt(40),
    "top_p" := JFloat(95, -2),
    "min_p" := JFloat(5, -2),
    "repeat_penalty" := JFloat(11, -1),
    "n_predict" := JInt(-1),
    "seed" := JInt(-1),
    "id_slot" := JInt(-1),
    "cache_prompt" := JBool(false),
    "stop" := JArray(seq(|DefaultStopStrings|, i requires 0 <= i < |DefaultStopStrings| => JString(DefaultStopStrings[i]))),
    "stream" := JBool(true)
  ]

  /** The headers of every request. */
  const DefaultHeaders: map<string, string> := map[
    "User-Agent" := "aiohttp",
    "Content-Type" := "application/json",
    "Connection" := "keep-alive",
    "Accept" := "text/event-stream"
  ]

  /** What goes on the wire: the URL, the headers and the options serialised as the JSON body. */
  datatype Request = Request(url: string, headers: map<string, string>, body: map<string, Json>)

  /** The options after `data["stream"] = True`. */
  function WithStreamFlag(options: map<string, Json>): (r: map<string, Json>)
    ensures r.Keys == options.Keys + {"stream"}
    ensures r["stream"] == JBool(true)
    ensures forall key :: key in options && key != "stream" ==> r[key] == options[key]
  {
    options["stream" := JBool(true)]
  }

  /** The defaults already stream, so setting the flag on them leaves them as they are. */
  lemma DefaultsAlreadyStream()
    ensures WithStreamFlag(DefaultCompletionOptions) == DefaultCompletionOptions
  {
  }

  /**
   * The module's two shared dictionaries. The options are one mutable
   * object that every call of `stream_response` writes to; the headers are
   * never written.
   */
  class ClientModule {
    var completionOptions: map<string, Json>
    const headers: map<string, string>

    constructor ()
      ensures completionOptions == DefaultCompletionOptions
      ensures headers == DefaultHeaders
    {
      completionOptions := DefaultCompletionOptions;
      headers := DefaultHeaders;
    }

    /**
     * One call of `stream_response` against a server that answers with
     * `status` and the body lines `body`. The caller's `data` is replaced
     * by the shared options before anything is sent, the shared options get
     * `stream` set to true, and the status is only printed: the body is
     * read and decoded whatever it is.
     */
    method StreamResponse(baseUrl: string, data: map<string, Json>, status: int, body: seq<Line>, dec: Decoders)
      returns (request: Request, run: StreamRun)
      modifies this`completionOptions
      ensures completionOptions == WithStreamFlag(old(completionOptions))
      ensures request == Request(CompletionUrl(baseUrl), headers, completionOptions)
      ensures run == DecodeBody(dec, body)
    {
      var sharedHeaders := headers;
      var url := RStrip(baseUrl, '/') + CompletionPath;
      completionOptions := completionOptions["stream" := JBool(true)];
      request := Request(url, sharedHeaders, completionOptions);
      run := StreamBody(dec, body);
    }
  }

  /**
   * Two calls in a row from the freshly loaded module send the same request
   * whatever `data` and status each sees, and leave the defaults as they found them.
   */
  method TwoCalls(baseUrl: string, data1: map<string, Json>, status1: int, data2: map<string, Json>, status2: int,
                  body: seq<Line>, dec: Decoders)
    returns (first: Request, second: Request)
    ensures first == second
    ensures first.body == DefaultCompletionOptions
    ensures first.headers == DefaultHeaders
  {
    var m := new ClientModule();
    DefaultsAlreadyStream();
    var run;
    first, run := m.StreamResponse(baseUrl, data1, status1, body, dec);
    second, run := m.StreamResponse(baseUrl, data2, status2, body, dec);
  }
}
