/**
 * The loop of the demo driver `main`: it concatenates the `content` of
 * every response whose `stop` is falsy, looks up `timings` and `prompt` of
 * the others, and lets any exception of the stream or of its own lookups
 * end the program.
 */
module Transcript {
  import opened Wrappers
  import opened JsonValue
  import opened EventStream

  /** The exceptions that end `main`. */
  datatype MainError =
    | NotAnObject                     // `response.get` on a list, string, number, ...: AttributeError
    | MissingKey(key: string)         // `response[key]` on a missing key: KeyError
    | ContentNotText                  // `complete += response["content"]` with a non-string: TypeError
    | StreamFailed(cause: DecodeError) // the exception the stream itself raised

  /** `response.get("stop", False)` is truthy. */
  predicate IsStop(response: Json)
    requires response.JObject?
  {
    "stop" in response.fields && Truthy(response.fields["stop"])
  }

  /** A response the loop body handles without raising. */
  predicate Usable(response: Json) {
    && response.JObject?
    && var fields := response.fields;
       if IsStop(response) then "timings" in fields && "prompt" in fields
       else "content" in fields && fields["content"].JString?
  }

  /** What a usable response adds to the transcript: nothing for a stop response, else its content. */
  function Fragment(response: Json): string
    requires Usable(response)
  {
    if IsStop(response) then "" else response.fields["content"].s
  }

  /** One iteration of the loop, from the transcript so far. */
  function Step(complete: string, response: Json): (r: Result<string, MainError>)
    ensures r.Ok? <==> Usable(response)
    ensures r.Ok? ==> r.value == complete + Fragment(response)
  {
    if !response.JObject? then Err(NotAnObject)
    else
      var fields := response.fields;
      if "stop" in fields && Truthy(fields["stop"]) then
        if "timings" !in fields then Err(MissingKey("timings"))
        else if "prompt" !in fields then Err(MissingKey("prompt"))
        else Ok(complete)
      else if "content" !in fields then Err(MissingKey("content"))
      else
        match fields["content"]
        case JString(s) => Ok(complete + s)
        case _ => Err(ContentNotText)
  }

  /** The loop over a sequence of responses, as a left fold of Step. */
  function Collect(responses: seq<Json>): (r: Result<string, MainError>)
    ensures r.Err? ==> exists i :: 0 <= i < |responses| && !Usable(responses[i])
    ensures r.Err? ==> !r.error.StreamFailed?
  {
    if responses == [] then Ok("")
    else
      match Collect(responses[..|responses| - 1])
      case Err(e) => Err(e)
      case Ok(complete) => Step(complete, responses[|responses| - 1])
  }

  /**
   * What `main` ends with after the stream produced `run`: the loop sees
   * every yielded event before the stream's own exception surfaces.
   */
  function MainOutcome(run: StreamRun): (r: Result<string, MainError>)
    ensures r.Ok? <==> run.failure.None? && forall i :: 0 <= i < |run.events| ==> Usable(run.events[i])
    ensures r.Ok? ==> r.value == Fragments(run.events)
    ensures r.Err? && r.error.StreamFailed? ==>
      && (forall i :: 0 <= i < |run.events| ==> Usable(run.events[i]))
      && run.failure == Some(r.error.cause)
  {
    CollectSucceedsIffAllUsable(run.events);
    match Collect(run.events)
    case Err(e) => Err(e)
    case Ok(complete) =>
      CollectConcatenatesFragments(run.events);
      if run.failure.Some? then Err(StreamFailed(run.failure.value)) else Ok(complete)
  }

  /** The concatenated fragments of responses that are all usable. */
  function Fragments(responses: seq<Json>): string
    requires forall i :: 0 <= i < |responses| ==> Usable(responses[i])
  {
    if responses == [] then ""
    else Fragments(responses[..|responses| - 1]) + Fragment(responses[|responses| - 1])
  }

  /** `main`'s `async for` loop over the events of one stream. */
  method MainLoop(run: StreamRun) returns (r: Result<string, MainError>)
    ensures r == MainOutcome(run)
  {
    var responses := run.events;
    var complete := "";
    var i := 0;
    while i < |responses|
      invariant 0 <= i <= |responses|
      invariant Collect(responses[..i]) == Ok(complete)
    {
      var response := responses[i];
      if !response.JObject? {
        FailsAt(responses, i, complete);
        return Err(NotAnObject);
      }
      var fields := response.fields;
      if "stop" in fields && Truthy(fields["stop"]) {
        if "timings" !in fields {
          FailsAt(responses, i, complete);
          return Err(MissingKey("timings"));
        }
        if "prompt" !in fields {
          FailsAt(responses, i, complete);
          return Err(MissingKey("prompt"));
        }
      } else {
        if "content" !in fields {
          FailsAt(responses, i, complete);
          return Err(MissingKey("content"));
        }
        if !fields["content"].JString? {
          FailsAt(responses, i, complete);
          return Err(ContentNotText);
        }
        complete := complete + fields["content"].s;
      }
      assert responses[..i + 1][..i] == responses[..i];
      i := i + 1;
    }
    assert responses[..i] == responses;
    if run.failure.Some? {
      return Err(StreamFailed(run.failure.value));
    }
    r := Ok(complete);
  }

  /** Once a response raises, the rest of the responses are never looked at. */
  lemma {:induction false} FailsAt(responses: seq<Json>, i: nat, complete: string)
    requires i < |responses|
    requires Collect(responses[..i]) == Ok(complete)
    requires Step(complete, responses[i]).Err?
    ensures Collect(responses) == Step(complete, responses[i])
    decreases |responses|
  {
    if i + 1 == |responses| {
      assert responses[..i] == responses[..|responses| - 1];
    } else {
      var shorter := responses[..|responses| - 1];
      assert shorter[..i] == responses[..i];
      assert shorter[i] == responses[i];
      FailsAt(shorter, i, complete);
    }
  }

  /** The loop finishes exactly when every response is usable. */
  lemma {:induction false} CollectSucceedsIffAllUsable(responses: seq<Json>)
    ensures Collect(responses).Ok? <==> forall i :: 0 <= i < |responses| ==> Usable(responses[i])
    decreases |responses|
  {
    if responses != [] {
      var shorter := responses[..|responses| - 1];
      CollectSucceedsIffAllUsable(shorter);
      assert forall i :: 0 <= i < |shorter| ==> shorter[i] == responses[i];
    }
  }

  /** When the loop finishes, the transcript is the concatenated content of the non-stop responses. */
  lemma {:induction false} CollectConcatenatesFragments(responses: seq<Json>)
    requires forall i :: 0 <= i < |responses| ==> Usable(responses[i])
    ensures Collect(responses) == Ok(Fragments(responses))
    decreases |responses|
  {
    if responses != [] {
      var shorter := responses[..|responses| - 1];
      assert forall i :: 0 <= i < |shorter| ==> shorter[i] == responses[i];
      CollectConcatenatesFragments(shorter);
    }
  }
}
