/**
 * Streaming translation (main.py:48-81): each backend's reply arrives as a
 * sequence of fragments; `stream_gpt` and `stream_claude` append every
 * fragment to a cumulative `reply` and yield the fence-stripped reply once
 * per fragment, and `optimize` re-yields the stream picked by its label.
 *
 * A backend is a total function from the request it receives to the
 * fragments it streams back; a generator run is the sequence of values it
 * yields, followed by the exception it raises, if any.
 */
module Streams {
  import opened Outcomes
  import opened Fences
  import opened Prompts

  /** `OPENAI_MODEL` and `CLAUDE_MODEL` (main.py:19-20). */
  const OpenAIModel: string := "gpt-4o"
  const ClaudeModel: string := "claude-3-5-sonnet-20240620"
  /** `max_tokens` of the Anthropic request (main.py:63). */
  const ClaudeMaxTokens: nat := 2000

  /** The two request shapes: an OpenAI streamed chat completion and an Anthropic message stream. */
  datatype Request =
    | ChatCompletion(model: string, messages: seq<Message>)
    | MessageStream(model: string, maxTokens: nat, system: string, messages: seq<Message>)

  /** Exceptions raised by `optimize` itself. */
  datatype Failure = ValueError(message: string)

  /** What a caller draining a generator observes: the values yielded, then the exception raised, if any. */
  datatype Generated = Generated(values: seq<string>, raised: Option<Failure>)

  /** The request `stream_gpt` sends (main.py:49-53). */
  function GptRequest(code: string): Request
  {
    ChatCompletion(OpenAIModel, MessagesFor(code))
  }

  /** The request `stream_claude` sends (main.py:61-66). */
  function ClaudeRequest(code: string): Request
  {
    MessageStream(ClaudeModel, ClaudeMaxTokens, SystemMessage, [Message("user", UserPromptFor(code))])
  }

  /** Both backends receive the same instruction and the same prompt, only packaged differently. */
  lemma RequestsCarrySameText(code: string)
    ensures GptRequest(code).messages == [Message("system", ClaudeRequest(code).system)] + ClaudeRequest(code).messages
    ensures ProgramOf(ClaudeRequest(code).messages[0].content) == Some(code)
  {
    UserPromptRoundTrip(code);
  }

  /** `chunk.choices[0].delta.content or ""`: an absent fragment counts as empty (main.py:56). */
  function FragmentText(chunk: Option<string>): string
  {
    match chunk
    case None => ""
    case Some(text) => text
  }

  /** The texts of a sequence of OpenAI chunks, chunk by chunk. */
  function Texts(chunks: seq<Option<string>>): seq<string>
  {
    seq(|chunks|, i requires 0 <= i < |chunks| => FragmentText(chunks[i]))
  }

  /** The fragments joined in order: the raw `reply` after the last of them. */
  function Concat(parts: seq<string>): string
  {
    if parts == [] then "" else Concat(parts[..|parts| - 1]) + parts[|parts| - 1]
  }

  /** The raw reply only ever grows by appending: each fragment is added at the end. */
  lemma {:induction false} ConcatGrows(parts: seq<string>, j: nat, k: nat)
    requires j <= k <= |parts|
    ensures Concat(parts[..j]) <= Concat(parts[..k])
    ensures k < |parts| ==> Concat(parts[..k + 1]) == Concat(parts[..k]) + parts[k]
    decreases k - j
  {
    if k < |parts| {
      assert parts[..k + 1][..k] == parts[..k];
    }
    if j < k {
      ConcatGrows(parts, j, k - 1);
      ConcatGrows(parts, k - 1, k - 1);
      assert parts[..k][..k - 1] == parts[..k - 1];
    }
  }

  /** The values a stream yields for the given fragments, in order: one per fragment. */
  function Snapshots(parts: seq<string>): (r: seq<string>)
    ensures |r| == |parts|
  {
    if parts == [] then []
    else Snapshots(parts[..|parts| - 1]) + [StripStream(Concat(parts))]
  }

  /** The k-th value yielded is the stripped concatenation of the first k + 1 fragments. */
  lemma {:induction false} SnapshotsAt(parts: seq<string>, k: nat)
    requires k < |parts|
    ensures Snapshots(parts)[k] == StripStream(Concat(parts[..k + 1]))
  {
    var init := parts[..|parts| - 1];
    assert Snapshots(parts) == Snapshots(init) + [StripStream(Concat(parts))];
    if k < |init| {
      SnapshotsAt(init, k);
      assert init[..k + 1] == parts[..k + 1];
    } else {
      assert parts[..k + 1] == parts;
    }
  }

  /** Every yielded snapshot is free of fences and survives `write_output`'s strip unchanged. */
  lemma SnapshotsAreClean(parts: seq<string>, k: nat)
    requires k < |parts|
    ensures !Occurs(Ticks, Snapshots(parts)[k])
    ensures StripWrite(Snapshots(parts)[k]) == Snapshots(parts)[k]
  {
    SnapshotsAt(parts, k);
    StripStreamCleanAndIdempotent(Concat(parts[..k + 1]));
    StripWriteAfterStripStream(Concat(parts[..k + 1]));
  }

  /**
   * Although the raw reply grows, the stripped snapshots need not: a fence
   * completed by a later fragment disappears from the later snapshot.
   */
  lemma SnapshotsCanShrink()
    ensures Snapshots(["``", "`"]) == ["``", ""]
  {
    var parts: seq<string> := ["``", "`"];
    assert parts[..1] == ["``"] && parts[..2] == parts;
    assert Concat(["``"]) == "``" by { assert ["``"][..0] == []; }
    assert Concat(parts) == "```" by { assert parts[..1] == ["``"]; }
    assert StripStream("``") == "``" by {
      RemoveAbsent("``", CppFenceLine);
      RemoveAbsent("``", Ticks);
    }
    assert StripStream("```") == "" by {
      RemoveAbsent("```", CppFenceLine);
      assert "```"[3..] == [];
    }
  }

  /** `stream_gpt` (main.py:48-58), its fragments drawn from `backend`. */
  method StreamGpt(code: string, backend: Request -> seq<Option<string>>) returns (snapshots: seq<string>)
    ensures snapshots == Snapshots(Texts(backend(GptRequest(code))))
  {
    var stream := backend(GptRequest(code));
    var texts := Texts(stream);
    var reply := "";
    snapshots := [];
    for i := 0 to |stream|
      invariant reply == Concat(texts[..i])
      invariant snapshots == Snapshots(texts[..i])
    {
      var fragment := FragmentText(stream[i]);
      ConcatGrows(texts, i, i);
      reply := reply + fragment;
      snapshots := snapshots + [StripStream(reply)];
      assert texts[..i + 1][..i] == texts[..i];
    }
    assert texts[..|stream|] == texts;
  }

  /** `stream_claude` (main.py:60-71), its text stream drawn from `backend`. */
  method StreamClaude(code: string, backend: Request -> seq<string>) returns (snapshots: seq<string>)
    ensures snapshots == Snapshots(backend(ClaudeRequest(code)))
  {
    var stream := backend(ClaudeRequest(code));
    var reply := "";
    snapshots := [];
    for i := 0 to |stream|
      invariant reply == Concat(stream[..i])
      invariant snapshots == Snapshots(stream[..i])
    {
      ConcatGrows(stream, i, i);
      reply := reply + stream[i];
      snapshots := snapshots + [StripStream(reply)];
      assert stream[..i + 1][..i] == stream[..i];
    }
    assert stream[..|stream|] == stream;
  }

  /** The `for partial in generator: yield partial` loop of `optimize` (main.py:80-81). */
  method CopyAll(generator: seq<string>) returns (partials: seq<string>)
    ensures partials == generator
  {
    partials := [];
    for i := 0 to |generator|
      invariant partials == generator[..i]
    {
      partials := partials + [generator[i]];
    }
  }

  /**
   * `optimize` (main.py:73-81): "GPT" and "Claude" re-yield their stream
   * element by element; any other label raises `ValueError` before anything
   * is yielded.
   */
  method Optimize(code: string, model: string, gpt: Request -> seq<Option<string>>, claude: Request -> seq<string>)
    returns (run: Generated)
    ensures model == "GPT" ==> run == Generated(Snapshots(Texts(gpt(GptRequest(code)))), None)
    ensures model == "Claude" ==> run == Generated(Snapshots(claude(ClaudeRequest(code))), None)
    ensures model != "GPT" && model != "Claude" ==> run == Generated([], Some(ValueError("Unknown model selection")))
  {
    var generator: seq<string>;
    if model == "GPT" {
      generator := StreamGpt(code, gpt);
    } else if model == "Claude" {
      generator := StreamClaude(code, claude);
    } else {
      return Generated([], Some(ValueError("Unknown model selection")));
    }
    var partials := CopyAll(generator);
    return Generated(partials, None);
  }
}
