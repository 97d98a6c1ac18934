/**
 * The request text sent to a translation backend (main.py:22-40): a fixed
 * system instruction and a user prompt made of a fixed preamble followed by
 * the Python program verbatim.
 */
module Prompts {
  import opened Outcomes

  /** `SYSTEM_MESSAGE` (main.py:22-26). */
  const SystemMessage: string :=
    "You are an assistant that reimplements Python code in high performance C++ for cross-platform systems. "
    + "Respond only with C++ code; use comments sparingly and do not provide any explanation other than occasional comments. "
    + "The C++ response needs to produce an identical output in the fastest possible time. Keep implementations of random number generators identical so that results match exactly."

  /** The fixed text that `user_prompt_for` puts before the program (main.py:30-32). */
  const PromptPreamble: string :=
    "Rewrite this Python code in C++ with the fastest possible implementation that produces identical output in the least time. "
    + "Respond only with C++ code; do not explain your work other than a few comments. "
    + "Pay attention to number types to ensure no int overflows. Remember to #include all necessary C++ headers such as <iomanip>.\n\n"

  /** One chat message, `{"role": ..., "content": ...}`. */
  datatype Message = Message(role: string, content: string)

  /** `user_prompt_for(python_code)` (main.py:28-34). */
  function UserPromptFor(code: string): string
  {
    PromptPreamble + code
  }

  /** Recovers the program from a user prompt; `None` when the preamble is missing. */
  function ProgramOf(prompt: string): (r: Option<string>)
    ensures r.Some? <==> PromptPreamble <= prompt
    ensures r.Some? ==> prompt == PromptPreamble + r.value
  {
    if PromptPreamble <= prompt then Some(prompt[|PromptPreamble|..]) else None
  }

  /** The prompt ends with the program verbatim after the fixed preamble, and the program can be read back from it. */
  lemma UserPromptRoundTrip(code: string)
    ensures PromptPreamble <= UserPromptFor(code)
    ensures |UserPromptFor(code)| == |PromptPreamble| + |code|
    ensures ProgramOf(UserPromptFor(code)) == Some(code)
  {
    assert UserPromptFor(code)[|PromptPreamble|..] == code;
  }

  /** Different programs give different prompts. */
  lemma UserPromptInjective(a: string, b: string)
    requires UserPromptFor(a) == UserPromptFor(b)
    ensures a == b
  {
    UserPromptRoundTrip(a);
    UserPromptRoundTrip(b);
  }

  /**
   * `messages_for(python_code)` (main.py:36-40): exactly the system message
   * followed by the user message carrying the program.
   */
  function MessagesFor(code: string): (r: seq<Message>)
    ensures |r| == 2
    ensures r[0] == Message("system", SystemMessage)
    ensures r[1].role == "user" && ProgramOf(r[1].content) == Some(code)
  {
    UserPromptRoundTrip(code);
    [Message("system", SystemMessage), Message("user", UserPromptFor(code))]
  }
}
