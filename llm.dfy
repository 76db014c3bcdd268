/**
  The language-model invoker: the one external call every step makes. What
  the provider answers is an oracle fixed when the invoker is built; the
  invoker keeps the log of prompts it was sent, so that callers can say how
  many calls they made and with what.
*/
module Llm {
  import opened Wrappers
  import opened Values

  /**
    What `llm.invoke` returns: plain text (completion models) or a chat
    message object (chat models: `.content`, its `str()` text and `.dict()`).
  */
  datatype Reply =
    | Plain(text: string)
    | Chat(content: string, rendered: string, dump: seq<(string, Value)>)

  /** The reply as the value a step stores in the case record. */
  function ReplyValue(r: Reply): (v: Value)
    ensures v != Null
  {
    match r
    case Plain(t) => Str(t)
    case Chat(c, s, d) => Message(c, s, d)
  }

  class Invoker {
    /** The provider's answer to the n-th call (counted from 0) with a given prompt; `Err` is a raised exception. */
    const respond: (nat, string) -> Result<Reply>
    /** The prompts sent so far, in order. */
    var calls: seq<string>

    constructor (respond: (nat, string) -> Result<Reply>)
      ensures this.respond == respond && calls == []
    {
      this.respond := respond;
      calls := [];
    }

    /** `llm.invoke(prompt)`. */
    method Invoke(prompt: string) returns (r: Result<Reply>)
      modifies this
      ensures calls == old(calls) + [prompt]
      ensures r == respond(|old(calls)|, prompt)
    {
      r := respond(|calls|, prompt);
      calls := calls + [prompt];
    }
  }
}
