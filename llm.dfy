/** The language-model backend as the screener sees it: what goes into a
    prompt, what the chat call can answer, and the common step of both
    variants that decodes the reply text as JSON. The prompt wording and the
    model itself are foreign. */
module Llm {
  import opened Json

  /** The two inputs a screening prompt is built from; the surrounding
      instructions are fixed text and are not represented. */
  datatype Prompt = Prompt(jobDescription: string, resume: string)

  /** The chat call answers with a message content, or raises. */
  datatype ChatReply = Answered(content: string) | ChatFailed(msg: string)

  /** json.loads(response["message"]["content"]), raising whatever the chat
      call or the decoder raised. */
  function ParseReply(reply: ChatReply, loads: string -> Parsed): (r: Outcome<Value>)
    ensures r.Returned? <==> reply.Answered? && loads(reply.content).Parsed?
    ensures r.Returned? ==> r.value == loads(reply.content).value
    ensures reply.ChatFailed? ==> r.msg == reply.msg
    ensures reply.Answered? && loads(reply.content).Malformed? ==> r.msg == loads(reply.content).msg
  {
    match reply
    case ChatFailed(m) => Raised(m)
    case Answered(content) =>
      match loads(content)
      case Malformed(m) => Raised(m)
      case Parsed(v) => Returned(v)
  }
}
