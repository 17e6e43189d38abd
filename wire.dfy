/**
 * The request the chat client posts, as the worker's handler receives it:
 * the body is `{ messages: history, model: selectedModel }`, with every
 * turn's role written as the text `user` or `assistant`.
 */
module Wire {
  import opened JsText
  import ChatClient
  import Worker

  /** The text a client role is serialised as. */
  function RoleName(role: ChatClient.Role): (name: string)
    ensures name != Worker.SystemRole
  {
    match role
    case User => "user"
    case Assistant => "assistant"
  }

  /** The client's turns as the worker's messages, one for one. */
  function AsMessages(history: seq<ChatClient.ChatMsg>): (r: seq<Worker.ChatMessage>)
    ensures |r| == |history|
    ensures forall k :: 0 <= k < |r| ==>
      r[k] == Worker.ChatMessage(RoleName(history[k].role), history[k].content)
  {
    if history == [] then []
    else [Worker.ChatMessage(RoleName(history[0].role), history[0].content)] + AsMessages(history[1..])
  }

  /** The body the worker destructures: both fields present. */
  function AsBody(req: ChatClient.Request): Worker.ChatBody {
    Worker.ChatBody(Some(AsMessages(req.messages)), Some(req.model))
  }

  /** A conversation the client sends never has a system turn, so the worker
      always puts its system prompt in front of it, and asks for the model the
      client selected when that is one of the table's keys. */
  lemma ClientRequestGetsPrompt(req: ChatClient.Request, aiThrows: (string, seq<Worker.ChatMessage>) -> bool)
    ensures !Worker.HasSystemMessage(AsMessages(req.messages))
    ensures Worker.WithSystemPrompt(AsMessages(req.messages))
         == [Worker.ChatMessage(Worker.SystemRole, Worker.SystemPrompt)] + AsMessages(req.messages)
    ensures Worker.Fetch(Worker.ChatPath, "POST", AsBody(req), aiThrows).ServerError?
      <==> aiThrows(Worker.SelectModel(Some(req.model)), Worker.WithSystemPrompt(AsMessages(req.messages)))
    ensures req.model in Worker.Models ==>
      Worker.SelectModel(Some(req.model)) == Worker.Models[req.model]
  {
    var msgs := AsMessages(req.messages);
    forall k | 0 <= k < |msgs| ensures msgs[k].role != Worker.SystemRole {
      assert msgs[k].role == RoleName(req.messages[k].role);
    }
  }
}
